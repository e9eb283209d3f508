/**
 * The request and response records the services exchange (the pydantic
 * schemas), with their field defaults and bounds.
 */
module Schemas {
  import opened Wrappers
  import opened Calendar
  import opened Fingerprint

  /** A transaction on its way to YNAB and the ledger; `source` defaults to "csv". */
  datatype TransactionCreate = TransactionCreate(
    date: Timestamp,
    amount: Money,
    payee: Option<string> := None,
    memo: Option<string> := None,
    source: string := "csv",
    sourceAccount: Option<string> := None,
    sourceTransactionId: Option<string> := None)

  /** A parsed CSV row shown to the user before import. */
  datatype TransactionPreview = TransactionPreview(
    date: Timestamp,
    amount: Money,
    payee: Option<string>,
    memo: Option<string>,
    isDuplicate: bool,
    transactionHash: string)

  /** A transaction as read from Akahu: the description is required, merchant and category are not. */
  datatype AkahuTransaction = AkahuTransaction(
    id: string,
    accountId: string,
    date: Timestamp,
    amount: Money,
    description: string,
    merchant: Option<string> := None,
    category: Option<string> := None)

  /** A request to link an Akahu account to a YNAB account. */
  datatype AkahuAccountLink = AkahuAccountLink(
    akahuAccountId: string,
    ynabBudgetId: string,
    ynabAccountId: string,
    autoSync: bool := false)

  /** A bank account as listed by Akahu. */
  datatype AkahuAccountResponse = AkahuAccountResponse(
    id: string,
    name: string,
    accountType: string,
    institution: string,
    balance: Option<Money>)

  /** A schedule request; the bounds are enforced before the handler runs. */
  datatype ScheduleConfig = ScheduleConfig(
    enabled: bool := true,
    intervalHours: int := 6,
    daysToSync: int := 7)

  predicate ValidScheduleConfig(c: ScheduleConfig) {
    1 <= c.intervalHours <= 24 && 1 <= c.daysToSync <= 90
  }

  /** The schedule a request gets when it names no field. */
  function DefaultScheduleConfig(): (c: ScheduleConfig)
    ensures ValidScheduleConfig(c)
    ensures c.enabled && c.intervalHours == 6 && c.daysToSync == 7
  {
    ScheduleConfig()
  }

  /** The editable fields of a CSV mapping profile. */
  datatype MappingProfileCreate = MappingProfileCreate(
    name: string,
    columnMappings: map<string, string>,
    description: Option<string> := None,
    dateFormat: string := "%d/%m/%Y",
    amountInverted: bool := false,
    skipRows: int := 0,
    defaultYnabAccountId: Option<string> := None)

  /** What a YNAB import reports back. */
  datatype YnabImportResult = YnabImportResult(transactionIds: seq<string>, duplicateImportIds: seq<string>)
}
