/**
 * The CSV endpoints: parsing an upload with column names from the form or
 * with a built-in bank profile, each followed by duplicate flagging against
 * the ledger; and importing a reviewed list, which filters out flagged rows,
 * sends the rest to YNAB and records them in the ledger. The YNAB response
 * is given.
 */
module CsvRouter {
  import opened Wrappers
  import opened Calendar
  import opened Fingerprint
  import opened Schemas
  import opened Models
  import opened Sequences
  import opened Dedup
  import opened CsvParser
  import opened YnabClient

  /** Every preview flagged by whether its fingerprint is stored, nothing else changed. */
  function Flagged(previews: seq<TransactionPreview>, stored: set<string>): (r: seq<TransactionPreview>)
    ensures |r| == |previews|
    ensures forall i :: 0 <= i < |r| ==>
      && (r[i].isDuplicate <==> previews[i].transactionHash in stored)
      && r[i].(isDuplicate := previews[i].isDuplicate) == previews[i]
  {
    seq(|previews|, i requires 0 <= i < |previews| =>
      previews[i].(isDuplicate := previews[i].transactionHash in stored))
  }

  /** Runs the ledger's in-place flagging over a list of previews. */
  method FlagAgainstLedger(ledger: ImportLedger, previews: seq<TransactionPreview>)
    returns (flagged: seq<TransactionPreview>)
    ensures flagged == Flagged(previews, HashesOf(ledger.rows))
  {
    var a := new TransactionPreview[|previews|](i requires 0 <= i < |previews| => previews[i]);
    var same := ledger.CheckDuplicates(a);
    flagged := a[..];
  }

  /** The mapping the parse form builds: `date`, `amount`, `payee` and `memo` to the columns given. */
  function UploadMappings(dateColumn: string, amountColumn: string, payeeColumn: Option<string>,
                          memoColumn: Option<string>): (m: ColumnMappings)
    ensures m.Keys == {"date", "amount", "payee", "memo"}
    ensures m["date"] == Some(dateColumn) && m["amount"] == Some(amountColumn)
    ensures m["payee"] == payeeColumn && m["memo"] == memoColumn
  {
    map["date" := Some(dateColumn), "amount" := Some(amountColumn), "payee" := payeeColumn, "memo" := memoColumn]
  }

  /** `POST /csv/parse`: the parsed rows, each flagged against the ledger. */
  method ParseUpload(ledger: ImportLedger, rows: seq<CsvRow>, dateColumn: string, amountColumn: string,
                     payeeColumn: Option<string>, memoColumn: Option<string>,
                     dateFormat: string := "%d/%m/%Y", amountInverted: bool := false)
    returns (previews: seq<TransactionPreview>)
    ensures previews == Flagged(
      ParsedRows(rows, UploadMappings(dateColumn, amountColumn, payeeColumn, memoColumn), dateFormat, amountInverted),
      HashesOf(ledger.rows))
  {
    var columnMappings := UploadMappings(dateColumn, amountColumn, payeeColumn, memoColumn);
    var transactions := ParseCsv(rows, columnMappings, dateFormat, amountInverted);
    previews := FlagAgainstLedger(ledger, transactions);
  }

  /** `POST /csv/parse-with-profile`: an unknown profile is a 400; otherwise the profile's layout is used. */
  method ParseWithProfile(ledger: ImportLedger, rows: seq<CsvRow>, profileId: string)
    returns (r: Result<seq<TransactionPreview>, HttpError>)
    ensures profileId !in BankProfiles() ==> r == Err(HttpError(400, "Unknown profile: " + profileId))
    ensures profileId in BankProfiles() ==>
      var p := BankProfiles()[profileId];
      r == Ok(Flagged(ParsedRows(rows, p.columnMappings, p.dateFormat, p.amountInverted), HashesOf(ledger.rows)))
  {
    var profiles := BankProfiles();
    if profileId !in profiles {
      return Err(HttpError(400, "Unknown profile: " + profileId));
    }
    var profile := profiles[profileId];
    var transactions := ParseCsv(rows, profile.columnMappings, profile.dateFormat, profile.amountInverted);
    var flagged := FlagAgainstLedger(ledger, transactions);
    r := Ok(flagged);
  }

  /** One dict of the import request body; `is_duplicate` may be absent. */
  datatype ImportItem = ImportItem(
    date: Timestamp,
    amount: Money,
    payee: Option<string>,
    memo: Option<string>,
    isDuplicate: Option<bool>)

  /** The body of a successful import response. */
  datatype CsvImportResponse =
    | NothingImported(imported: nat, skippedDuplicates: nat, message: string)
    | Imported(imported: nat, ynabDuplicates: nat, transactionIds: seq<string>)

  /** `not skip_duplicates or not tx.get('is_duplicate', False)`, as a `csv` import request. */
  function KeepItem(skipDuplicates: bool): ImportItem -> Option<TransactionCreate> {
    (tx: ImportItem) =>
      if !skipDuplicates || tx.isDuplicate != Some(true)
      then Some(TransactionCreate(tx.date, tx.amount, tx.payee, tx.memo, "csv"))
      else None
  }

  /** The import requests the handler builds, in request order. */
  function KeptCreates(items: seq<ImportItem>, skipDuplicates: bool): seq<TransactionCreate> {
    FilterMap(items, KeepItem(skipDuplicates))
  }

  /**
   * Each kept request comes from one item, in order, carrying its fields
   * and source `csv`; an item is dropped exactly when skipping is on and it
   * is flagged.
   */
  lemma KeptCreatesOrigins(items: seq<ImportItem>, skipDuplicates: bool) returns (idx: seq<nat>)
    ensures var kept := KeptCreates(items, skipDuplicates);
      && |idx| == |kept|
      && (forall k :: 0 <= k < |idx| ==>
            && idx[k] < |items|
            && !(skipDuplicates && items[idx[k]].isDuplicate == Some(true))
            && kept[k] == TransactionCreate(items[idx[k]].date, items[idx[k]].amount, items[idx[k]].payee,
                                            items[idx[k]].memo, "csv", None, None))
      && (forall k, l :: 0 <= k < l < |idx| ==> idx[k] < idx[l])
      && (forall i :: 0 <= i < |items| && i !in idx ==> skipDuplicates && items[i].isDuplicate == Some(true))
  {
    var f := KeepItem(skipDuplicates);
    idx := FilterMapOrigins(items, f);
    var kept := FilterMap(items, f);
    forall k | 0 <= k < |idx|
      ensures !(skipDuplicates && items[idx[k]].isDuplicate == Some(true))
      ensures kept[k] == TransactionCreate(items[idx[k]].date, items[idx[k]].amount, items[idx[k]].payee,
                                           items[idx[k]].memo, "csv", None, None)
    {
      assert f(items[idx[k]]) == Some(kept[k]);
    }
  }

  /** Without skipping, every item is kept. */
  lemma KeepAllWithoutSkipping(items: seq<ImportItem>)
    ensures |KeptCreates(items, false)| == |items|
  {
    assert forall i :: 0 <= i < |items| ==> KeepItem(false)(items[i]).Some?;
  }

  /** The dicts handed to the YNAB client: date, amount, payee and memo of each request. */
  function YnabDicts(txs: seq<TransactionCreate>): (ds: seq<TxDict>)
    ensures |ds| == |txs|
  {
    seq(|txs|, i requires 0 <= i < |txs| => TxDict(DateTimeValue(txs[i].date), txs[i].amount, txs[i].payee, txs[i].memo))
  }

  /** Datetime dates always convert, so the YNAB rows exist for any requests. */
  lemma YnabDictsConvert(accountId: string, txs: seq<TransactionCreate>)
    ensures ConvertedRows(accountId, YnabDicts(txs)).Ok?
  {
    NormalizeAllOk(YnabDicts(txs));
  }

  /**
   * The row sent to YNAB and the ledger row recorded at the same position
   * come from the same request: same amount, payee, memo and calendar day,
   * and the ledger row holds the id YNAB returned for that position.
   */
  lemma SentAndRecordedAlign(rows: seq<ImportedTransaction>, txs: seq<TransactionCreate>, ynabBudgetId: string,
                             ynabAccountId: string, ids: seq<string>, now: Instant, k: nat)
    requires RecordBatch(rows, txs, Some(ynabBudgetId), Some(ynabAccountId), Some(ids), now).0.Ok?
    requires |rows| + k < |RecordBatch(rows, txs, Some(ynabBudgetId), Some(ynabAccountId), Some(ids), now).1|
    ensures var recorded := RecordBatch(rows, txs, Some(ynabBudgetId), Some(ynabAccountId), Some(ids), now).1[|rows| + k];
      var sent := ConvertedRows(ynabAccountId, YnabDicts(txs));
      && sent.Ok? && k < |sent.value|
      && sent.value[k].amount == recorded.amount && sent.value[k].payeeName == recorded.payee
      && sent.value[k].memo == recorded.memo && sent.value[k].date == IsoDate(recorded.date.date)
      && recorded.ynabTransactionId == (if ids != [] then Some(ids[k]) else None)
  {
    BatchRowContents(rows, txs, Some(ynabBudgetId), Some(ynabAccountId), Some(ids), now, k);
    YnabDictsConvert(ynabAccountId, txs);
    ConvertedRowsShape(ynabAccountId, YnabDicts(txs));
  }

  /**
   * `POST /csv/import`. An empty body is a 400; if the filter keeps nothing
   * the response reports every item as skipped and YNAB is not called.
   * Otherwise the kept requests are sent to YNAB once (`sent`), a YNAB
   * failure escapes the handler as a 500 with nothing recorded, and the batch is then
   * recorded with the returned ids; a fingerprint clash in that commit is a
   * 500 after YNAB has already created the transactions.
   */
  method ImportCsvTransactions(ledger: ImportLedger, items: seq<ImportItem>, ynabBudgetId: string,
                               ynabAccountId: string, skipDuplicates: bool,
                               response: Result<CreateResponse, string>, now: Instant)
    returns (r: Result<CsvImportResponse, HttpError>, sent: Option<seq<YnabTransaction>>)
    requires ledger.Valid()
    modifies ledger
    ensures ledger.Valid()
    ensures items == [] ==>
      r == Err(HttpError(400, "No transactions to import")) && sent.None? && ledger.rows == old(ledger.rows)
    ensures items != [] && KeptCreates(items, skipDuplicates) == [] ==>
      && r == Ok(NothingImported(0, |items|, "All transactions were duplicates"))
      && sent.None? && ledger.rows == old(ledger.rows)
    ensures items != [] && KeptCreates(items, skipDuplicates) != [] ==>
      var kept := KeptCreates(items, skipDuplicates);
      && ConvertedRows(ynabAccountId, YnabDicts(kept)).Ok?
      && sent == Some(ConvertedRows(ynabAccountId, YnabDicts(kept)).value)
      && (response.Err? ==> r == Err(InternalServerError) && ledger.rows == old(ledger.rows))
      && (response.Ok? ==>
            var (created, duplicates) := ExtractIds(response.value);
            var (recorded, rows') := RecordBatch(old(ledger.rows), kept, Some(ynabBudgetId), Some(ynabAccountId),
                                                 Some(created), now);
            && ledger.rows == rows'
            && r == (if recorded.Ok? then Ok(Imported(|created|, |duplicates|, created))
                     else Err(InternalServerError)))
  {
    if items == [] {
      return Err(HttpError(400, "No transactions to import")), None;
    }
    var txCreates := KeptCreates(items, skipDuplicates);
    if txCreates == [] {
      return Ok(NothingImported(0, |items|, "All transactions were duplicates")), None;
    }
    var txDicts := YnabDicts(txCreates);
    YnabDictsConvert(ynabAccountId, txCreates);
    var result;
    result, sent := ImportTransactions(ynabAccountId, txDicts, response);
    if result.Err? {
      return Err(InternalServerError), sent;
    }
    var recorded := ledger.RecordImportsBatch(
      txCreates, Some(ynabBudgetId), Some(ynabAccountId), now, Some(result.value.transactionIds));
    if recorded.Err? {
      return Err(InternalServerError), sent;
    }
    r := Ok(Imported(|result.value.transactionIds|, |result.value.duplicateImportIds|, result.value.transactionIds));
  }
}
