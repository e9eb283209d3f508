/**
 * The database rows (`imported_transactions`, `mapping_profiles`,
 * `akahu_accounts`, `sync_logs`) with their column defaults and
 * nullability, and the in-memory store holding the account links and the
 * sync history.
 */
module Models {
  import opened Wrappers
  import opened Calendar
  import opened Fingerprint
  import opened Schemas

  /** `last_sync_status` / `SyncLog.status`: 'running', 'success' or 'failed'. */
  datatype RunStatus = Running | Success | Failed

  /** `SyncLog.trigger`: 'manual' or 'scheduled'. */
  datatype Trigger = ManualTrigger | ScheduledTrigger

  /**
   * One row of the deduplication ledger. Date, amount, hash and source are
   * non-null; everything else may be NULL.
   */
  datatype ImportedTransaction = ImportedTransaction(
    id: nat,
    transactionHash: string,
    date: Timestamp,
    amount: Money,
    payee: Option<string>,
    memo: Option<string>,
    source: string,
    sourceAccount: Option<string>,
    sourceTransactionId: Option<string>,
    ynabBudgetId: Option<string>,
    ynabAccountId: Option<string>,
    ynabTransactionId: Option<string>,
    importedAt: Instant)

  /** A saved CSV mapping profile. */
  datatype MappingProfile = MappingProfile(id: nat, fields: MappingProfileCreate, isDefault: bool)

  /** The link between an Akahu account and a YNAB account, with its schedule. */
  datatype AkahuAccount = AkahuAccount(
    akahuAccountId: string,
    accountName: Option<string>,
    accountType: Option<string>,
    institution: Option<string>,
    ynabBudgetId: Option<string>,
    ynabAccountId: Option<string>,
    autoSync: bool,
    lastSyncedAt: Option<Instant>,
    scheduleEnabled: bool,
    scheduleIntervalHours: int,
    scheduleDaysToSync: int,
    nextSyncAt: Option<Instant>,
    lastSyncStatus: Option<RunStatus>,
    lastSyncMessage: Option<string>,
    lastSyncImported: int,
    createdAt: Instant,
    updatedAt: Instant)

  /** A freshly inserted link: every column not given takes its default. */
  function NewAkahuAccount(
    akahuAccountId: string, accountName: Option<string>, accountType: Option<string>,
    institution: Option<string>, ynabBudgetId: Option<string>, ynabAccountId: Option<string>,
    autoSync: bool, now: Instant): (a: AkahuAccount)
    ensures a.akahuAccountId == akahuAccountId && a.ynabBudgetId == ynabBudgetId
    ensures a.ynabAccountId == ynabAccountId && a.autoSync == autoSync
    ensures !a.scheduleEnabled && a.scheduleIntervalHours == 6 && a.scheduleDaysToSync == 7
    ensures a.nextSyncAt.None? && a.lastSyncedAt.None? && a.lastSyncStatus.None?
    ensures a.lastSyncMessage.None? && a.lastSyncImported == 0
  {
    AkahuAccount(
      akahuAccountId, accountName, accountType, institution, ynabBudgetId, ynabAccountId, autoSync,
      None, false, 6, 7, None, None, None, 0, now, now)
  }

  /** One sync run's history entry. */
  datatype SyncLog = SyncLog(
    id: nat,
    akahuAccountId: string,
    startedAt: Instant,
    completedAt: Option<Instant>,
    status: RunStatus,
    transactionsFound: nat,
    transactionsImported: nat,
    transactionsSkipped: nat,
    ynabDuplicates: nat,
    errorMessage: Option<string>,
    trigger: Trigger)

  /** A freshly inserted log row: counters at 0, not completed, trigger 'manual' unless given. */
  function NewSyncLog(id: nat, akahuAccountId: string, status: RunStatus, now: Instant,
                      trigger: Trigger := ManualTrigger): (l: SyncLog)
    ensures l.id == id && l.akahuAccountId == akahuAccountId && l.status == status && l.trigger == trigger
    ensures l.transactionsFound == 0 && l.transactionsImported == 0
    ensures l.transactionsSkipped == 0 && l.ynabDuplicates == 0
    ensures l.completedAt.None? && l.errorMessage.None? && l.startedAt == now
  {
    SyncLog(id, akahuAccountId, now, None, status, 0, 0, 0, 0, None, trigger)
  }

  /** The rowid SQLite gives the next inserted row: one more than the largest in use. */
  function NextId(ids: seq<nat>): (n: nat)
    ensures n >= 1 && forall i :: 0 <= i < |ids| ==> ids[i] < n
  {
    if ids == [] then 1
    else
      var m := NextId(ids[..|ids| - 1]);
      if ids[|ids| - 1] < m then m else ids[|ids| - 1] + 1
  }

  /**
   * The `akahu_accounts` and `sync_logs` tables. Links are keyed by their
   * unique `akahu_account_id`; log rows are never deleted, so the n-th row
   * has id n.
   */
  class SyncStore {
    var links: map<string, AkahuAccount>
    var logs: seq<SyncLog>

    ghost predicate Valid()
      reads this
    {
      (forall k :: k in links ==> links[k].akahuAccountId == k)
      && (forall i :: 0 <= i < |logs| ==> logs[i].id == i + 1)
    }

    constructor ()
      ensures Valid() && links == map[] && logs == []
    {
      links := map[];
      logs := [];
    }
  }
}
