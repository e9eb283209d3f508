/**
 * The scheduled sync of one linked Akahu account (`sync_akahu_account_job`)
 * as a state machine over its `SyncLog` row, its `AkahuAccount` row and the
 * ledger, together with the partition of fetched transactions it shares
 * with the manual sync, and the scheduler's job table. The Akahu fetch and
 * the YNAB create request are given as their outcomes; `now` is the UTC
 * clock and `localNow` the host's wall clock, each read once per run.
 */
module Scheduler {
  import opened Wrappers
  import opened Text
  import opened Calendar
  import opened Fingerprint
  import opened Schemas
  import opened Models
  import opened Sequences
  import opened Dedup
  import opened YnabClient
  import opened AkahuClient

  // ---------------------------------------------------------------------
  // The partition of fetched transactions
  // ---------------------------------------------------------------------

  /** `tx.merchant or tx.description` */
  function MerchantOrDescription(tx: AkahuTransaction): string {
    if Truthy(tx.merchant) then tx.merchant.value else tx.description
  }

  /** The fingerprint the sync paths look up: `generate_hash(date, amount, merchant or description)`, no memo. */
  function SyncTestHash(tx: AkahuTransaction): string {
    GenerateHash(tx.date, tx.amount, Some(MerchantOrDescription(tx)))
  }

  /** The dict a kept transaction becomes for the YNAB client. */
  function ImportDict(tx: AkahuTransaction): TxDict {
    TxDict(DateTimeValue(tx.date), tx.amount, AkahuPayee(tx.merchant, tx.description), Some(tx.description))
  }

  /** The ledger request a kept transaction becomes: source `akahu`, with the account and Akahu id. */
  function ImportCreate(tx: AkahuTransaction, akahuAccountId: string): TransactionCreate {
    TransactionCreate(tx.date, tx.amount, AkahuPayee(tx.merchant, tx.description), Some(tx.description),
                      "akahu", Some(akahuAccountId), Some(tx.id))
  }

  /** Whether the loop skips a transaction: skipping is on and its tested fingerprint is stored. */
  predicate Skips(tx: AkahuTransaction, hashes: set<string>, skipDuplicates: bool) {
    skipDuplicates && SyncTestHash(tx) in hashes
  }

  function Survivor(hashes: set<string>, skipDuplicates: bool): AkahuTransaction -> Option<AkahuTransaction> {
    tx => if Skips(tx, hashes, skipDuplicates) then None else Some(tx)
  }

  /** The transactions the loop passes on, in fetch order. */
  function ToImport(txs: seq<AkahuTransaction>, hashes: set<string>, skipDuplicates: bool): seq<AkahuTransaction> {
    FilterMap(txs, Survivor(hashes, skipDuplicates))
  }

  /** The `skipped` counter: how many transactions the loop skips. */
  function SkippedCount(txs: seq<AkahuTransaction>, hashes: set<string>, skipDuplicates: bool): nat {
    if txs == [] then 0
    else
      SkippedCount(txs[..|txs| - 1], hashes, skipDuplicates)
      + (if Skips(txs[|txs| - 1], hashes, skipDuplicates) then 1 else 0)
  }

  /** What the loop builds: the YNAB dicts, the ledger requests and the skip count. */
  datatype Partition = Partition(ynabTransactions: seq<TxDict>, txCreates: seq<TransactionCreate>, skipped: nat)

  function Partitioned(txs: seq<AkahuTransaction>, hashes: set<string>, skipDuplicates: bool,
                       akahuAccountId: string): Partition
  {
    var kept := ToImport(txs, hashes, skipDuplicates);
    Partition(Map(kept, ImportDict), Map(kept, CreateFor(akahuAccountId)), SkippedCount(txs, hashes, skipDuplicates))
  }

  function CreateFor(akahuAccountId: string): AkahuTransaction -> TransactionCreate {
    tx => ImportCreate(tx, akahuAccountId)
  }

  /** Every fetched transaction is either skipped or passed on: the two counts add up to the number fetched. */
  lemma {:induction false} PartitionCounts(txs: seq<AkahuTransaction>, hashes: set<string>, skipDuplicates: bool)
    ensures SkippedCount(txs, hashes, skipDuplicates) + |ToImport(txs, hashes, skipDuplicates)| == |txs|
  {
    if txs != [] {
      var front := txs[..|txs| - 1];
      var last := txs[|txs| - 1];
      var f := Survivor(hashes, skipDuplicates);
      assert txs == front + [last];
      PartitionCounts(front, hashes, skipDuplicates);
      FilterMapSnoc(front, last, f);
      var skips := Skips(last, hashes, skipDuplicates);
      assert f(last) == if skips then None else Some(last);
      assert SkippedCount(txs, hashes, skipDuplicates) == SkippedCount(front, hashes, skipDuplicates) + if skips then 1 else 0;
      assert |ToImport(txs, hashes, skipDuplicates)| == |ToImport(front, hashes, skipDuplicates)| + if skips then 0 else 1;
    }
  }

  /**
   * The k-th YNAB dict and the k-th ledger request both come from the same
   * fetched transaction, positions increase (fetch order is kept), nothing
   * passed on was skipped, and every transaction not passed on was skipped.
   */
  lemma PartitionOrigins(txs: seq<AkahuTransaction>, hashes: set<string>, skipDuplicates: bool,
                         akahuAccountId: string) returns (idx: seq<nat>)
    ensures var p := Partitioned(txs, hashes, skipDuplicates, akahuAccountId);
      && |idx| == |p.ynabTransactions| == |p.txCreates|
      && (forall k :: 0 <= k < |idx| ==>
            && idx[k] < |txs| && !Skips(txs[idx[k]], hashes, skipDuplicates)
            && p.ynabTransactions[k] == ImportDict(txs[idx[k]])
            && p.txCreates[k] == ImportCreate(txs[idx[k]], akahuAccountId))
      && (forall k, l :: 0 <= k < l < |idx| ==> idx[k] < idx[l])
      && (forall i :: 0 <= i < |txs| && i !in idx ==> Skips(txs[i], hashes, skipDuplicates))
  {
    var f := Survivor(hashes, skipDuplicates);
    idx := FilterMapOrigins(txs, f);
    var kept := FilterMap(txs, f);
    forall k | 0 <= k < |idx|
      ensures !Skips(txs[idx[k]], hashes, skipDuplicates) && kept[k] == txs[idx[k]]
    {
      assert f(txs[idx[k]]) == Some(kept[k]);
    }
  }

  /** Without skipping, nothing is skipped and every transaction is passed on. */
  lemma {:induction false} NoSkipKeepsAll(txs: seq<AkahuTransaction>, hashes: set<string>)
    ensures SkippedCount(txs, hashes, false) == 0
    ensures ToImport(txs, hashes, false) == txs
  {
    if txs != [] {
      var front := txs[..|txs| - 1];
      assert txs == front + [txs[|txs| - 1]];
      NoSkipKeepsAll(front, hashes);
      FilterMapSnoc(front, txs[|txs| - 1], Survivor(hashes, false));
    }
  }

  /** The dicts have datetime dates, so the YNAB rows for them always exist. */
  lemma PartitionConverts(accountId: string, txs: seq<AkahuTransaction>, hashes: set<string>,
                          skipDuplicates: bool, akahuAccountId: string)
    ensures ConvertedRows(accountId, Partitioned(txs, hashes, skipDuplicates, akahuAccountId).ynabTransactions).Ok?
  {
    NormalizeAllOk(Partitioned(txs, hashes, skipDuplicates, akahuAccountId).ynabTransactions);
  }

  /** The skip counter over one more transaction. */
  lemma SkippedSnoc(txs: seq<AkahuTransaction>, i: nat, hashes: set<string>, skipDuplicates: bool)
    requires i < |txs|
    ensures SkippedCount(txs[..i + 1], hashes, skipDuplicates)
      == SkippedCount(txs[..i], hashes, skipDuplicates) + (if Skips(txs[i], hashes, skipDuplicates) then 1 else 0)
  {
    assert txs[..i + 1][..i] == txs[..i];
  }

  /** The passed-on transactions over one more transaction. */
  lemma KeptSnoc(txs: seq<AkahuTransaction>, i: nat, hashes: set<string>, skipDuplicates: bool)
    requires i < |txs|
    ensures Skips(txs[i], hashes, skipDuplicates) ==>
      ToImport(txs[..i + 1], hashes, skipDuplicates) == ToImport(txs[..i], hashes, skipDuplicates)
    ensures !Skips(txs[i], hashes, skipDuplicates) ==>
      ToImport(txs[..i + 1], hashes, skipDuplicates) == ToImport(txs[..i], hashes, skipDuplicates) + [txs[i]]
  {
    assert txs[..i + 1] == txs[..i] + [txs[i]];
    FilterMapSnoc(txs[..i], txs[i], Survivor(hashes, skipDuplicates));
    assert ToImport(txs[..i], hashes, skipDuplicates) + [] == ToImport(txs[..i], hashes, skipDuplicates);
  }

  /**
   * The loop over the fetched transactions (the scheduled run and the manual
   * sync): skipped ones bump the counter, the others are appended to both
   * lists at the same index.
   */
  method PartitionFetched(txs: seq<AkahuTransaction>, hashes: set<string>, skipDuplicates: bool,
                          akahuAccountId: string)
    returns (ynabTransactions: seq<TxDict>, txCreates: seq<TransactionCreate>, skipped: nat)
    ensures Partition(ynabTransactions, txCreates, skipped) == Partitioned(txs, hashes, skipDuplicates, akahuAccountId)
  {
    ynabTransactions, txCreates, skipped := [], [], 0;
    ghost var kept: seq<AkahuTransaction> := [];
    for i := 0 to |txs|
      invariant kept == ToImport(txs[..i], hashes, skipDuplicates)
      invariant skipped == SkippedCount(txs[..i], hashes, skipDuplicates)
      invariant ynabTransactions == Map(kept, ImportDict)
      invariant txCreates == Map(kept, CreateFor(akahuAccountId))
    {
      SkippedSnoc(txs, i, hashes, skipDuplicates);
      KeptSnoc(txs, i, hashes, skipDuplicates);
      if skipDuplicates && SyncTestHash(txs[i]) in hashes {
        skipped := skipped + 1;
        continue;
      }
      MapSnoc(kept, txs[i], ImportDict);
      MapSnoc(kept, txs[i], CreateFor(akahuAccountId));
      ynabTransactions := ynabTransactions + [ImportDict(txs[i])];
      txCreates := txCreates + [ImportCreate(txs[i], akahuAccountId)];
      kept := kept + [txs[i]];
    }
    assert txs[..|txs|] == txs;
  }

  // ---------------------------------------------------------------------
  // The fingerprint tested before import differs from the one recorded
  // ---------------------------------------------------------------------

  /**
   * The skip test hashes `merchant or description` with no memo, while the
   * ledger row for the same transaction hashes its payee and the description
   * as memo. The two hash inputs are equal exactly when the description is
   * empty and there is no merchant; for every other transaction a later run
   * finds the recorded row only through a SHA-256 prefix collision.
   */
  lemma TestedAndRecordedInputsDiffer(tx: AkahuTransaction, akahuAccountId: string)
    ensures var recorded := ImportCreate(tx, akahuAccountId);
      HashInput(tx.date, tx.amount, Some(MerchantOrDescription(tx)), None)
        == HashInput(recorded.date, recorded.amount, recorded.payee, recorded.memo)
      <==> tx.description == "" && !Truthy(tx.merchant)
  {
    var tested := PayeeMemoText(Some(MerchantOrDescription(tx)), None);
    var stored := PayeeMemoText(AkahuPayee(tx.merchant, tx.description), Some(tx.description));
    SameHeadInputs(tx.date, tx.amount, Some(MerchantOrDescription(tx)), None,
                   AkahuPayee(tx.merchant, tx.description), Some(tx.description));
    if tx.description == "" && !Truthy(tx.merchant) {
      assert tested == stored;
    } else {
      assert |tested| != |stored|;
    }
  }

  /** The evidently intended skip test: the fingerprint the ledger row for this transaction carries. */
  function RecordedTestHash(tx: AkahuTransaction, akahuAccountId: string): (h: string)
    ensures h == GenerateHash(tx.date, tx.amount, AkahuPayee(tx.merchant, tx.description), Some(tx.description))
    ensures tx.description == "" && !Truthy(tx.merchant) ==> h == SyncTestHash(tx)
  {
    TestedAndRecordedInputsDiffer(tx, akahuAccountId);
    RowHash(ImportCreate(tx, akahuAccountId))
  }

  // ---------------------------------------------------------------------
  // The scheduled run
  // ---------------------------------------------------------------------

  /** The job's guard: the account row exists and has a YNAB account id. */
  predicate Linked(links: map<string, AkahuAccount>, akahuAccountId: string) {
    akahuAccountId in links && Truthy(links[akahuAccountId].ynabAccountId)
  }

  /** `schedule_days_to_sync or 7` */
  function LookbackDays(link: AkahuAccount): (days: int)
    ensures link.scheduleDaysToSync != 0 ==> days == link.scheduleDaysToSync
    ensures link.scheduleDaysToSync == 0 ==> days == 7
  {
    if link.scheduleDaysToSync != 0 then link.scheduleDaysToSync else 7
  }

  /** `now + timedelta(hours=schedule_interval_hours)` */
  function NextRun(link: AkahuAccount, now: Instant): Instant {
    now + Hours(link.scheduleIntervalHours)
  }

  /** The log row the run inserts and commits first. */
  function StartedLog(logId: nat, akahuAccountId: string, now: Instant): SyncLog {
    NewSyncLog(logId, akahuAccountId, Running, now, ScheduledTrigger)
  }

  /** The link as committed before the fetch: status `running` (the row's `updated_at` is refreshed on every write). */
  function StartedLink(link: AkahuAccount, now: Instant): AkahuAccount {
    link.(lastSyncStatus := Some(Running), updatedAt := now)
  }

  /** The link after a successful end: status, message, count, last sync and next run. */
  function SucceededLink(link: AkahuAccount, message: string, imported: nat, now: Instant): AkahuAccount {
    link.(lastSyncStatus := Some(Success), lastSyncMessage := Some(message), lastSyncImported := imported,
          lastSyncedAt := Some(now), nextSyncAt := Some(NextRun(link, now)), updatedAt := now)
  }

  /** The link after a failed end: status and message only. */
  function FailedLink(link: AkahuAccount, message: string, now: Instant): AkahuAccount {
    link.(lastSyncStatus := Some(Failed), lastSyncMessage := Some(message), updatedAt := now)
  }

  /** The link's message when the fetch returns nothing. */
  const NothingFoundMessage: string := "No transactions found"

  /** The link's message when every fetched transaction is already in the ledger. */
  function AllDuplicatesMessage(skipped: nat): string {
    "All " + NatToString(skipped) + " transactions were duplicates"
  }

  /** The link's message when YNAB refuses the import. */
  function YnabFailedMessage(error: string): string {
    "YNAB import failed: " + error
  }

  /** The link's message after a recorded import. */
  function ImportedMessage(created: nat): string {
    "Imported " + NatToString(created) + " transactions"
  }

  /** What the store and the ledger hold for this run once it has ended. */
  datatype RunState = RunState(log: SyncLog, link: AkahuAccount, rows: seq<ImportedTransaction>)

  /** The partition of a run's fetch against the ledger snapshot; skipping is always on. */
  function RunPartition(rows: seq<ImportedTransaction>, akahuAccountId: string, txs: seq<AkahuTransaction>): Partition {
    Partitioned(txs, HashesOf(rows), true, akahuAccountId)
  }

  /** Whether a run gets as far as recording the batch: something fetched, something kept, YNAB answered. */
  predicate ReachesBatch(rows: seq<ImportedTransaction>, akahuAccountId: string,
                         fetched: Result<seq<AkahuTransaction>, string>, response: Result<CreateResponse, string>) {
    fetched.Ok? && fetched.value != [] && RunPartition(rows, akahuAccountId, fetched.value).ynabTransactions != []
    && response.Ok?
  }

  /** The batch the run records, on the path where it gets that far. */
  function RunBatch(rows: seq<ImportedTransaction>, link: AkahuAccount, txs: seq<AkahuTransaction>,
                    response: CreateResponse, now: Instant): (Result<nat, DbError>, seq<ImportedTransaction>)
  {
    RecordBatch(rows, RunPartition(rows, link.akahuAccountId, txs).txCreates, link.ynabBudgetId, link.ynabAccountId,
                Some(ExtractIds(response).0), now)
  }

  /** The partition the run computes from a successful fetch (an empty one when the fetch failed). */
  function FetchedPartition(rows: seq<ImportedTransaction>, akahuAccountId: string,
                            fetched: Result<seq<AkahuTransaction>, string>): Partition
  {
    RunPartition(rows, akahuAccountId, if fetched.Ok? then fetched.value else [])
  }

  /** The batch outcome for the ledger requests `txCreates` once YNAB has answered (the ledger as it was on an error). */
  function SentBatch(rows: seq<ImportedTransaction>, txCreates: seq<TransactionCreate>, link: AkahuAccount,
                     response: Result<CreateResponse, string>, now: Instant): (Result<nat, DbError>, seq<ImportedTransaction>)
  {
    if response.Ok? then
      RecordBatch(rows, txCreates, link.ynabBudgetId, link.ynabAccountId, Some(ExtractIds(response.value).0), now)
    else (Ok(0), rows)
  }

  /** The batch outcome when the fetch and YNAB both succeed (the ledger as it was otherwise). */
  function ReachedBatch(rows: seq<ImportedTransaction>, link: AkahuAccount,
                        fetched: Result<seq<AkahuTransaction>, string>, response: Result<CreateResponse, string>,
                        now: Instant): (Result<nat, DbError>, seq<ImportedTransaction>)
  {
    if fetched.Ok? && response.Ok? then RunBatch(rows, link, fetched.value, response.value, now) else (Ok(0), rows)
  }

  /**
   * The end state of a run from its committed start (`log0` and `link1`,
   * both 'running'), given what each step returned: the fetch, the
   * partition `p` of the fetched transactions, YNAB's response and the
   * batch outcome. On the catch-all path (the batch's commit fails) the
   * rollback discards every pending change, so the log keeps its start
   * state; the handler's own commit then fails as well unless
   * `catchAllCommitSucceeds`.
   */
  function RunFrom(rows: seq<ImportedTransaction>, log0: SyncLog, link1: AkahuAccount,
                   fetched: Result<seq<AkahuTransaction>, string>, p: Partition,
                   response: Result<CreateResponse, string>, batch: (Result<nat, DbError>, seq<ImportedTransaction>),
                   now: Instant, catchAllCommitSucceeds: bool): (s: RunState)
    ensures s.log.id == log0.id && s.link.akahuAccountId == link1.akahuAccountId
  {
    match fetched
    case Err(e) =>
      RunState(log0.(status := Failed, errorMessage := Some(e), completedAt := Some(now)), FailedLink(link1, e, now), rows)
    case Ok(txs) =>
      if txs == [] then
        RunState(log0.(transactionsFound := 0, status := Success, completedAt := Some(now)),
                 SucceededLink(link1, NothingFoundMessage, 0, now), rows)
      else
        var log2 := log0.(transactionsFound := |txs|, transactionsSkipped := p.skipped);
        if p.ynabTransactions == [] then
          RunState(log2.(status := Success, completedAt := Some(now), transactionsImported := 0),
                   SucceededLink(link1, AllDuplicatesMessage(p.skipped), 0, now), rows)
        else
          ImportEnd(rows, log0, log2, link1, response, batch, now, catchAllCommitSucceeds)
  }

  /**
   * The end of a run that has something to send: YNAB's failure, the
   * catch-all path, or the recorded batch. `log2` is the log with its counts
   * set, `log0` the log as committed at the start.
   */
  function ImportEnd(rows: seq<ImportedTransaction>, log0: SyncLog, log2: SyncLog, link1: AkahuAccount,
                     response: Result<CreateResponse, string>, batch: (Result<nat, DbError>, seq<ImportedTransaction>),
                     now: Instant, catchAllCommitSucceeds: bool): RunState
  {
    match response
    case Err(e) =>
      RunState(log2.(status := Failed, errorMessage := Some(e), completedAt := Some(now)),
               FailedLink(link1, YnabFailedMessage(e), now), rows)
    case Ok(resp) =>
      if batch.0.Err? then
        RunState(log0, if catchAllCommitSucceeds then FailedLink(link1, IntegrityErrorText, now) else link1, rows)
      else
        var (created, duplicates) := ExtractIds(resp);
        RunState(log2.(status := Success, completedAt := Some(now), transactionsImported := |created|,
                       ynabDuplicates := |duplicates|),
                 SucceededLink(link1, ImportedMessage(|created|), |created|, now), batch.1)
  }

  /** The end state of a run on a linked account, from the rows as they were when it was triggered. */
  function SyncRun(rows: seq<ImportedTransaction>, link: AkahuAccount, logId: nat,
                   fetched: Result<seq<AkahuTransaction>, string>, response: Result<CreateResponse, string>,
                   now: Instant, catchAllCommitSucceeds: bool): RunState
  {
    RunFrom(rows, StartedLog(logId, link.akahuAccountId, now), StartedLink(link, now), fetched,
            FetchedPartition(rows, link.akahuAccountId, fetched), response, ReachedBatch(rows, link, fetched, response, now),
            now, catchAllCommitSucceeds)
  }

  /** The rows the run sends to YNAB, if it gets that far. */
  function RunSends(rows: seq<ImportedTransaction>, link: AkahuAccount,
                    fetched: Result<seq<AkahuTransaction>, string>): Option<seq<YnabTransaction>>
  {
    if fetched.Ok? && fetched.value != [] && RunPartition(rows, link.akahuAccountId, fetched.value).ynabTransactions != [] then
      var sent := ConvertedRows(OrEmpty(link.ynabAccountId), RunPartition(rows, link.akahuAccountId, fetched.value).ynabTransactions);
      if sent.Ok? then Some(sent.value) else None
    else None
  }

  /** A run rewrites only the log's outcome fields: it keeps its account, trigger and start time. */
  lemma RunKeepsLogOrigin(rows: seq<ImportedTransaction>, log0: SyncLog, link1: AkahuAccount,
                          fetched: Result<seq<AkahuTransaction>, string>, p: Partition,
                          response: Result<CreateResponse, string>, batch: (Result<nat, DbError>, seq<ImportedTransaction>),
                          now: Instant, catchAllCommitSucceeds: bool)
    ensures var s := RunFrom(rows, log0, link1, fetched, p, response, batch, now, catchAllCommitSucceeds);
      && s.log.akahuAccountId == log0.akahuAccountId && s.log.trigger == log0.trigger
      && s.log.startedAt == log0.startedAt
  {
  }

  /** A run rewrites only the link's status fields: it keeps its YNAB target and its schedule settings. */
  lemma RunKeepsLinkSettings(rows: seq<ImportedTransaction>, log0: SyncLog, link1: AkahuAccount,
                             fetched: Result<seq<AkahuTransaction>, string>, p: Partition,
                             response: Result<CreateResponse, string>, batch: (Result<nat, DbError>, seq<ImportedTransaction>),
                             now: Instant, catchAllCommitSucceeds: bool)
    ensures var s := RunFrom(rows, log0, link1, fetched, p, response, batch, now, catchAllCommitSucceeds);
      && s.link.ynabBudgetId == link1.ynabBudgetId && s.link.ynabAccountId == link1.ynabAccountId
      && s.link.scheduleEnabled == link1.scheduleEnabled
      && s.link.scheduleIntervalHours == link1.scheduleIntervalHours
      && s.link.scheduleDaysToSync == link1.scheduleDaysToSync
  {
    if fetched.Ok? && fetched.value != [] && p.ynabTransactions != [] {
      var log2 := log0.(transactionsFound := |fetched.value|, transactionsSkipped := p.skipped);
      var s := ImportEnd(rows, log0, log2, link1, response, batch, now, catchAllCommitSucceeds);
      assert s.link == link1 || s.link.(lastSyncStatus := link1.lastSyncStatus, lastSyncMessage := link1.lastSyncMessage,
        lastSyncImported := link1.lastSyncImported, lastSyncedAt := link1.lastSyncedAt, nextSyncAt := link1.nextSyncAt,
        updatedAt := link1.updatedAt) == link1;
    }
  }

  /** From a 'running' start, a successful end completes the log, records the count and moves the schedule. */
  lemma RunFromSuccess(rows: seq<ImportedTransaction>, log0: SyncLog, link1: AkahuAccount,
                       fetched: Result<seq<AkahuTransaction>, string>, p: Partition,
                       response: Result<CreateResponse, string>, batch: (Result<nat, DbError>, seq<ImportedTransaction>),
                       now: Instant, catchAllCommitSucceeds: bool)
    requires log0.transactionsImported == 0 && link1.lastSyncStatus == Some(Running)
    ensures var s := RunFrom(rows, log0, link1, fetched, p, response, batch, now, catchAllCommitSucceeds);
      s.link.lastSyncStatus == Some(Success) ==>
        && s.log.status == Success && s.log.completedAt == Some(now)
        && s.link.lastSyncedAt == Some(now) && s.link.nextSyncAt == Some(NextRun(link1, now))
        && s.link.lastSyncImported == s.log.transactionsImported
  {
  }

  /** From a 'running' start, any end but success leaves the schedule, the last count and the ledger. */
  lemma RunFromOtherEnd(rows: seq<ImportedTransaction>, log0: SyncLog, link1: AkahuAccount,
                        fetched: Result<seq<AkahuTransaction>, string>, p: Partition,
                        response: Result<CreateResponse, string>, batch: (Result<nat, DbError>, seq<ImportedTransaction>),
                        now: Instant, catchAllCommitSucceeds: bool)
    requires link1.lastSyncStatus == Some(Running)
    ensures var s := RunFrom(rows, log0, link1, fetched, p, response, batch, now, catchAllCommitSucceeds);
      s.link.lastSyncStatus != Some(Success) ==>
        && s.link.lastSyncedAt == link1.lastSyncedAt && s.link.nextSyncAt == link1.nextSyncAt
        && s.link.lastSyncImported == link1.lastSyncImported && s.rows == rows
  {
  }

  /** From a 'running' start, a failed log goes with a failed link, and the log stays 'running' only on the catch-all path. */
  lemma RunFromLogStatus(rows: seq<ImportedTransaction>, log0: SyncLog, link1: AkahuAccount,
                         fetched: Result<seq<AkahuTransaction>, string>, p: Partition,
                         response: Result<CreateResponse, string>, batch: (Result<nat, DbError>, seq<ImportedTransaction>),
                         now: Instant, catchAllCommitSucceeds: bool)
    requires log0.status == Running
    ensures var s := RunFrom(rows, log0, link1, fetched, p, response, batch, now, catchAllCommitSucceeds);
      && (s.log.status == Failed ==>
            s.link.lastSyncStatus == Some(Failed) && s.log.errorMessage.Some? && s.log.completedAt == Some(now))
      && (s.log.status == Running <==>
            fetched.Ok? && fetched.value != [] && p.ynabTransactions != [] && response.Ok? && batch.0.Err?)
  {
  }

  /**
   * A run that ends in success is completed, records the imported count on
   * the link and moves `last_synced_at` to now and `next_sync_at` one
   * interval ahead.
   */
  lemma SuccessMovesSchedule(rows: seq<ImportedTransaction>, link: AkahuAccount, logId: nat,
                             fetched: Result<seq<AkahuTransaction>, string>,
                             response: Result<CreateResponse, string>, now: Instant, catchAllCommitSucceeds: bool)
    ensures var s := SyncRun(rows, link, logId, fetched, response, now, catchAllCommitSucceeds);
      s.link.lastSyncStatus == Some(Success) ==>
        && s.log.status == Success && s.log.completedAt == Some(now)
        && s.link.lastSyncedAt == Some(now) && s.link.nextSyncAt == Some(NextRun(link, now))
        && s.link.lastSyncImported == s.log.transactionsImported
  {
    var link1 := StartedLink(link, now);
    assert link1.scheduleIntervalHours == link.scheduleIntervalHours && link1.lastSyncStatus == Some(Running);
    assert NextRun(link1, now) == NextRun(link, now);
    RunFromSuccess(rows, StartedLog(logId, link.akahuAccountId, now), link1, fetched,
                   FetchedPartition(rows, link.akahuAccountId, fetched), response,
                   ReachedBatch(rows, link, fetched, response, now), now, catchAllCommitSucceeds);
  }

  /**
   * Every end but success (a failure, or the catch-all path) leaves
   * `last_synced_at`, `next_sync_at`, the last imported count and the
   * ledger as they were.
   */
  lemma OtherEndKeepsSchedule(rows: seq<ImportedTransaction>, link: AkahuAccount, logId: nat,
                              fetched: Result<seq<AkahuTransaction>, string>,
                              response: Result<CreateResponse, string>, now: Instant, catchAllCommitSucceeds: bool)
    ensures var s := SyncRun(rows, link, logId, fetched, response, now, catchAllCommitSucceeds);
      s.link.lastSyncStatus != Some(Success) ==>
        && s.link.lastSyncedAt == link.lastSyncedAt && s.link.nextSyncAt == link.nextSyncAt
        && s.link.lastSyncImported == link.lastSyncImported && s.rows == rows
  {
    var link1 := StartedLink(link, now);
    assert link1.lastSyncedAt == link.lastSyncedAt && link1.nextSyncAt == link.nextSyncAt;
    assert link1.lastSyncImported == link.lastSyncImported && link1.lastSyncStatus == Some(Running);
    RunFromOtherEnd(rows, StartedLog(logId, link.akahuAccountId, now), link1, fetched,
                    FetchedPartition(rows, link.akahuAccountId, fetched), response,
                    ReachedBatch(rows, link, fetched, response, now), now, catchAllCommitSucceeds);
  }

  /**
   * A failed log goes with a failed link and an error message, and the log
   * is left 'running' exactly when the run reaches the batch and the
   * batch's commit fails.
   */
  lemma RunLogStatus(rows: seq<ImportedTransaction>, link: AkahuAccount, logId: nat,
                     fetched: Result<seq<AkahuTransaction>, string>,
                     response: Result<CreateResponse, string>, now: Instant, catchAllCommitSucceeds: bool)
    ensures var s := SyncRun(rows, link, logId, fetched, response, now, catchAllCommitSucceeds);
      && (s.log.status == Failed ==>
            s.link.lastSyncStatus == Some(Failed) && s.log.errorMessage.Some? && s.log.completedAt == Some(now))
      && (s.log.status == Running <==> ReachesBatch(rows, link.akahuAccountId, fetched, response)
                                       && RunBatch(rows, link, fetched.value, response.value, now).0.Err?)
  {
    var log0 := StartedLog(logId, link.akahuAccountId, now);
    assert log0.status == Running;
    RunFromLogStatus(rows, log0, StartedLink(link, now), fetched, FetchedPartition(rows, link.akahuAccountId, fetched),
                     response, ReachedBatch(rows, link, fetched, response, now), now, catchAllCommitSucceeds);
  }

  /**
   * A failed fetch marks both rows failed with the error text and the log
   * completed; nothing else moves.
   */
  lemma FetchFailureRun(rows: seq<ImportedTransaction>, link: AkahuAccount, logId: nat, error: string,
                        response: Result<CreateResponse, string>, now: Instant, catchAllCommitSucceeds: bool)
    ensures var s := SyncRun(rows, link, logId, Err(error), response, now, catchAllCommitSucceeds);
      && s.log == StartedLog(logId, link.akahuAccountId, now).(status := Failed, errorMessage := Some(error),
                                                               completedAt := Some(now))
      && s.link == link.(lastSyncStatus := Some(Failed), lastSyncMessage := Some(error), updatedAt := now)
      && s.rows == rows
  {
  }

  /**
   * Every run that gets past the fetch and commits its log reports how many
   * transactions came back, and its skipped count plus the number passed on
   * is that number.
   */
  lemma RunCountsAddUp(rows: seq<ImportedTransaction>, link: AkahuAccount, logId: nat,
                       fetched: Result<seq<AkahuTransaction>, string>,
                       response: Result<CreateResponse, string>, now: Instant, catchAllCommitSucceeds: bool)
    requires fetched.Ok?
    ensures var s := SyncRun(rows, link, logId, fetched, response, now, catchAllCommitSucceeds);
      s.log.status != Running ==>
        && s.log.transactionsFound == |fetched.value|
        && s.log.transactionsSkipped + |RunPartition(rows, link.akahuAccountId, fetched.value).txCreates| == |fetched.value|
  {
    var log0 := StartedLog(logId, link.akahuAccountId, now);
    var p := FetchedPartition(rows, link.akahuAccountId, fetched);
    assert log0.status == Running && log0.transactionsSkipped == 0;
    RunFromCounts(rows, log0, StartedLink(link, now), fetched.value, p, response,
                  ReachedBatch(rows, link, fetched, response, now), now, catchAllCommitSucceeds);
    PartitionCounts(fetched.value, HashesOf(rows), true);
    if fetched.value == [] {
      assert SkippedCount(fetched.value, HashesOf(rows), true) == 0;
    }
  }

  /** The counts a run from a 'running' start with no skips yet writes to its log. */
  lemma RunFromCounts(rows: seq<ImportedTransaction>, log0: SyncLog, link1: AkahuAccount, txs: seq<AkahuTransaction>,
                      p: Partition, response: Result<CreateResponse, string>,
                      batch: (Result<nat, DbError>, seq<ImportedTransaction>), now: Instant, catchAllCommitSucceeds: bool)
    requires log0.status == Running && log0.transactionsSkipped == 0
    ensures var s := RunFrom(rows, log0, link1, Ok(txs), p, response, batch, now, catchAllCommitSucceeds);
      s.log.status != Running ==>
        && s.log.transactionsFound == |txs|
        && s.log.transactionsSkipped == (if txs == [] then 0 else p.skipped)
  {
  }

  /** Nothing fetched: a success with nothing imported, the schedule moved on, and the ledger untouched. */
  lemma NothingFetchedRun(rows: seq<ImportedTransaction>, link: AkahuAccount, logId: nat,
                          response: Result<CreateResponse, string>, now: Instant, catchAllCommitSucceeds: bool)
    ensures var s := SyncRun(rows, link, logId, Ok([]), response, now, catchAllCommitSucceeds);
      && s.log.status == Success && s.log.transactionsImported == 0 && s.log.transactionsFound == 0
      && s.link.lastSyncImported == 0 && s.link.nextSyncAt == Some(NextRun(link, now)) && s.rows == rows
      && s.link.lastSyncMessage == Some(NothingFoundMessage)
  {
    var link1 := StartedLink(link, now);
    var s := SyncRun(rows, link, logId, Ok([]), response, now, catchAllCommitSucceeds);
    assert s.link == SucceededLink(link1, NothingFoundMessage, 0, now);
    assert NextRun(link1, now) == NextRun(link, now);
  }

  /**
   * Everything fetched already in the ledger: a success with nothing
   * imported whose skip count and message give the number fetched; the
   * schedule moves on and the ledger is untouched.
   */
  lemma AllSkippedRun(rows: seq<ImportedTransaction>, link: AkahuAccount, logId: nat,
                      txs: seq<AkahuTransaction>, response: Result<CreateResponse, string>,
                      now: Instant, catchAllCommitSucceeds: bool)
    requires txs != [] && RunPartition(rows, link.akahuAccountId, txs).txCreates == []
    ensures var s := SyncRun(rows, link, logId, Ok(txs), response, now, catchAllCommitSucceeds);
      && s.log.status == Success && s.log.transactionsImported == 0
      && s.log.transactionsFound == |txs| && s.log.transactionsSkipped == |txs|
      && s.link.lastSyncImported == 0 && s.link.nextSyncAt == Some(NextRun(link, now)) && s.rows == rows
      && s.link.lastSyncMessage == Some(AllDuplicatesMessage(|txs|))
  {
    var link1 := StartedLink(link, now);
    var p := RunPartition(rows, link.akahuAccountId, txs);
    PartitionCounts(txs, HashesOf(rows), true);
    assert |p.ynabTransactions| == 0 && p.skipped == |txs|;
    assert NextRun(link1, now) == NextRun(link, now);
  }

  /**
   * A YNAB failure after a non-empty partition marks the log failed with
   * the error, prefixes the link's message, and records nothing.
   */
  lemma YnabFailureRun(rows: seq<ImportedTransaction>, link: AkahuAccount, logId: nat,
                       txs: seq<AkahuTransaction>, error: string, now: Instant, catchAllCommitSucceeds: bool)
    requires RunPartition(rows, link.akahuAccountId, txs).txCreates != []
    ensures var s := SyncRun(rows, link, logId, Ok(txs), Err(error), now, catchAllCommitSucceeds);
      && s.log.status == Failed && s.log.errorMessage == Some(error)
      && s.link.lastSyncMessage == Some(YnabFailedMessage(error))
      && s.link.nextSyncAt == link.nextSyncAt && s.rows == rows
  {
    assert txs != [];
  }

  /**
   * When YNAB answers, the batch is recorded; if its commit succeeds the log
   * and link report the created and duplicate counts, and if it fails the
   * log row stays as it was committed at the start ('running', not
   * completed) and the ledger is unchanged.
   */
  lemma BatchRun(rows: seq<ImportedTransaction>, link: AkahuAccount, logId: nat,
                 txs: seq<AkahuTransaction>, response: CreateResponse, now: Instant, catchAllCommitSucceeds: bool)
    requires ReachesBatch(rows, link.akahuAccountId, Ok(txs), Ok(response))
    ensures var s := SyncRun(rows, link, logId, Ok(txs), Ok(response), now, catchAllCommitSucceeds);
      var (recorded, rows') := RunBatch(rows, link, txs, response, now);
      var (created, duplicates) := ExtractIds(response);
      && (recorded.Ok? ==>
            && s.rows == rows' && s.log.status == Success
            && s.log.transactionsImported == |created| && s.log.ynabDuplicates == |duplicates|
            && s.link.lastSyncImported == |created|
            && s.link.lastSyncMessage == Some(ImportedMessage(|created|)))
      && (recorded.Err? ==>
            && s.rows == rows && s.log == StartedLog(logId, link.akahuAccountId, now)
            && s.link == (if catchAllCommitSucceeds then FailedLink(StartedLink(link, now), IntegrityErrorText, now)
                          else StartedLink(link, now)))
  {
  }

  /**
   * Two transactions of one fetch that are passed on and share date,
   * amount, merchant and description give ledger rows with the same
   * fingerprint, so the batch's commit fails and the run ends on the
   * catch-all path with its log still 'running'.
   */
  lemma TwinTransactionsAbortBatch(rows: seq<ImportedTransaction>, link: AkahuAccount, txs: seq<AkahuTransaction>,
                                   response: CreateResponse, now: Instant, k: nat, l: nat)
    requires UniqueHashes(rows)
    requires var kept := ToImport(txs, HashesOf(rows), true);
      && k < l < |kept|
      && kept[k].date == kept[l].date && kept[k].amount == kept[l].amount
      && kept[k].merchant == kept[l].merchant && kept[k].description == kept[l].description
    requires var ids := ExtractIds(response).0; ids == [] || l < |ids|
    ensures RunBatch(rows, link, txs, response, now).0.Err?
  {
    var kept := ToImport(txs, HashesOf(rows), true);
    var creates := RunPartition(rows, link.akahuAccountId, txs).txCreates;
    assert creates[k] == ImportCreate(kept[k], link.akahuAccountId);
    assert creates[l] == ImportCreate(kept[l], link.akahuAccountId);
    assert RowHash(creates[k]) == RowHash(creates[l]);
    var ids := Some(ExtractIds(response).0);
    assert l < Min(|creates|, |PaddedIds(|creates|, ids)|);
    BatchFailsOnlyOnClash(rows, creates, link.ynabBudgetId, link.ynabAccountId, ids, now);
  }

  /**
   * With the fingerprint the ledger stores as the skip test, every
   * transaction a successful run recorded is found by the next run's test.
   */
  lemma RecordedTransactionsFoundAgain(rows: seq<ImportedTransaction>, link: AkahuAccount, logId: nat,
                                       txs: seq<AkahuTransaction>, response: CreateResponse, now: Instant,
                                       catchAllCommitSucceeds: bool, k: nat)
    requires ReachesBatch(rows, link.akahuAccountId, Ok(txs), Ok(response))
    requires RunBatch(rows, link, txs, response, now).0.Ok?
    requires |rows| + k < |RunBatch(rows, link, txs, response, now).1|
    ensures var kept := ToImport(txs, HashesOf(rows), true);
      var s := SyncRun(rows, link, logId, Ok(txs), Ok(response), now, catchAllCommitSucceeds);
      k < |kept| && RecordedTestHash(kept[k], link.akahuAccountId) in HashesOf(s.rows)
  {
    var kept := ToImport(txs, HashesOf(rows), true);
    var creates := RunPartition(rows, link.akahuAccountId, txs).txCreates;
    var ids := Some(ExtractIds(response).0);
    BatchRun(rows, link, logId, txs, response, now, catchAllCommitSucceeds);
    BatchRowContents(rows, creates, link.ynabBudgetId, link.ynabAccountId, ids, now, k);
    assert creates[k] == ImportCreate(kept[k], link.akahuAccountId);
    var rows' := RunBatch(rows, link, txs, response, now).1;
    assert rows'[|rows| + k].transactionHash in HashesOf(rows');
  }

  /** The start date the run asks Akahu for: the host's clock minus the lookback. */
  function LookbackStart(link: AkahuAccount, localNow: Instant): Instant {
    localNow - Days(LookbackDays(link))
  }

  /** A session commit: writes the link row and the run's log row. */
  method Commit(store: SyncStore, link: AkahuAccount, logIndex: nat, log: SyncLog)
    requires store.Valid() && logIndex < |store.logs| && log.id == store.logs[logIndex].id
    modifies store
    ensures store.Valid()
    ensures store.links == old(store.links)[link.akahuAccountId := link]
    ensures store.logs == old(store.logs)[logIndex := log]
  {
    store.links := store.links[link.akahuAccountId := link];
    store.logs := store.logs[logIndex := log];
  }

  /**
   * Everything after the start commits: the fetch outcome, then (when
   * something came back) the partition, the YNAB import and the batch, each
   * exit path with its own commit.
   */
  method FinishRun(store: SyncStore, ledger: ImportLedger, link: AkahuAccount, logIndex: nat, syncLog: SyncLog,
                   fetched: Result<seq<AkahuTransaction>, string>, response: Result<CreateResponse, string>,
                   now: Instant, catchAllCommitSucceeds: bool)
    returns (sent: Option<seq<YnabTransaction>>)
    requires store.Valid() && ledger.Valid() && Truthy(link.ynabAccountId)
    requires logIndex < |store.logs| && store.logs[logIndex] == syncLog
    modifies store, ledger
    ensures store.Valid() && ledger.Valid()
    ensures var s := RunFrom(old(ledger.rows), syncLog, link, fetched,
                             FetchedPartition(old(ledger.rows), link.akahuAccountId, fetched), response,
                             ReachedBatch(old(ledger.rows), link, fetched, response, now), now, catchAllCommitSucceeds);
      && store.links == old(store.links)[link.akahuAccountId := s.link]
      && store.logs == old(store.logs)[logIndex := s.log]
      && ledger.rows == s.rows
    ensures sent == RunSends(old(ledger.rows), link, fetched)
  {
    if fetched.Err? {
      Commit(store, FailedLink(link, fetched.error, now), logIndex,
             syncLog.(status := Failed, errorMessage := Some(fetched.error), completedAt := Some(now)));
      return None;
    }
    if fetched.value == [] {
      Commit(store, SucceededLink(link, NothingFoundMessage, 0, now), logIndex,
             syncLog.(transactionsFound := 0, status := Success, completedAt := Some(now)));
      return None;
    }
    sent := ImportFetched(store, ledger, link, logIndex, syncLog, fetched.value, response, now, catchAllCommitSucceeds);
  }

  /** A run past a non-empty fetch: count, partition against the ledger, and stop if nothing is left to send. */
  method ImportFetched(store: SyncStore, ledger: ImportLedger, link: AkahuAccount, logIndex: nat, syncLog: SyncLog,
                       transactions: seq<AkahuTransaction>, response: Result<CreateResponse, string>,
                       now: Instant, catchAllCommitSucceeds: bool)
    returns (sent: Option<seq<YnabTransaction>>)
    requires store.Valid() && ledger.Valid() && Truthy(link.ynabAccountId) && transactions != []
    requires logIndex < |store.logs| && store.logs[logIndex] == syncLog
    modifies store, ledger
    ensures store.Valid() && ledger.Valid()
    ensures var s := RunFrom(old(ledger.rows), syncLog, link, Ok(transactions),
                             RunPartition(old(ledger.rows), link.akahuAccountId, transactions), response,
                             ReachedBatch(old(ledger.rows), link, Ok(transactions), response, now), now,
                             catchAllCommitSucceeds);
      && store.links == old(store.links)[link.akahuAccountId := s.link]
      && store.logs == old(store.logs)[logIndex := s.log]
      && ledger.rows == s.rows
    ensures sent == RunSends(old(ledger.rows), link, Ok(transactions))
  {
    var existingHashes := ledger.ExistingHashes();
    var ynabTransactions, txCreates, skipped := PartitionFetched(transactions, existingHashes, true, link.akahuAccountId);
    var counted := syncLog.(transactionsFound := |transactions|, transactionsSkipped := skipped);

    if ynabTransactions == [] {
      Commit(store, SucceededLink(link, AllDuplicatesMessage(skipped), 0, now), logIndex,
             counted.(status := Success, completedAt := Some(now), transactionsImported := 0));
      return None;
    }

    PartitionConverts(link.ynabAccountId.value, transactions, existingHashes, true, link.akahuAccountId);
    assert ReachedBatch(ledger.rows, link, Ok(transactions), response, now)
      == SentBatch(ledger.rows, txCreates, link, response, now);
    sent := ImportAndRecord(store, ledger, link, logIndex, syncLog, counted, ynabTransactions, txCreates,
                            response, now, catchAllCommitSucceeds);
  }

  /** The last steps of a run with something to send: the YNAB import, then the batch and the final commit. */
  method ImportAndRecord(store: SyncStore, ledger: ImportLedger, link: AkahuAccount, logIndex: nat,
                         syncLog0: SyncLog, syncLog: SyncLog,
                         ynabTransactions: seq<TxDict>, txCreates: seq<TransactionCreate>,
                         response: Result<CreateResponse, string>, now: Instant, catchAllCommitSucceeds: bool)
    returns (sent: Option<seq<YnabTransaction>>)
    requires store.Valid() && ledger.Valid() && Truthy(link.ynabAccountId)
    requires logIndex < |store.logs| && store.logs[logIndex] == syncLog0 && syncLog.id == syncLog0.id
    requires ynabTransactions != [] && ConvertedRows(link.ynabAccountId.value, ynabTransactions).Ok?
    modifies store, ledger
    ensures store.Valid() && ledger.Valid()
    ensures var s := ImportEnd(old(ledger.rows), syncLog0, syncLog, link, response,
                               SentBatch(old(ledger.rows), txCreates, link, response, now), now,
                               catchAllCommitSucceeds);
      && store.links == old(store.links)[link.akahuAccountId := s.link]
      && store.logs == old(store.logs)[logIndex := s.log]
      && ledger.rows == s.rows
    ensures sent == Some(ConvertedRows(link.ynabAccountId.value, ynabTransactions).value)
  {
    var syncLog := syncLog;
    var link := link;
    var imported;
    imported, sent := ImportTransactions(link.ynabAccountId.value, ynabTransactions, response);
    if imported.Err? {
      syncLog := syncLog.(status := Failed, errorMessage := Some(imported.error), completedAt := Some(now));
      link := FailedLink(link, YnabFailedMessage(imported.error), now);
      Commit(store, link, logIndex, syncLog);
      return;
    }

    assert response.Ok? && imported.value == YnabImportResult(ExtractIds(response.value).0, ExtractIds(response.value).1);
    RecordAndCommit(store, ledger, link, logIndex, syncLog0, syncLog, txCreates, imported.value, now,
                    catchAllCommitSucceeds);
  }

  /**
   * The batch with YNAB's ids, then the final commit. When the batch's
   * commit fails, the rollback discards the pending log and link changes;
   * the handler's own commit goes through only if the session allows it.
   */
  method RecordAndCommit(store: SyncStore, ledger: ImportLedger, link: AkahuAccount, logIndex: nat,
                         syncLog0: SyncLog, syncLog: SyncLog, txCreates: seq<TransactionCreate>,
                         imported: YnabImportResult, now: Instant, catchAllCommitSucceeds: bool)
    requires store.Valid() && ledger.Valid()
    requires logIndex < |store.logs| && store.logs[logIndex] == syncLog0 && syncLog.id == syncLog0.id
    modifies store, ledger
    ensures store.Valid() && ledger.Valid()
    ensures var (recorded, rows') := RecordBatch(old(ledger.rows), txCreates, link.ynabBudgetId, link.ynabAccountId,
                                                 Some(imported.transactionIds), now);
      var created := |imported.transactionIds|;
      && ledger.rows == rows'
      && (recorded.Err? ==>
            && store.links == old(store.links)[link.akahuAccountId :=
                 if catchAllCommitSucceeds then FailedLink(link, IntegrityErrorText, now) else link]
            && store.logs == old(store.logs))
      && (recorded.Ok? ==>
            && store.links == old(store.links)[link.akahuAccountId := SucceededLink(link, ImportedMessage(created), created, now)]
            && store.logs == old(store.logs)[logIndex := syncLog.(status := Success, completedAt := Some(now),
                 transactionsImported := created, ynabDuplicates := |imported.duplicateImportIds|)])
  {
    var recorded := ledger.RecordImportsBatch(
      txCreates, link.ynabBudgetId, link.ynabAccountId, now, Some(imported.transactionIds));
    if recorded.Err? {
      var link := if catchAllCommitSucceeds then FailedLink(link, IntegrityErrorText, now) else link;
      store.links := store.links[link.akahuAccountId := link];
      return;
    }
    var created := |imported.transactionIds|;
    Commit(store, SucceededLink(link, ImportedMessage(created), created, now), logIndex,
           syncLog.(status := Success, completedAt := Some(now), transactionsImported := created,
                    ynabDuplicates := |imported.duplicateImportIds|));
  }

  /** The start of a run: insert the log row, then mark the link as running; one commit each. */
  method StartRun(store: SyncStore, akahuAccountId: string, now: Instant)
    returns (link: AkahuAccount, logIndex: nat, syncLog: SyncLog)
    requires store.Valid() && akahuAccountId in store.links
    modifies store
    ensures logIndex == |old(store.logs)| && syncLog == StartedLog(logIndex + 1, akahuAccountId, now)
    ensures link == StartedLink(old(store.links)[akahuAccountId], now) && link.akahuAccountId == akahuAccountId
    ensures store.logs == old(store.logs) + [syncLog]
    ensures store.links == old(store.links)[akahuAccountId := link]
  {
    logIndex := |store.logs|;
    syncLog := StartedLog(logIndex + 1, akahuAccountId, now);
    store.logs := store.logs + [syncLog];
    link := StartedLink(store.links[akahuAccountId], now);
    store.links := store.links[akahuAccountId := link];
  }

  /**
   * `sync_akahu_account_job`. An unlinked account changes nothing. Otherwise
   * the run appends its log row and ends in the state `SyncRun` describes;
   * `fetchStart` is the start date the fetch is asked for and `sent` the
   * rows sent to YNAB.
   */
  method SyncAkahuAccountJob(store: SyncStore, ledger: ImportLedger, akahuAccountId: string,
                             fetched: Result<seq<AkahuTransaction>, string>,
                             response: Result<CreateResponse, string>,
                             now: Instant, localNow: Instant, catchAllCommitSucceeds: bool)
    returns (fetchStart: Option<Instant>, sent: Option<seq<YnabTransaction>>)
    requires store.Valid() && ledger.Valid()
    modifies store, ledger
    ensures store.Valid() && ledger.Valid()
    ensures !Linked(old(store.links), akahuAccountId) ==>
      && store.links == old(store.links) && store.logs == old(store.logs) && ledger.rows == old(ledger.rows)
      && fetchStart.None? && sent.None?
    ensures Linked(old(store.links), akahuAccountId) ==>
      var link := old(store.links)[akahuAccountId];
      var s := SyncRun(old(ledger.rows), link, |old(store.logs)| + 1, fetched, response, now, catchAllCommitSucceeds);
      && store.links == old(store.links)[akahuAccountId := s.link]
      && store.logs == old(store.logs) + [s.log]
      && ledger.rows == s.rows
    ensures Linked(old(store.links), akahuAccountId) ==>
      && fetchStart == Some(LookbackStart(old(store.links)[akahuAccountId], localNow))
      && sent == RunSends(old(ledger.rows), old(store.links)[akahuAccountId], fetched)
  {
    if akahuAccountId !in store.links || !Truthy(store.links[akahuAccountId].ynabAccountId) {
      return None, None;
    }
    fetchStart, sent := RunLinkedAccount(store, ledger, akahuAccountId, fetched, response, now, localNow,
                                         catchAllCommitSucceeds);
  }

  /** The job's body past its guard: start, fetch from the lookback start, finish. */
  method RunLinkedAccount(store: SyncStore, ledger: ImportLedger, akahuAccountId: string,
                          fetched: Result<seq<AkahuTransaction>, string>,
                          response: Result<CreateResponse, string>,
                          now: Instant, localNow: Instant, catchAllCommitSucceeds: bool)
    returns (fetchStart: Option<Instant>, sent: Option<seq<YnabTransaction>>)
    requires store.Valid() && ledger.Valid() && Linked(store.links, akahuAccountId)
    modifies store, ledger
    ensures store.Valid() && ledger.Valid()
    ensures var link := old(store.links)[akahuAccountId];
      var s := SyncRun(old(ledger.rows), link, |old(store.logs)| + 1, fetched, response, now, catchAllCommitSucceeds);
      && store.links == old(store.links)[akahuAccountId := s.link]
      && store.logs == old(store.logs) + [s.log]
      && ledger.rows == s.rows
    ensures fetchStart == Some(LookbackStart(old(store.links)[akahuAccountId], localNow))
    ensures sent == RunSends(old(ledger.rows), old(store.links)[akahuAccountId], fetched)
  {
    ghost var link0, logs0, links0, rows0 := store.links[akahuAccountId], store.logs, store.links, ledger.rows;
    var link, logIndex, syncLog := StartRun(store, akahuAccountId, now);

    fetchStart := Some(LookbackStart(link, localNow));
    assert LookbackStart(link, localNow) == LookbackStart(link0, localNow);
    assert RunSends(rows0, link, fetched) == RunSends(rows0, link0, fetched);
    sent := FinishRun(store, ledger, link, logIndex, syncLog, fetched, response, now, catchAllCommitSucceeds);

    assert ReachedBatch(rows0, link, fetched, response, now) == ReachedBatch(rows0, link0, fetched, response, now);
    ghost var s := SyncRun(rows0, link0, logIndex + 1, fetched, response, now, catchAllCommitSucceeds);
    ReplaceAppended(logs0, syncLog, s.log);
    OverwriteTwice(links0, akahuAccountId, link, s.link);
  }
}
