/**
 * The deduplication ledger (`DeduplicationService` over the
 * `imported_transactions` table): the snapshot of stored fingerprints,
 * duplicate flagging, single and batch recording, history and statistics.
 */
module Dedup {
  import opened Wrappers
  import opened Calendar
  import opened Fingerprint
  import opened Schemas
  import opened Models
  import opened Sequences

  /** The `IntegrityError` a flush raises when a row breaks the UNIQUE index on `transaction_hash`. */
  datatype DbError = IntegrityError

  /** `str(e)` of the unique-constraint violation the commit raises; its wording is the driver's. */
  const IntegrityErrorText: string

  predicate UniqueHashes(rows: seq<ImportedTransaction>) {
    forall i, j :: 0 <= i < j < |rows| ==> rows[i].transactionHash != rows[j].transactionHash
  }

  predicate UniqueIds(rows: seq<ImportedTransaction>) {
    forall i, j :: 0 <= i < j < |rows| ==> rows[i].id != rows[j].id
  }

  function IdsOf(rows: seq<ImportedTransaction>): seq<nat> {
    seq(|rows|, i requires 0 <= i < |rows| => rows[i].id)
  }

  function HashesOf(rows: seq<ImportedTransaction>): set<string> {
    set i | 0 <= i < |rows| :: rows[i].transactionHash
  }

  /** The fingerprint a ledger row gets: recomputed from the transaction's own fields. */
  function RowHash(tx: TransactionCreate): string {
    GenerateHash(tx.date, tx.amount, tx.payee, tx.memo)
  }

  /** `ynab_transaction_ids or [None] * n`: a missing or empty list becomes n nulls. */
  function PaddedIds(n: nat, ynabIds: Option<seq<string>>): (ids: seq<Option<string>>)
    ensures ynabIds.Some? && ynabIds.value != [] ==>
      |ids| == |ynabIds.value| && forall k :: 0 <= k < |ids| ==> ids[k] == Some(ynabIds.value[k])
    ensures !(ynabIds.Some? && ynabIds.value != []) ==>
      |ids| == n && forall k :: 0 <= k < |ids| ==> ids[k].None?
  {
    if ynabIds.Some? && ynabIds.value != [] then
      seq(|ynabIds.value|, k requires 0 <= k < |ynabIds.value| => Some(ynabIds.value[k]))
    else
      seq(n, _ => None)
  }

  /** The ledger row recorded for one imported transaction. */
  function RowFor(tx: TransactionCreate, id: nat, ynabBudgetId: Option<string>, ynabAccountId: Option<string>,
                  ynabTransactionId: Option<string>, now: Instant): ImportedTransaction
  {
    ImportedTransaction(
      id, RowHash(tx), tx.date, tx.amount, tx.payee, tx.memo, tx.source, tx.sourceAccount,
      tx.sourceTransactionId, ynabBudgetId, ynabAccountId, ynabTransactionId, now)
  }

  /** The row built for the k-th (transaction, id) pair of a batch whose first new row id is `firstId`. */
  function RowMaker(firstId: nat, ynabBudgetId: Option<string>, ynabAccountId: Option<string>, now: Instant)
    : (nat, TransactionCreate, Option<string>) -> ImportedTransaction
  {
    (k: nat, tx: TransactionCreate, id: Option<string>) => RowFor(tx, firstId + k, ynabBudgetId, ynabAccountId, id, now)
  }

  /** The rows `zip(transactions, ynab_ids)` adds, numbered from `firstId`. */
  function BatchRows(firstId: nat, txs: seq<TransactionCreate>, ynabBudgetId: Option<string>,
                     ynabAccountId: Option<string>, ids: seq<Option<string>>, now: Instant): (pending: seq<ImportedTransaction>)
  {
    ZipWith(txs, ids, RowMaker(firstId, ynabBudgetId, ynabAccountId, now))
  }

  /**
   * `record_imports_batch` on a table holding `rows`: the value returned and
   * the table after the single commit. The commit is all or nothing.
   */
  function RecordBatch(rows: seq<ImportedTransaction>, txs: seq<TransactionCreate>,
                       ynabBudgetId: Option<string>, ynabAccountId: Option<string>,
                       ynabIds: Option<seq<string>>, now: Instant): (Result<nat, DbError>, seq<ImportedTransaction>)
  {
    if txs == [] then (Ok(0), rows)
    else
      var pending := BatchRows(NextId(IdsOf(rows)), txs, ynabBudgetId, ynabAccountId, PaddedIds(|txs|, ynabIds), now);
      if UniqueHashes(rows + pending) then (Ok(|txs|), rows + pending) else (Err(IntegrityError), rows)
  }

  /** An empty batch returns 0 and adds nothing. */
  lemma EmptyBatchRecordsNothing(rows: seq<ImportedTransaction>, ynabBudgetId: Option<string>,
                                 ynabAccountId: Option<string>, ynabIds: Option<seq<string>>, now: Instant)
    ensures RecordBatch(rows, [], ynabBudgetId, ynabAccountId, ynabIds, now) == (Ok(0), rows)
  {
  }

  /**
   * How many rows a successful batch adds: one per transaction when the id
   * list is missing or empty, otherwise one per (transaction, id) pair that
   * `zip` forms. The value returned is `len(transactions)` either way, and a
   * failed commit leaves the table as it was.
   */
  lemma BatchSize(rows: seq<ImportedTransaction>, txs: seq<TransactionCreate>, ynabBudgetId: Option<string>,
                  ynabAccountId: Option<string>, ynabIds: Option<seq<string>>, now: Instant)
    ensures var (r, rows') := RecordBatch(rows, txs, ynabBudgetId, ynabAccountId, ynabIds, now);
      && (r.Err? ==> rows' == rows)
      && (r.Ok? ==> r.value == |txs| && rows'[..|rows|] == rows)
      && (r.Ok? && ynabIds.Some? && ynabIds.value != [] ==> |rows'| == |rows| + Min(|txs|, |ynabIds.value|))
      && (r.Ok? && !(ynabIds.Some? && ynabIds.value != []) ==> |rows'| == |rows| + |txs|)
  {
    var ids := PaddedIds(|txs|, ynabIds);
    if txs != [] {
      assert |BatchRows(NextId(IdsOf(rows)), txs, ynabBudgetId, ynabAccountId, ids, now)| == Min(|txs|, |ids|);
    }
  }

  /**
   * Each added row carries the fingerprint of its own date, amount, payee and
   * memo, the batch's budget and account, its source fields, and the id
   * paired with it by position (null when the list was padded).
   */
  lemma BatchRowContents(rows: seq<ImportedTransaction>, txs: seq<TransactionCreate>, ynabBudgetId: Option<string>,
                         ynabAccountId: Option<string>, ynabIds: Option<seq<string>>, now: Instant, k: nat)
    requires RecordBatch(rows, txs, ynabBudgetId, ynabAccountId, ynabIds, now).0.Ok?
    requires |rows| + k < |RecordBatch(rows, txs, ynabBudgetId, ynabAccountId, ynabIds, now).1|
    ensures var row := RecordBatch(rows, txs, ynabBudgetId, ynabAccountId, ynabIds, now).1[|rows| + k];
      && k < |txs|
      && row.transactionHash == GenerateHash(txs[k].date, txs[k].amount, txs[k].payee, txs[k].memo)
      && row.date == txs[k].date && row.amount == txs[k].amount
      && row.payee == txs[k].payee && row.memo == txs[k].memo && row.source == txs[k].source
      && row.sourceAccount == txs[k].sourceAccount && row.sourceTransactionId == txs[k].sourceTransactionId
      && row.ynabBudgetId == ynabBudgetId && row.ynabAccountId == ynabAccountId
      && row.ynabTransactionId == (if ynabIds.Some? && ynabIds.value != [] then Some(ynabIds.value[k]) else None)
  {
    var ids := PaddedIds(|txs|, ynabIds);
    var pending := BatchRows(NextId(IdsOf(rows)), txs, ynabBudgetId, ynabAccountId, ids, now);
    assert RecordBatch(rows, txs, ynabBudgetId, ynabAccountId, ynabIds, now).1 == rows + pending;
    assert (rows + pending)[|rows| + k] == pending[k];
    PendingRowContents(NextId(IdsOf(rows)), txs, ynabBudgetId, ynabAccountId, ids, now, k);
  }

  /** The k-th pending row of a batch: transaction k's fields and fingerprint, paired with id k. */
  lemma PendingRowContents(first: nat, txs: seq<TransactionCreate>, ynabBudgetId: Option<string>,
                           ynabAccountId: Option<string>, ids: seq<Option<string>>, now: Instant, k: nat)
    requires k < |BatchRows(first, txs, ynabBudgetId, ynabAccountId, ids, now)|
    ensures var row := BatchRows(first, txs, ynabBudgetId, ynabAccountId, ids, now)[k];
      && k < |txs| && k < |ids| && row.id == first + k
      && row.transactionHash == GenerateHash(txs[k].date, txs[k].amount, txs[k].payee, txs[k].memo)
      && row.date == txs[k].date && row.amount == txs[k].amount
      && row.payee == txs[k].payee && row.memo == txs[k].memo && row.source == txs[k].source
      && row.sourceAccount == txs[k].sourceAccount && row.sourceTransactionId == txs[k].sourceTransactionId
      && row.ynabBudgetId == ynabBudgetId && row.ynabAccountId == ynabAccountId
      && row.ynabTransactionId == ids[k]
  {
    var row := BatchRows(first, txs, ynabBudgetId, ynabAccountId, ids, now)[k];
    assert row == RowFor(txs[k], first + k, ynabBudgetId, ynabAccountId, ids[k], now);
  }

  /** What every pending row of a batch is: its hash and its id. */
  lemma BatchRowsShape(first: nat, txs: seq<TransactionCreate>, ynabBudgetId: Option<string>,
                       ynabAccountId: Option<string>, ids: seq<Option<string>>, now: Instant)
    ensures var pending := BatchRows(first, txs, ynabBudgetId, ynabAccountId, ids, now);
      && |pending| == Min(|txs|, |ids|)
      && forall k :: 0 <= k < |pending| ==> pending[k].transactionHash == RowHash(txs[k]) && pending[k].id == first + k
  {
    var pending := BatchRows(first, txs, ynabBudgetId, ynabAccountId, ids, now);
    forall k | 0 <= k < |pending|
      ensures pending[k].transactionHash == RowHash(txs[k]) && pending[k].id == first + k
    {
      PendingRowContents(first, txs, ynabBudgetId, ynabAccountId, ids, now, k);
    }
  }

  /** Appending keeps fingerprints unique exactly when the new rows are unique among themselves and new to the table. */
  lemma UniqueAppend(rows: seq<ImportedTransaction>, pending: seq<ImportedTransaction>)
    requires UniqueHashes(rows)
    ensures UniqueHashes(rows + pending) <==>
      UniqueHashes(pending) && forall k :: 0 <= k < |pending| ==> pending[k].transactionHash !in HashesOf(rows)
  {
    var all := rows + pending;
    if UniqueHashes(all) {
      forall k, i | 0 <= k < |pending| && 0 <= i < |rows|
        ensures rows[i].transactionHash != pending[k].transactionHash
      {
        assert all[i] == rows[i] && all[|rows| + k] == pending[k];
      }
      forall k, l | 0 <= k < l < |pending| ensures pending[k].transactionHash != pending[l].transactionHash {
        assert all[|rows| + k] == pending[k] && all[|rows| + l] == pending[l];
      }
    } else {
      var i, j :| 0 <= i < j < |all| && all[i].transactionHash == all[j].transactionHash;
      assert all[j] == pending[j - |rows|];
      if i < |rows| {
        assert all[i] == rows[i];
        assert pending[j - |rows|].transactionHash in HashesOf(rows);
      } else {
        assert all[i] == pending[i - |rows|];
      }
    }
  }

  /**
   * On a table whose fingerprints are unique, a non-empty batch fails exactly
   * when one of the rows it would add repeats a stored fingerprint or another
   * row of the same batch.
   */
  lemma BatchFailsOnlyOnClash(rows: seq<ImportedTransaction>, txs: seq<TransactionCreate>, ynabBudgetId: Option<string>,
                              ynabAccountId: Option<string>, ynabIds: Option<seq<string>>, now: Instant)
    requires UniqueHashes(rows) && txs != []
    ensures var n := Min(|txs|, |PaddedIds(|txs|, ynabIds)|);
      RecordBatch(rows, txs, ynabBudgetId, ynabAccountId, ynabIds, now).0.Err?
      <==> (exists k :: 0 <= k < n && RowHash(txs[k]) in HashesOf(rows))
           || (exists k, l :: 0 <= k < l < n && RowHash(txs[k]) == RowHash(txs[l]))
  {
    var ids := PaddedIds(|txs|, ynabIds);
    var first := NextId(IdsOf(rows));
    var pending := BatchRows(first, txs, ynabBudgetId, ynabAccountId, ids, now);
    BatchRowsShape(first, txs, ynabBudgetId, ynabAccountId, ids, now);
    UniqueAppend(rows, pending);
  }

  /** A batch keeps fingerprints and row ids unique. */
  lemma BatchKeepsTableValid(rows: seq<ImportedTransaction>, txs: seq<TransactionCreate>, ynabBudgetId: Option<string>,
                             ynabAccountId: Option<string>, ynabIds: Option<seq<string>>, now: Instant)
    requires UniqueHashes(rows) && UniqueIds(rows)
    ensures var rows' := RecordBatch(rows, txs, ynabBudgetId, ynabAccountId, ynabIds, now).1;
      UniqueHashes(rows') && UniqueIds(rows')
  {
    if txs != [] {
      var ids := PaddedIds(|txs|, ynabIds);
      var first := NextId(IdsOf(rows));
      var pending := BatchRows(first, txs, ynabBudgetId, ynabAccountId, ids, now);
      BatchRowsShape(first, txs, ynabBudgetId, ynabAccountId, ids, now);
      if UniqueHashes(rows + pending) {
        FreshIdsAppend(rows, pending, first);
      }
    }
  }

  /** Rows numbered upward from `first`, above every stored id, keep ids unique. */
  lemma FreshIdsAppend(rows: seq<ImportedTransaction>, pending: seq<ImportedTransaction>, first: nat)
    requires UniqueIds(rows) && first == NextId(IdsOf(rows))
    requires forall k :: 0 <= k < |pending| ==> pending[k].id == first + k
    ensures UniqueIds(rows + pending)
  {
    var all := rows + pending;
    forall i, j | 0 <= i < j < |all| ensures all[i].id != all[j].id {
      if j >= |rows| {
        assert all[j] == pending[j - |rows|];
        if i < |rows| {
          assert all[i] == rows[i] && IdsOf(rows)[i] == rows[i].id;
        } else {
          assert all[i] == pending[i - |rows|];
        }
      } else {
        assert all[i] == rows[i] && all[j] == rows[j];
      }
    }
  }

  /**
   * `record_imports_batch` returns `len(transactions)`, yet with a non-empty
   * id list shorter than the batch it adds fewer rows than that.
   */
  lemma ReturnedCountExceedsRecorded(rows: seq<ImportedTransaction>, txs: seq<TransactionCreate>, ynabBudgetId: Option<string>,
                                     ynabAccountId: Option<string>, ynabIds: seq<string>, now: Instant)
    requires 0 < |ynabIds| < |txs|
    requires RecordBatch(rows, txs, ynabBudgetId, ynabAccountId, Some(ynabIds), now).0.Ok?
    ensures var (r, rows') := RecordBatch(rows, txs, ynabBudgetId, ynabAccountId, Some(ynabIds), now);
      r.value == |txs| && |rows'| - |rows| == |ynabIds| < r.value
  {
    BatchSize(rows, txs, ynabBudgetId, ynabAccountId, Some(ynabIds), now);
  }

  /** `source` filter of the history query: applied only when a non-empty source is given. */
  predicate MatchesSource(row: ImportedTransaction, source: Option<string>) {
    !Truthy(source) || row.source == source.value
  }

  predicate ByNewest(a: ImportedTransaction, b: ImportedTransaction) {
    a.importedAt >= b.importedAt
  }

  lemma ByNewestIsTotal()
    ensures TotalPreorder(ByNewest)
  {
  }

  /** The first k elements of a sorted list are ordered before every later one. */
  lemma {:induction false} SortedPrefixLeadsRest<A(!new)>(s: seq<A>, le: (A, A) -> bool, k: nat, x: A)
    requires SortedBy(s, le) && k <= |s|
    requires multiset(s[..k])[x] < multiset(s)[x]
    ensures forall i :: 0 <= i < k ==> le(s[i], x)
  {
    assert s == s[..k] + s[k..];
    assert multiset(s) == multiset(s[..k]) + multiset(s[k..]);
    assert x in multiset(s[k..]);
    var j :| k <= j < |s| && s[j] == x;
  }

  /** The rows the history query may return for `source`. */
  function SourceFilter(source: Option<string>): ImportedTransaction -> bool {
    x => MatchesSource(x, source)
  }

  /** SQLite's `LIMIT limit` over `n` rows: a negative limit means no limit. */
  function Cap(limit: int, n: nat): (c: nat)
    ensures c <= n
    ensures limit < 0 ==> c == n
    ensures limit >= 0 ==> c == Min(limit, n)
  {
    if limit < 0 then n else Min(limit, n)
  }

  /** `ORDER BY imported_at DESC LIMIT limit` over the rows of `source`. */
  function History(rows: seq<ImportedTransaction>, limit: int, source: Option<string>): seq<ImportedTransaction> {
    ByNewestIsTotal();
    var sorted := SortBy(Filter(rows, SourceFilter(source)), ByNewest);
    sorted[..Cap(limit, |sorted|)]
  }

  /** Unfolds `History` into the sorted matching rows and their cut. */
  lemma HistoryIsPrefix(rows: seq<ImportedTransaction>, limit: int, source: Option<string>)
    returns (sorted: seq<ImportedTransaction>)
    ensures TotalPreorder(ByNewest)
    ensures sorted == SortBy(Filter(rows, SourceFilter(source)), ByNewest)
    ensures |sorted| == |Filter(rows, SourceFilter(source))|
    ensures History(rows, limit, source) == sorted[..Cap(limit, |sorted|)]
  {
    ByNewestIsTotal();
    var matching := Filter(rows, SourceFilter(source));
    sorted := SortBy(matching, ByNewest);
    assert |multiset(sorted)| == |multiset(matching)|;
  }

  /** Each history row is a stored row of the requested source. */
  lemma HistoryRowsMatch(rows: seq<ImportedTransaction>, limit: int, source: Option<string>)
    ensures var r := History(rows, limit, source);
      && |r| == Cap(limit, |Filter(rows, SourceFilter(source))|)
      && forall i :: 0 <= i < |r| ==> r[i] in rows && MatchesSource(r[i], source)
  {
    var sorted := HistoryIsPrefix(rows, limit, source);
    var r := History(rows, limit, source);
    forall i | 0 <= i < |r| ensures r[i] in rows && MatchesSource(r[i], source) {
      assert r[i] == sorted[i];
      assert r[i] in multiset(sorted);
      assert r[i] in Filter(rows, SourceFilter(source));
    }
  }

  /**
   * The history returns each matching row at most as often as it is stored,
   * and every matching row when the limit does not cut.
   */
  lemma HistoryWithinMatching(rows: seq<ImportedTransaction>, limit: int, source: Option<string>)
    ensures var matching := Filter(rows, SourceFilter(source));
      && multiset(History(rows, limit, source)) <= multiset(matching)
      && (Cap(limit, |matching|) == |matching| ==> multiset(History(rows, limit, source)) == multiset(matching))
  {
    var sorted := HistoryIsPrefix(rows, limit, source);
    var c := Cap(limit, |sorted|);
    PrefixSubMultiset(sorted, c);
    if c == |sorted| {
      assert sorted[..c] == sorted;
    }
  }

  /** The history runs newest first. */
  lemma HistoryNewestFirst(rows: seq<ImportedTransaction>, limit: int, source: Option<string>)
    ensures var r := History(rows, limit, source);
      forall i, j :: 0 <= i < j < |r| ==> r[i].importedAt >= r[j].importedAt
  {
    var sorted := HistoryIsPrefix(rows, limit, source);
    var r := History(rows, limit, source);
    forall i, j | 0 <= i < j < |r| ensures r[i].importedAt >= r[j].importedAt {
      assert ByNewest(sorted[i], sorted[j]);
    }
  }

  /** A matching row the limit leaves out is no newer than any row returned. */
  lemma HistoryKeepsNewest(rows: seq<ImportedTransaction>, limit: int, source: Option<string>, x: ImportedTransaction)
    requires x in rows && MatchesSource(x, source)
    requires multiset(History(rows, limit, source))[x] < multiset(rows)[x]
    ensures var r := History(rows, limit, source);
      forall i :: 0 <= i < |r| ==> r[i].importedAt >= x.importedAt
  {
    var sorted := HistoryIsPrefix(rows, limit, source);
    var c := Cap(limit, |sorted|);
    assert SourceFilter(source)(x);
    assert multiset(sorted)[x] == multiset(rows)[x];
    var r := History(rows, limit, source);
    assert r == sorted[..c];
    assert multiset(sorted[..c])[x] < multiset(sorted)[x];
    SortedPrefixLeadsRest(sorted, ByNewest, c, x);
    forall i | 0 <= i < |r| ensures r[i].importedAt >= x.importedAt {
      assert ByNewest(sorted[i], x);
    }
  }

  /**
   * `r` answers the history query: `limit` rows, or every matching row when
   * there are fewer or the limit is negative; each a stored row of the requested source,
   * returned no more often than it is stored; newest first; and no matching row left out
   * is newer than one returned.
   */
  ghost predicate IsHistory(r: seq<ImportedTransaction>, rows: seq<ImportedTransaction>, limit: int, source: Option<string>) {
    && |r| == Cap(limit, |Filter(rows, SourceFilter(source))|)
    && (forall i :: 0 <= i < |r| ==> r[i] in rows && MatchesSource(r[i], source))
    && multiset(r) <= multiset(Filter(rows, SourceFilter(source)))
    && (forall i, j :: 0 <= i < j < |r| ==> r[i].importedAt >= r[j].importedAt)
    && (forall x :: x in rows && MatchesSource(x, source) && multiset(r)[x] < multiset(rows)[x] ==>
          forall i :: 0 <= i < |r| ==> r[i].importedAt >= x.importedAt)
  }

  /** A row stored once cannot be returned twice, even when it is the newest. */
  lemma HistoryNoRepeats(x0: ImportedTransaction, x1: ImportedTransaction)
    requires x0 != x1
    ensures !IsHistory([x0, x0], [x0, x1], 2, None)
  {
    var matching := Filter([x0, x1], SourceFilter(None));
    assert multiset(matching)[x0] <= multiset([x0, x1])[x0] == 1;
    assert multiset([x0, x0])[x0] == 2;
  }

  lemma HistoryIsNewestMatching(rows: seq<ImportedTransaction>, limit: int, source: Option<string>)
    ensures IsHistory(History(rows, limit, source), rows, limit, source)
  {
    HistoryRowsMatch(rows, limit, source);
    HistoryWithinMatching(rows, limit, source);
    HistoryNewestFirst(rows, limit, source);
    forall x | x in rows && MatchesSource(x, source) && multiset(History(rows, limit, source))[x] < multiset(rows)[x]
      ensures forall i :: 0 <= i < |History(rows, limit, source)| ==> History(rows, limit, source)[i].importedAt >= x.importedAt
    {
      HistoryKeepsNewest(rows, limit, source, x);
    }
  }

  /** One group of the `GROUP BY source` count. */
  datatype SourceCount = SourceCount(source: string, count: nat)

  /** `get_import_stats`: the row total and the per-source counts. */
  datatype ImportStatistics = ImportStatistics(totalImported: nat, bySource: seq<SourceCount>)

  function SumCounts(g: seq<SourceCount>): nat {
    if g == [] then 0 else g[0].count + SumCounts(g[1..])
  }

  function CountSource(rows: seq<ImportedTransaction>, source: string): nat {
    if rows == [] then 0
    else CountSource(rows[..|rows| - 1], source) + (if rows[|rows| - 1].source == source then 1 else 0)
  }

  predicate DistinctSources(g: seq<SourceCount>) {
    forall i, j :: 0 <= i < j < |g| ==> g[i].source != g[j].source
  }

  /** Some group of `g` is for `source`. */
  predicate Named(g: seq<SourceCount>, source: string) {
    exists i :: 0 <= i < |g| && g[i].source == source
  }

  /** `g` is the grouped count of `rows`: what `GROUP BY source` returns, in some order. */
  predicate GroupsOf(rows: seq<ImportedTransaction>, g: seq<SourceCount>) {
    && DistinctSources(g)
    && SumCounts(g) == |rows|
    && (forall i :: 0 <= i < |g| ==> g[i].count == CountSource(rows, g[i].source) && g[i].count > 0)
    && (forall j :: 0 <= j < |rows| ==> Named(g, rows[j].source))
  }

  /** Counts `g` with one more row of `source`. */
  function AddOne(g: seq<SourceCount>, source: string): (r: seq<SourceCount>)
    requires DistinctSources(g)
    ensures |r| == |g| + (if exists i :: 0 <= i < |g| && g[i].source == source then 0 else 1)
    ensures forall i :: 0 <= i < |g| ==>
      r[i].source == g[i].source && r[i].count == g[i].count + (if g[i].source == source then 1 else 0)
    ensures |r| > |g| ==> r[|g|] == SourceCount(source, 1)
  {
    if g == [] then [SourceCount(source, 1)]
    else if g[0].source == source then [g[0].(count := g[0].count + 1)] + g[1..]
    else
      var t := AddOne(g[1..], source);
      assert forall i :: 1 <= i < |g| ==> g[1..][i - 1] == g[i];
      [g[0]] + t
  }

  /** One more row adds one to the total. */
  lemma {:induction false} AddOneTotal(g: seq<SourceCount>, source: string)
    requires DistinctSources(g)
    ensures SumCounts(AddOne(g, source)) == SumCounts(g) + 1
  {
    var r := AddOne(g, source);
    if g == [] {
    } else if g[0].source == source {
      assert r[1..] == g[1..];
    } else {
      assert DistinctSources(g[1..]) by {
        assert forall i :: 0 <= i < |g| - 1 ==> g[1..][i] == g[i + 1];
      }
      AddOneTotal(g[1..], source);
      assert r[1..] == AddOne(g[1..], source);
    }
  }

  /** One more row leaves one group per source. */
  lemma AddOneDistinct(g: seq<SourceCount>, source: string)
    requires DistinctSources(g)
    ensures DistinctSources(AddOne(g, source))
  {
    var r := AddOne(g, source);
    forall i, j | 0 <= i < j < |r|
      ensures r[i].source != r[j].source
    {
      if j == |g| {
        assert !exists k :: 0 <= k < |g| && g[k].source == source;
        assert g[i].source != source;
      }
    }
  }

  /** Counting one more row keeps the grouping exact. */
  lemma GroupStep(rows: seq<ImportedTransaction>, p: seq<SourceCount>)
    requires rows != [] && GroupsOf(rows[..|rows| - 1], p)
    ensures GroupsOf(rows, AddOne(p, rows[|rows| - 1].source))
  {
    AddOneTotal(p, rows[|rows| - 1].source);
    AddOneDistinct(p, rows[|rows| - 1].source);
    StepCounts(rows, p);
    StepNames(rows, p);
  }

  /** After one more row, every group holds its source's row count. */
  lemma StepCounts(rows: seq<ImportedTransaction>, p: seq<SourceCount>)
    requires rows != [] && GroupsOf(rows[..|rows| - 1], p)
    ensures var r := AddOne(p, rows[|rows| - 1].source);
      forall i :: 0 <= i < |r| ==> r[i].count == CountSource(rows, r[i].source) && r[i].count > 0
  {
    var front := rows[..|rows| - 1];
    var last := rows[|rows| - 1].source;
    var r := AddOne(p, last);
    forall i | 0 <= i < |r| ensures r[i].count == CountSource(rows, r[i].source) && r[i].count > 0 {
      if i == |p| {
        CountAbsent(front, last, p);
      }
    }
  }

  /** After one more row, every row's source has a group. */
  lemma StepNames(rows: seq<ImportedTransaction>, p: seq<SourceCount>)
    requires rows != [] && GroupsOf(rows[..|rows| - 1], p)
    ensures forall j :: 0 <= j < |rows| ==> Named(AddOne(p, rows[|rows| - 1].source), rows[j].source)
  {
    var front := rows[..|rows| - 1];
    var last := rows[|rows| - 1].source;
    var r := AddOne(p, last);
    forall j | 0 <= j < |rows| ensures Named(r, rows[j].source) {
      if j < |front| {
        assert rows[j] == front[j];
        var i :| 0 <= i < |p| && p[i].source == front[j].source;
        assert r[i].source == rows[j].source;
      } else if Named(p, last) {
        assert rows[j].source == last;
        var i :| 0 <= i < |p| && p[i].source == last;
        assert r[i].source == p[i].source;
      } else {
        assert r[|p|].source == rows[j].source;
      }
    }
  }

  /**
   * The per-source counts of `rows`, in order of first appearance: one group
   * per source present, each holding that source's row count, adding up to
   * the number of rows.
   */
  function GroupCounts(rows: seq<ImportedTransaction>): (g: seq<SourceCount>)
    ensures GroupsOf(rows, g)
  {
    if rows == [] then []
    else
      var p := GroupCounts(rows[..|rows| - 1]);
      GroupStep(rows, p);
      AddOne(p, rows[|rows| - 1].source)
  }

  /** A source no group names has no rows. */
  lemma {:induction false} CountAbsent(rows: seq<ImportedTransaction>, source: string, g: seq<SourceCount>)
    requires forall j :: 0 <= j < |rows| ==> Named(g, rows[j].source)
    requires !Named(g, source)
    ensures CountSource(rows, source) == 0
  {
    if rows != [] {
      var front := rows[..|rows| - 1];
      assert forall j :: 0 <= j < |front| ==> front[j] == rows[j];
      CountAbsent(front, source, g);
    }
  }

  /** `zip` stops at the shorter list, so trimming both to that length changes nothing. */
  lemma BatchRowsTruncate(first: nat, txs: seq<TransactionCreate>, ynabBudgetId: Option<string>,
                          ynabAccountId: Option<string>, ids: seq<Option<string>>, now: Instant)
    ensures var n := Min(|txs|, |ids|);
      BatchRows(first, txs[..n], ynabBudgetId, ynabAccountId, ids[..n], now)
      == BatchRows(first, txs, ynabBudgetId, ynabAccountId, ids, now)
  {
    ZipWithTruncate(txs, ids, RowMaker(first, ynabBudgetId, ynabAccountId, now));
  }

  /** One more pair at the end of both lists: the step of the batch loop. */
  lemma BatchRowsSnoc(first: nat, txs: seq<TransactionCreate>, ynabBudgetId: Option<string>,
                      ynabAccountId: Option<string>, ids: seq<Option<string>>, now: Instant, k: nat)
    requires k < |txs| && k < |ids|
    ensures BatchRows(first, txs[..k + 1], ynabBudgetId, ynabAccountId, ids[..k + 1], now)
      == BatchRows(first, txs[..k], ynabBudgetId, ynabAccountId, ids[..k], now)
         + [RowFor(txs[k], first + k, ynabBudgetId, ynabAccountId, ids[k], now)]
  {
    ZipWithSnoc(txs, ids, RowMaker(first, ynabBudgetId, ynabAccountId, now), k);
  }

  /** The loop of `record_imports_batch` that builds one pending row per (transaction, id) pair. */
  method BuildBatchRows(first: nat, txs: seq<TransactionCreate>, ynabBudgetId: Option<string>,
                        ynabAccountId: Option<string>, ids: seq<Option<string>>, now: Instant)
    returns (pending: seq<ImportedTransaction>)
    ensures pending == BatchRows(first, txs, ynabBudgetId, ynabAccountId, ids, now)
  {
    pending := [];
    var k := 0;
    while k < |txs| && k < |ids|
      invariant 0 <= k <= |txs| && k <= |ids|
      invariant pending == BatchRows(first, txs[..k], ynabBudgetId, ynabAccountId, ids[..k], now)
    {
      BatchRowsSnoc(first, txs, ynabBudgetId, ynabAccountId, ids, now, k);
      var txHash := GenerateHash(txs[k].date, txs[k].amount, txs[k].payee, txs[k].memo);
      var imported := ImportedTransaction(
        first + k, txHash, txs[k].date, txs[k].amount, txs[k].payee, txs[k].memo, txs[k].source,
        txs[k].sourceAccount, txs[k].sourceTransactionId, ynabBudgetId, ynabAccountId, ids[k], now);
      pending := pending + [imported];
      k := k + 1;
    }
    assert txs[..k] == txs[..Min(|txs|, |ids|)] && ids[..k] == ids[..Min(|txs|, |ids|)];
    BatchRowsTruncate(first, txs, ynabBudgetId, ynabAccountId, ids, now);
  }

  /** The `imported_transactions` table and the queries the service runs on it. */
  class ImportLedger {
    var rows: seq<ImportedTransaction>

    ghost predicate Valid()
      reads this
    {
      UniqueHashes(rows) && UniqueIds(rows)
    }

    constructor ()
      ensures Valid() && rows == []
    {
      rows := [];
    }

    /** `get_existing_hashes`: the set of every stored fingerprint. */
    function ExistingHashes(): (hs: set<string>)
      reads this
      ensures forall h :: h in hs <==> exists i :: 0 <= i < |rows| && rows[i].transactionHash == h
    {
      HashesOf(rows)
    }

    /** `is_duplicate`: whether some stored row has this fingerprint. */
    function IsDuplicate(transactionHash: string): (b: bool)
      reads this
      ensures b <==> exists i :: 0 <= i < |rows| && rows[i].transactionHash == transactionHash
    {
      transactionHash in HashesOf(rows)
    }

    /**
     * `check_duplicates`: sets every preview's `is_duplicate` to whether its
     * fingerprint is stored, in place, keeping length, order and every other field.
     */
    method CheckDuplicates(txs: array<TransactionPreview>) returns (same: array<TransactionPreview>)
      modifies txs
      ensures same == txs
      ensures forall i :: 0 <= i < txs.Length ==>
        txs[i] == old(txs[i]).(isDuplicate := old(txs[i]).transactionHash in HashesOf(rows))
    {
      var existing := ExistingHashes();
      for i := 0 to txs.Length
        invariant forall j :: 0 <= j < i ==>
          txs[j] == old(txs[j]).(isDuplicate := old(txs[j]).transactionHash in existing)
        invariant forall j :: i <= j < txs.Length ==> txs[j] == old(txs[j])
      {
        txs[i] := txs[i].(isDuplicate := txs[i].transactionHash in existing);
      }
      same := txs;
    }

    /**
     * `record_import`: stores one row under the fingerprint the caller gives;
     * a fingerprint already stored fails the commit and changes nothing.
     */
    method RecordImport(tx: TransactionCreate, transactionHash: string, ynabBudgetId: string,
                        ynabAccountId: string, now: Instant, ynabTransactionId: Option<string> := None)
      returns (r: Result<ImportedTransaction, DbError>)
      requires Valid()
      modifies this
      ensures Valid()
      ensures transactionHash in HashesOf(old(rows)) ==> r == Err(IntegrityError) && rows == old(rows)
      ensures transactionHash !in HashesOf(old(rows)) ==>
        && r == Ok(ImportedTransaction(
             NextId(IdsOf(old(rows))), transactionHash, tx.date, tx.amount, tx.payee, tx.memo, tx.source,
             tx.sourceAccount, tx.sourceTransactionId, Some(ynabBudgetId), Some(ynabAccountId),
             ynabTransactionId, now))
        && rows == old(rows) + [r.value]
    {
      var row := ImportedTransaction(
        NextId(IdsOf(rows)), transactionHash, tx.date, tx.amount, tx.payee, tx.memo, tx.source,
        tx.sourceAccount, tx.sourceTransactionId, Some(ynabBudgetId), Some(ynabAccountId),
        ynabTransactionId, now);
      if transactionHash in HashesOf(rows) {
        r := Err(IntegrityError);
        return;
      }
      forall i | 0 <= i < |rows| ensures rows[i].id < row.id {
        assert IdsOf(rows)[i] == rows[i].id;
      }
      rows := rows + [row];
      r := Ok(row);
    }

    /**
     * `record_imports_batch`: builds one row per (transaction, id) pair, then
     * commits them together or not at all.
     */
    method RecordImportsBatch(txs: seq<TransactionCreate>, ynabBudgetId: Option<string>,
                              ynabAccountId: Option<string>, now: Instant,
                              ynabTransactionIds: Option<seq<string>> := None)
      returns (r: Result<nat, DbError>)
      requires Valid()
      modifies this
      ensures Valid()
      ensures r == RecordBatch(old(rows), txs, ynabBudgetId, ynabAccountId, ynabTransactionIds, now).0
      ensures rows == RecordBatch(old(rows), txs, ynabBudgetId, ynabAccountId, ynabTransactionIds, now).1
    {
      BatchKeepsTableValid(rows, txs, ynabBudgetId, ynabAccountId, ynabTransactionIds, now);
      if txs == [] {
        return Ok(0);
      }
      var ids := PaddedIds(|txs|, ynabTransactionIds);
      var pending := BuildBatchRows(NextId(IdsOf(rows)), txs, ynabBudgetId, ynabAccountId, ids, now);
      if !UniqueHashes(rows + pending) {
        return Err(IntegrityError);
      }
      rows := rows + pending;
      r := Ok(|txs|);
    }

    /**
     * `get_import_history`: at most `limit` rows (all of them for a negative
     * limit, as SQLite reads `LIMIT -1`), of the given source when
     * one is named, none repeated beyond its stored copies, newest first,
     * and no row left out is newer than one returned.
     */
    function ImportHistory(limit: int := 100, source: Option<string> := None): (r: seq<ImportedTransaction>)
      reads this
      ensures IsHistory(r, rows, limit, source)
    {
      HistoryIsNewestMatching(rows, limit, source);
      History(rows, limit, source)
    }

    /** `get_import_stats`: the total equals the sum of the per-source counts. */
    function ImportStats(): (s: ImportStatistics)
      reads this
      ensures s.totalImported == |rows| == SumCounts(s.bySource)
      ensures DistinctSources(s.bySource)
      ensures forall i :: 0 <= i < |s.bySource| ==>
        s.bySource[i].count == CountSource(rows, s.bySource[i].source) > 0
      ensures forall j :: 0 <= j < |rows| ==> Named(s.bySource, rows[j].source)
    {
      ImportStatistics(|rows|, GroupCounts(rows))
    }
  }
}
