/**
 * The Akahu endpoints that change state or decide duplicates: linking and
 * unlinking an account, setting and disabling its schedule (with the
 * interval snapped to the listed ones), the manual sync, and the preview
 * that flags fetched transactions already in the ledger. Akahu's and
 * YNAB's answers are given as parameters, and so are the clocks.
 */
module AkahuRouter {
  import opened Wrappers
  import opened Calendar
  import opened Fingerprint
  import opened Schemas
  import opened Models
  import opened Dedup
  import opened YnabClient
  import opened Scheduler
  import opened SyncJobs
  import opened Sequences

  // ---------------------------------------------------------------------
  // Interval snapping
  // ---------------------------------------------------------------------

  /** The intervals a schedule may use, in the order the handler lists them. */
  const ValidIntervals: seq<int> := [1, 2, 4, 6, 12, 24]

  /** `abs(x - h)` */
  function Distance(x: int, h: int): nat {
    if x >= h then x - h else h - x
  }

  /**
   * `min(xs, key=lambda x: abs(x - h))` as a position: `min` keeps the
   * first element at the least distance, replacing it only by a strictly
   * closer one.
   */
  function NearestIndex(xs: seq<int>, h: int): (i: nat)
    requires xs != []
    ensures i < |xs|
    ensures forall j :: 0 <= j < |xs| ==> Distance(xs[i], h) <= Distance(xs[j], h)
    ensures forall j :: 0 <= j < i ==> Distance(xs[j], h) > Distance(xs[i], h)
    decreases |xs|
  {
    if |xs| == 1 then 0
    else
      var front := xs[..|xs| - 1];
      var i := NearestIndex(front, h);
      assert forall j :: 0 <= j < |front| ==> front[j] == xs[j];
      if Distance(xs[|xs| - 1], h) < Distance(xs[i], h) then |xs| - 1 else i
  }

  /**
   * The interval `set_account_schedule` stores: a listed interval as
   * given, any other replaced by the closest listed one, a tie going to
   * the smaller.
   */
  function SnapInterval(h: int): (r: int)
    ensures r in ValidIntervals
    ensures h in ValidIntervals ==> r == h
    ensures forall x :: x in ValidIntervals ==> Distance(r, h) <= Distance(x, h)
    ensures forall x :: x in ValidIntervals && Distance(x, h) == Distance(r, h) ==> r <= x
  {
    if h in ValidIntervals then h
    else
      var i := NearestIndex(ValidIntervals, h);
      forall x | x in ValidIntervals && Distance(x, h) == Distance(ValidIntervals[i], h)
        ensures ValidIntervals[i] <= x
      {
        var j :| 0 <= j < |ValidIntervals| && ValidIntervals[j] == x;
        assert i <= j;
      }
      ValidIntervals[i]
  }

  /** Worked cases: 3 and 18 sit halfway between two listed intervals and go to the smaller. */
  lemma SnapTies()
    ensures SnapInterval(3) == 2 && SnapInterval(18) == 12
  {
    assert Distance(2, 3) == Distance(4, 3);
    assert Distance(12, 18) == Distance(24, 18);
  }

  /** Worked cases: 5 and 9 are also halfway between two listed intervals. */
  lemma SnapOutliers()
    ensures SnapInterval(5) == 4 && SnapInterval(9) == 6
  {
    assert Distance(4, 5) == Distance(6, 5);
    assert Distance(6, 9) == Distance(12, 9);
  }

  // ---------------------------------------------------------------------
  // Schedule endpoints
  // ---------------------------------------------------------------------

  const AccountNotFound := HttpError(404, "Account not found")
  const LinkBeforeScheduling := HttpError(400, "Account must be linked to YNAB before enabling scheduled sync")

  /** The body of a successful `POST …/schedule`. */
  datatype ScheduleReply = ScheduleReply(message: string, nextSyncAt: Option<Instant>)

  /** The link after a schedule change: the snapped interval, the days, and the next run when enabled. */
  function ScheduledLink(account: AkahuAccount, config: ScheduleConfig, now: Instant): (a: AkahuAccount)
    ensures a.akahuAccountId == account.akahuAccountId && a.ynabAccountId == account.ynabAccountId
    ensures a.scheduleEnabled == config.enabled && a.scheduleDaysToSync == config.daysToSync
    ensures a.scheduleIntervalHours in ValidIntervals
    ensures a.nextSyncAt == (if config.enabled then Some(NextRun(a, now)) else None)
    ensures a.lastSyncedAt == account.lastSyncedAt && a.lastSyncStatus == account.lastSyncStatus
  {
    var interval := SnapInterval(config.intervalHours);
    account.(scheduleEnabled := config.enabled, scheduleIntervalHours := interval,
             scheduleDaysToSync := config.daysToSync,
             nextSyncAt := if config.enabled then Some(now + Hours(interval)) else None, updatedAt := now)
  }

  /** `"Schedule enabled"` or `"Schedule disabled"` */
  function ScheduleMessage(enabled: bool): string {
    if enabled then "Schedule enabled" else "Schedule disabled"
  }

  /**
   * `set_account_schedule`. An unknown account is a 404 and an unlinked one
   * a 400, both before any change. Otherwise the link takes the snapped
   * configuration, and the job table then holds a job for the account
   * exactly when its schedule is enabled, at the stored interval.
   */
  method SetAccountSchedule(store: SyncStore, jobs: JobTable, akahuAccountId: string, config: ScheduleConfig,
                            now: Instant)
    returns (r: Result<ScheduleReply, HttpError>)
    requires store.Valid() && jobs.Valid() && ValidScheduleConfig(config)
    modifies store, jobs
    ensures store.Valid() && jobs.Valid() && store.logs == old(store.logs) && jobs.running == old(jobs.running)
    ensures akahuAccountId !in old(store.links) ==>
      r == Err(AccountNotFound) && store.links == old(store.links) && jobs.jobs == old(jobs.jobs)
    ensures akahuAccountId in old(store.links) && !Truthy(old(store.links)[akahuAccountId].ynabAccountId) ==>
      r == Err(LinkBeforeScheduling) && store.links == old(store.links) && jobs.jobs == old(jobs.jobs)
    ensures Linked(old(store.links), akahuAccountId) ==>
      var a := ScheduledLink(old(store.links)[akahuAccountId], config, now);
      && store.links == old(store.links)[akahuAccountId := a]
      && jobs.jobs == Scheduled(old(jobs.jobs), a)
      && r == Ok(ScheduleReply(ScheduleMessage(config.enabled), a.nextSyncAt))
  {
    if akahuAccountId !in store.links {
      return Err(AccountNotFound);
    }
    var account := store.links[akahuAccountId];
    if !Truthy(account.ynabAccountId) {
      return Err(LinkBeforeScheduling);
    }
    r := ApplySchedule(store, jobs, account, config, now);
  }

  /** `set_account_schedule` past its guards: store the snapped settings, then follow them in the job table. */
  method ApplySchedule(store: SyncStore, jobs: JobTable, account: AkahuAccount, config: ScheduleConfig, now: Instant)
    returns (r: Result<ScheduleReply, HttpError>)
    requires store.Valid() && jobs.Valid()
    modifies store, jobs
    ensures store.Valid() && jobs.Valid() && store.logs == old(store.logs) && jobs.running == old(jobs.running)
    ensures var a := ScheduledLink(account, config, now);
      && store.links == old(store.links)[account.akahuAccountId := a]
      && jobs.jobs == Scheduled(old(jobs.jobs), a)
      && r == Ok(ScheduleReply(ScheduleMessage(config.enabled), a.nextSyncAt))
  {
    var updated := account;
    var intervalHours := config.intervalHours;
    if intervalHours !in ValidIntervals {
      intervalHours := SnapInterval(intervalHours);
    }
    assert intervalHours == SnapInterval(config.intervalHours);
    updated := updated.(scheduleEnabled := config.enabled, scheduleIntervalHours := intervalHours,
                        scheduleDaysToSync := config.daysToSync);
    if config.enabled {
      updated := updated.(nextSyncAt := Some(now + Hours(intervalHours)));
    } else {
      updated := updated.(nextSyncAt := None);
    }
    updated := updated.(updatedAt := now);
    assert updated == ScheduledLink(account, config, now);
    store.links := store.links[account.akahuAccountId := updated];

    if config.enabled {
      jobs.ScheduleAccountSync(updated);
    } else {
      jobs.RemoveAccountSchedule(account.akahuAccountId);
    }
    r := Ok(ScheduleReply(ScheduleMessage(config.enabled), updated.nextSyncAt));
  }

  /** The link after `disable_account_schedule`: off, with no next run. */
  function DisabledLink(account: AkahuAccount, now: Instant): AkahuAccount {
    account.(scheduleEnabled := false, nextSyncAt := None, updatedAt := now)
  }

  /** A disabled link has no job after the table follows it. */
  lemma DisabledLinkHasNoJob(jobs: map<string, Job>, account: AkahuAccount, now: Instant)
    ensures var a := DisabledLink(account, now);
      && !a.scheduleEnabled && a.nextSyncAt.None?
      && JobId(account.akahuAccountId) !in Scheduled(jobs, a)
      && Scheduled(jobs, a) == jobs - {JobId(account.akahuAccountId)}
  {
  }

  /**
   * `disable_account_schedule`: an unknown account is a 404; otherwise the
   * schedule is switched off, the next run cleared and the job removed.
   */
  method DisableAccountSchedule(store: SyncStore, jobs: JobTable, akahuAccountId: string, now: Instant)
    returns (r: Result<string, HttpError>)
    requires store.Valid() && jobs.Valid()
    modifies store, jobs
    ensures store.Valid() && jobs.Valid() && store.logs == old(store.logs) && jobs.running == old(jobs.running)
    ensures akahuAccountId !in old(store.links) ==>
      r == Err(AccountNotFound) && store.links == old(store.links) && jobs.jobs == old(jobs.jobs)
    ensures akahuAccountId in old(store.links) ==>
      && store.links == old(store.links)[akahuAccountId := DisabledLink(old(store.links)[akahuAccountId], now)]
      && jobs.jobs == old(jobs.jobs) - {JobId(akahuAccountId)}
      && r == Ok("Schedule disabled")
  {
    if akahuAccountId !in store.links {
      return Err(AccountNotFound);
    }
    var account := store.links[akahuAccountId];
    account := account.(scheduleEnabled := false, nextSyncAt := None, updatedAt := now);
    store.links := store.links[akahuAccountId := account];
    jobs.RemoveAccountSchedule(akahuAccountId);
    r := Ok("Schedule disabled");
  }

  // ---------------------------------------------------------------------
  // Link and unlink
  // ---------------------------------------------------------------------

  /** `next((a for a in accounts if a.id == akahu_account_id), None)` */
  function FindAccount(accounts: seq<AkahuAccountResponse>, akahuAccountId: string): (r: Option<AkahuAccountResponse>)
    ensures r.None? <==> forall k :: 0 <= k < |accounts| ==> accounts[k].id != akahuAccountId
    ensures r.Some? ==> exists k :: 0 <= k < |accounts| && accounts[k] == r.value && r.value.id == akahuAccountId &&
                                      forall j :: 0 <= j < k ==> accounts[j].id != akahuAccountId
  {
    if accounts == [] then None
    else if accounts[0].id == akahuAccountId then Some(accounts[0])
    else
      var r := FindAccount(accounts[1..], akahuAccountId);
      assert forall k :: 1 <= k < |accounts| ==> accounts[k] == accounts[1..][k - 1];
      if r.Some? then
        var k :| 0 <= k < |accounts[1..]| && accounts[1..][k] == r.value && r.value.id == akahuAccountId
                 && forall j :: 0 <= j < k ==> accounts[1..][j].id != akahuAccountId;
        assert accounts[k + 1] == r.value;
        r
      else r
  }

  /** An existing link pointed at a (possibly different) YNAB account. */
  function Relinked(existing: AkahuAccount, link: AkahuAccountLink, now: Instant): AkahuAccount {
    existing.(ynabBudgetId := Some(link.ynabBudgetId), ynabAccountId := Some(link.ynabAccountId),
              autoSync := link.autoSync, updatedAt := now)
  }

  /** A new link row, with the account's name, type and institution when Akahu lists it. */
  function NewLink(link: AkahuAccountLink, info: Option<AkahuAccountResponse>, now: Instant): AkahuAccount {
    NewAkahuAccount(link.akahuAccountId,
                    if info.Some? then Some(info.value.name) else None,
                    if info.Some? then Some(info.value.accountType) else None,
                    if info.Some? then Some(info.value.institution) else None,
                    Some(link.ynabBudgetId), Some(link.ynabAccountId), link.autoSync, now)
  }

  /**
   * Whichever branch stores the link, the row for the account points at the
   * requested YNAB budget and account with the requested auto-sync flag,
   * and a new row starts with its schedule off at the column defaults.
   */
  lemma LinkedRowTargets(existing: Option<AkahuAccount>, link: AkahuAccountLink,
                         info: Option<AkahuAccountResponse>, now: Instant)
    requires existing.Some? ==> existing.value.akahuAccountId == link.akahuAccountId
    ensures var a := if existing.Some? then Relinked(existing.value, link, now) else NewLink(link, info, now);
      && a.akahuAccountId == link.akahuAccountId
      && a.ynabBudgetId == Some(link.ynabBudgetId) && a.ynabAccountId == Some(link.ynabAccountId)
      && a.autoSync == link.autoSync
      && (existing.None? ==> !a.scheduleEnabled && a.scheduleIntervalHours == 6 && a.scheduleDaysToSync == 7
                             && a.lastSyncImported == 0 && a.nextSyncAt.None?)
      && (existing.Some? ==> a.scheduleEnabled == existing.value.scheduleEnabled
                             && a.nextSyncAt == existing.value.nextSyncAt
                             && a.lastSyncedAt == existing.value.lastSyncedAt)
  {
  }

  /**
   * `link_akahu_to_ynab`: update the account's row if there is one, else
   * insert one (after asking Akahu for the account's details, whose
   * failure escapes as a 500). Either way there is one row per account.
   */
  method LinkAkahuToYnab(store: SyncStore, link: AkahuAccountLink,
                         accounts: Result<seq<AkahuAccountResponse>, string>, now: Instant)
    returns (r: Result<string, HttpError>)
    requires store.Valid()
    modifies store
    ensures store.Valid() && store.logs == old(store.logs)
    ensures link.akahuAccountId in old(store.links) ==>
      && store.links == old(store.links)[link.akahuAccountId := Relinked(old(store.links)[link.akahuAccountId], link, now)]
      && r == Ok("Account linked successfully")
    ensures link.akahuAccountId !in old(store.links) && accounts.Err? ==>
      r == Err(InternalServerError) && store.links == old(store.links)
    ensures link.akahuAccountId !in old(store.links) && accounts.Ok? ==>
      && store.links == old(store.links)[link.akahuAccountId :=
                                          NewLink(link, FindAccount(accounts.value, link.akahuAccountId), now)]
      && r == Ok("Account linked successfully")
  {
    if link.akahuAccountId in store.links {
      var existing := store.links[link.akahuAccountId];
      existing := existing.(ynabBudgetId := Some(link.ynabBudgetId), ynabAccountId := Some(link.ynabAccountId),
                            autoSync := link.autoSync, updatedAt := now);
      store.links := store.links[link.akahuAccountId := existing];
    } else {
      if accounts.Err? {
        return Err(InternalServerError);
      }
      var accountInfo := FindAccount(accounts.value, link.akahuAccountId);
      store.links := store.links[link.akahuAccountId := NewLink(link, accountInfo, now)];
    }
    r := Ok("Account linked successfully");
  }

  /**
   * `unlink_akahu_account`: the row goes if there is one, and the call
   * succeeds either way. The account's job, if armed, stays in the table;
   * when it fires, the job finds no row and returns without a log.
   */
  method UnlinkAkahuAccount(store: SyncStore, akahuAccountId: string) returns (r: string)
    requires store.Valid()
    modifies store
    ensures store.Valid() && store.logs == old(store.logs)
    ensures store.links == old(store.links) - {akahuAccountId} && !Linked(store.links, akahuAccountId)
    ensures r == "Account unlinked"
  {
    if akahuAccountId in store.links {
      store.links := store.links - {akahuAccountId};
    }
    r := "Account unlinked";
  }

  // ---------------------------------------------------------------------
  // Manual sync
  // ---------------------------------------------------------------------

  const NotLinked := HttpError(400, "Akahu account is not linked to a YNAB account")

  /** The 500 a failed fetch raises. */
  function FetchFailed(error: string): HttpError {
    HttpError(500, "Failed to fetch Akahu transactions: " + error)
  }

  /** The 500 a failed YNAB import raises. */
  function ImportFailed(error: string): HttpError {
    HttpError(500, "Failed to import to YNAB: " + error)
  }

  const AllDuplicatesText: string := "All transactions were duplicates"

  /** The body of a successful manual sync. */
  datatype ManualSyncReply =
    | NothingNew(imported: nat, skippedDuplicates: nat, message: string)
    | SyncImported(imported: nat, ynabDuplicates: nat, skippedDuplicates: nat, transactionIds: seq<string>)

  /** What a manual sync answers, and the link and ledger it leaves. */
  datatype ManualOutcome = ManualOutcome(reply: Result<ManualSyncReply, HttpError>, link: AkahuAccount,
                                         rows: seq<ImportedTransaction>)

  /** The manual sync of a linked account, from the ledger as it was when the request came in. */
  function ManualSync(rows: seq<ImportedTransaction>, link: AkahuAccount, skipDuplicates: bool,
                      fetched: Result<seq<AkahuTransaction>, string>, response: Result<CreateResponse, string>,
                      now: Instant): ManualOutcome
  {
    match fetched
    case Err(e) => ManualOutcome(Err(FetchFailed(e)), link, rows)
    case Ok(txs) =>
      if txs == [] then ManualOutcome(Ok(NothingNew(0, 0, NothingFoundMessage)), link, rows)
      else
        var p := Partitioned(txs, HashesOf(rows), skipDuplicates, link.akahuAccountId);
        if p.ynabTransactions == [] then ManualOutcome(Ok(NothingNew(0, p.skipped, AllDuplicatesText)), link, rows)
        else ManualImportEnd(rows, link, p, response, now)
  }

  /** The end of a manual sync with something to send: YNAB's failure, a failed batch, or the recorded batch. */
  function ManualImportEnd(rows: seq<ImportedTransaction>, link: AkahuAccount, p: Partition,
                           response: Result<CreateResponse, string>, now: Instant): ManualOutcome
  {
    match ImportReport(response)
    case Err(e) => ManualOutcome(Err(ImportFailed(e)), link, rows)
    case Ok(result) =>
      var (recorded, rows') := RecordBatch(rows, p.txCreates, link.ynabBudgetId, link.ynabAccountId,
                                           Some(result.transactionIds), now);
      if recorded.Err? then ManualOutcome(Err(InternalServerError), link, rows)
      else
        ManualOutcome(Ok(SyncImported(|result.transactionIds|, |result.duplicateImportIds|, p.skipped,
                                      result.transactionIds)),
                      link.(lastSyncedAt := Some(now), updatedAt := now), rows')
  }

  /** The rows a manual sync sends to YNAB, if it gets that far. */
  function ManualSends(rows: seq<ImportedTransaction>, link: AkahuAccount, skipDuplicates: bool,
                       fetched: Result<seq<AkahuTransaction>, string>): Option<seq<YnabTransaction>>
  {
    if fetched.Ok? && fetched.value != [] then
      var p := Partitioned(fetched.value, HashesOf(rows), skipDuplicates, link.akahuAccountId);
      if p.ynabTransactions != [] && ConvertedRows(OrEmpty(link.ynabAccountId), p.ynabTransactions).Ok? then
        Some(ConvertedRows(OrEmpty(link.ynabAccountId), p.ynabTransactions).value)
      else None
    else None
  }

  /**
   * A successful manual sync accounts for every fetched transaction: the
   * skipped ones plus the ones sent make up the fetch, and with skipping
   * off nothing is skipped.
   */
  lemma ManualSyncCounts(rows: seq<ImportedTransaction>, link: AkahuAccount, skipDuplicates: bool,
                         txs: seq<AkahuTransaction>, response: Result<CreateResponse, string>, now: Instant)
    ensures var o := ManualSync(rows, link, skipDuplicates, Ok(txs), response, now);
      var p := Partitioned(txs, HashesOf(rows), skipDuplicates, link.akahuAccountId);
      && (o.reply.Ok? ==> o.reply.value.skippedDuplicates + |p.txCreates| == |txs|)
      && (o.reply.Ok? && !skipDuplicates ==> o.reply.value.skippedDuplicates == 0)
  {
    var p := Partitioned(txs, HashesOf(rows), skipDuplicates, link.akahuAccountId);
    PartitionCounts(txs, HashesOf(rows), skipDuplicates);
    if !skipDuplicates {
      NoSkipKeepsAll(txs, HashesOf(rows));
    }
    if txs != [] && p.ynabTransactions != [] {
      ManualEndSkipped(rows, link, p, response, now);
    }
  }

  /** A recorded batch reports the partition's skipped count. */
  lemma ManualEndSkipped(rows: seq<ImportedTransaction>, link: AkahuAccount, p: Partition,
                         response: Result<CreateResponse, string>, now: Instant)
    ensures var o := ManualImportEnd(rows, link, p, response, now);
      o.reply.Ok? ==> o.reply.value.SyncImported? && o.reply.value.skippedDuplicates == p.skipped
  {
  }

  /** `imported` is the number of ids YNAB returned, and they are the ids reported. */
  lemma ManualSyncImported(rows: seq<ImportedTransaction>, link: AkahuAccount, skipDuplicates: bool,
                           fetched: Result<seq<AkahuTransaction>, string>, response: Result<CreateResponse, string>,
                           now: Instant)
    ensures var o := ManualSync(rows, link, skipDuplicates, fetched, response, now);
      o.reply.Ok? && o.reply.value.SyncImported? ==>
        && response.Ok?
        && o.reply.value.transactionIds == ExtractIds(response.value).0
        && o.reply.value.imported == |o.reply.value.transactionIds|
        && o.reply.value.ynabDuplicates == |ExtractIds(response.value).1|
  {
  }

  /**
   * Every failed manual sync leaves the ledger and the link as they were;
   * only a recorded batch moves `last_synced_at`, and it touches nothing
   * else of the link's schedule.
   */
  lemma ManualSyncFailureKeepsState(rows: seq<ImportedTransaction>, link: AkahuAccount, skipDuplicates: bool,
                                    fetched: Result<seq<AkahuTransaction>, string>,
                                    response: Result<CreateResponse, string>, now: Instant)
    ensures var o := ManualSync(rows, link, skipDuplicates, fetched, response, now);
      && (o.reply.Err? || o.reply.value.NothingNew? ==> o.link == link && o.rows == rows)
      && (o.reply.Ok? && o.reply.value.SyncImported? ==>
            o.link == link.(lastSyncedAt := Some(now), updatedAt := now))
  {
    if fetched.Ok? && fetched.value != [] {
      var p := Partitioned(fetched.value, HashesOf(rows), skipDuplicates, link.akahuAccountId);
      if p.ynabTransactions != [] {
        ManualEndKeepsState(rows, link, p, response, now);
      }
    }
  }

  /** The same for the end of a manual sync that has something to send. */
  lemma ManualEndKeepsState(rows: seq<ImportedTransaction>, link: AkahuAccount, p: Partition,
                            response: Result<CreateResponse, string>, now: Instant)
    ensures var o := ManualImportEnd(rows, link, p, response, now);
      && (o.reply.Err? ==> o.link == link && o.rows == rows)
      && (o.reply.Ok? ==> o.reply.value.SyncImported? && o.link == link.(lastSyncedAt := Some(now), updatedAt := now))
  {
  }

  /**
   * `sync_akahu_account`: a 400 unless the account is linked. Otherwise the
   * fetch starts `days` before the host's clock, and the outcome is
   * `ManualSync`'s: no sync log is written, and the schedule fields stay.
   */
  method SyncAkahuAccount(store: SyncStore, ledger: ImportLedger, akahuAccountId: string, days: int,
                          skipDuplicates: bool, fetched: Result<seq<AkahuTransaction>, string>,
                          response: Result<CreateResponse, string>, now: Instant, localNow: Instant)
    returns (r: Result<ManualSyncReply, HttpError>, fetchStart: Option<Instant>, sent: Option<seq<YnabTransaction>>)
    requires store.Valid() && ledger.Valid()
    modifies store, ledger
    ensures store.Valid() && ledger.Valid() && store.logs == old(store.logs)
    ensures !Linked(old(store.links), akahuAccountId) ==>
      && r == Err(NotLinked) && store.links == old(store.links) && ledger.rows == old(ledger.rows)
      && fetchStart.None? && sent.None?
    ensures Linked(old(store.links), akahuAccountId) ==>
      var o := ManualSync(old(ledger.rows), old(store.links)[akahuAccountId], skipDuplicates, fetched, response, now);
      && r == o.reply && store.links == old(store.links)[akahuAccountId := o.link] && ledger.rows == o.rows
      && fetchStart == Some(localNow - Days(days))
      && sent == ManualSends(old(ledger.rows), old(store.links)[akahuAccountId], skipDuplicates, fetched)
  {
    if akahuAccountId !in store.links || !Truthy(store.links[akahuAccountId].ynabAccountId) {
      return Err(NotLinked), None, None;
    }
    fetchStart := Some(localNow - Days(days));
    r, sent := SyncLinked(store, ledger, store.links[akahuAccountId], skipDuplicates, fetched, response, now);
  }

  /** The manual sync past its guard. */
  method SyncLinked(store: SyncStore, ledger: ImportLedger, link: AkahuAccount, skipDuplicates: bool,
                    fetched: Result<seq<AkahuTransaction>, string>, response: Result<CreateResponse, string>,
                    now: Instant)
    returns (r: Result<ManualSyncReply, HttpError>, sent: Option<seq<YnabTransaction>>)
    requires store.Valid() && ledger.Valid() && Truthy(link.ynabAccountId)
    requires link.akahuAccountId in store.links && store.links[link.akahuAccountId] == link
    modifies store, ledger
    ensures store.Valid() && ledger.Valid() && store.logs == old(store.logs)
    ensures var o := ManualSync(old(ledger.rows), link, skipDuplicates, fetched, response, now);
      && r == o.reply && store.links == old(store.links)[link.akahuAccountId := o.link] && ledger.rows == o.rows
    ensures sent == ManualSends(old(ledger.rows), link, skipDuplicates, fetched)
  {
    sent := None;
    if fetched.Err? {
      return Err(FetchFailed(fetched.error)), None;
    }
    var transactions := fetched.value;
    if transactions == [] {
      return Ok(NothingNew(0, 0, NothingFoundMessage)), None;
    }
    var existingHashes := ledger.ExistingHashes();
    var ynabTransactions, txCreates, skipped :=
      PartitionFetched(transactions, existingHashes, skipDuplicates, link.akahuAccountId);
    if ynabTransactions == [] {
      return Ok(NothingNew(0, skipped, AllDuplicatesText)), None;
    }
    PartitionConverts(link.ynabAccountId.value, transactions, existingHashes, skipDuplicates, link.akahuAccountId);
    r, sent := ImportManual(store, ledger, link, ynabTransactions, txCreates, skipped, response, now);
  }

  /** The YNAB import and the batch of a manual sync, then the `last_synced_at` commit. */
  method ImportManual(store: SyncStore, ledger: ImportLedger, link: AkahuAccount, ynabTransactions: seq<TxDict>,
                      txCreates: seq<TransactionCreate>, skipped: nat, response: Result<CreateResponse, string>,
                      now: Instant)
    returns (r: Result<ManualSyncReply, HttpError>, sent: Option<seq<YnabTransaction>>)
    requires store.Valid() && ledger.Valid() && Truthy(link.ynabAccountId)
    requires link.akahuAccountId in store.links && store.links[link.akahuAccountId] == link
    requires ynabTransactions != [] && ConvertedRows(link.ynabAccountId.value, ynabTransactions).Ok?
    modifies store, ledger
    ensures store.Valid() && ledger.Valid() && store.logs == old(store.logs)
    ensures var o := ManualImportEnd(old(ledger.rows), link, Partition(ynabTransactions, txCreates, skipped),
                                     response, now);
      && r == o.reply && store.links == old(store.links)[link.akahuAccountId := o.link] && ledger.rows == o.rows
    ensures sent == Some(ConvertedRows(link.ynabAccountId.value, ynabTransactions).value)
  {
    var importResult;
    importResult, sent := ImportTransactions(link.ynabAccountId.value, ynabTransactions, response);
    if importResult.Err? {
      r := Err(ImportFailed(importResult.error));
      assert store.links == old(store.links)[link.akahuAccountId := link];
      return;
    }
    r := RecordManual(store, ledger, link, txCreates, skipped, importResult.value, now);
  }

  /** The batch of a manual sync after YNAB accepted it, then the `last_synced_at` commit. */
  method RecordManual(store: SyncStore, ledger: ImportLedger, link: AkahuAccount, txCreates: seq<TransactionCreate>,
                      skipped: nat, imported: YnabImportResult, now: Instant)
    returns (r: Result<ManualSyncReply, HttpError>)
    requires store.Valid() && ledger.Valid()
    requires link.akahuAccountId in store.links && store.links[link.akahuAccountId] == link
    modifies store, ledger
    ensures store.Valid() && ledger.Valid() && store.logs == old(store.logs)
    ensures var (recorded, rows') := RecordBatch(old(ledger.rows), txCreates, link.ynabBudgetId, link.ynabAccountId,
                                                 Some(imported.transactionIds), now);
      && ledger.rows == rows'
      && (recorded.Err? ==> r == Err(InternalServerError) && store.links == old(store.links)[link.akahuAccountId := link])
      && (recorded.Ok? ==>
            && r == Ok(SyncImported(|imported.transactionIds|, |imported.duplicateImportIds|, skipped,
                                    imported.transactionIds))
            && store.links == old(store.links)[link.akahuAccountId := link.(lastSyncedAt := Some(now), updatedAt := now)])
  {
    var recorded := ledger.RecordImportsBatch(
      txCreates, link.ynabBudgetId, link.ynabAccountId, now, Some(imported.transactionIds));
    if recorded.Err? {
      r := Err(InternalServerError);
      assert store.links == old(store.links)[link.akahuAccountId := link];
      return;
    }
    store.links := store.links[link.akahuAccountId := link.(lastSyncedAt := Some(now), updatedAt := now)];
    r := Ok(SyncImported(|imported.transactionIds|, |imported.duplicateImportIds|, skipped, imported.transactionIds));
  }

  // ---------------------------------------------------------------------
  // Preview
  // ---------------------------------------------------------------------

  /** One entry of `GET /akahu/transactions`. */
  datatype AkahuPreview = AkahuPreview(
    id: string,
    accountId: string,
    date: string,
    amount: Money,
    description: string,
    merchant: Option<string>,
    category: Option<string>,
    isDuplicate: bool,
    transactionHash: string)

  /** A fetched transaction as previewed: its own fields, its sync fingerprint and whether the ledger holds it. */
  function PreviewRow(tx: AkahuTransaction, hashes: set<string>): (p: AkahuPreview)
    ensures p.transactionHash == SyncTestHash(tx) && (p.isDuplicate <==> SyncTestHash(tx) in hashes)
    ensures p.id == tx.id && p.accountId == tx.accountId && p.amount == tx.amount && p.description == tx.description
  {
    var txHash := SyncTestHash(tx);
    AkahuPreview(tx.id, tx.accountId, IsoDateTime(tx.date), tx.amount, tx.description, tx.merchant, tx.category,
                 txHash in hashes, txHash)
  }

  /** The 500 a failed preview fetch raises. */
  function PreviewFetchFailed(error: string): HttpError {
    HttpError(500, "Failed to fetch transactions: " + error)
  }

  /** A previewed transaction is flagged exactly when some ledger row carries its sync fingerprint. */
  lemma PreviewFlagsStored(tx: AkahuTransaction, rows: seq<ImportedTransaction>)
    ensures PreviewRow(tx, HashesOf(rows)).isDuplicate <==>
      exists j :: 0 <= j < |rows| && rows[j].transactionHash == SyncTestHash(tx)
  {
    if PreviewRow(tx, HashesOf(rows)).isDuplicate {
      var j :| 0 <= j < |rows| && rows[j].transactionHash == SyncTestHash(tx);
    }
  }

  /**
   * `get_akahu_transactions`: a failed fetch is a 500; otherwise one entry
   * per fetched transaction, in fetch order, flagged exactly when a ledger
   * row carries its fingerprint.
   */
  method PreviewTransactions(ledger: ImportLedger, fetched: Result<seq<AkahuTransaction>, string>)
    returns (r: Result<seq<AkahuPreview>, HttpError>)
    ensures fetched.Err? ==> r == Err(PreviewFetchFailed(fetched.error))
    ensures fetched.Ok? ==>
      && r.Ok? && |r.value| == |fetched.value|
      && forall i :: 0 <= i < |r.value| ==> r.value[i] == PreviewRow(fetched.value[i], HashesOf(ledger.rows))
  {
    if fetched.Err? {
      return Err(PreviewFetchFailed(fetched.error));
    }
    var transactions := fetched.value;
    var existingHashes := ledger.ExistingHashes();
    var result := PreviewAll(transactions, existingHashes);
    r := Ok(result);
  }

  /** The entry `get_akahu_transactions` builds for each transaction, against the fingerprints `hashes`. */
  function PreviewOf(hashes: set<string>): AkahuTransaction -> AkahuPreview {
    tx => PreviewRow(tx, hashes)
  }

  /** The loop of the preview: one entry per transaction, in order. */
  method PreviewAll(transactions: seq<AkahuTransaction>, existingHashes: set<string>)
    returns (result: seq<AkahuPreview>)
    ensures result == Map(transactions, PreviewOf(existingHashes))
  {
    var entry := PreviewOf(existingHashes);
    result := [];
    for i := 0 to |transactions|
      invariant result == Map(transactions[..i], entry)
    {
      assert transactions[..i + 1][..i] == transactions[..i];
      result := result + [entry(transactions[i])];
    }
    assert transactions[..|transactions|] == transactions;
  }
}
