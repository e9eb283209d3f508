/**
 * The scheduler's job table: one interval job per Akahu account, keyed
 * `sync_<akahu_account_id>`, armed when the account's schedule is enabled
 * and removed (quietly, when absent) otherwise; and the start-up pass that
 * arms every enabled and linked account once. Timer firing, coalescing and
 * single-flight execution belong to the scheduling library and are not
 * part of this model.
 */
module SyncJobs {
  import opened Wrappers
  import opened Models

  /** An armed job: the account it syncs, its period in hours and its display name. */
  datatype Job = Job(akahuAccountId: string, intervalHours: int, name: string)

  /** `f"sync_{akahu_account_id}"` */
  function JobId(akahuAccountId: string): (id: string)
    ensures |id| == |akahuAccountId| + 5 && id[..5] == "sync_" && id[5..] == akahuAccountId
  {
    "sync_" + akahuAccountId
  }

  /** `f"Sync {account.account_name or account.akahu_account_id}"` */
  function JobName(account: AkahuAccount): string {
    "Sync " + (if Truthy(account.accountName) then account.accountName.value else account.akahuAccountId)
  }

  /** The job `schedule_account_sync` adds for an enabled account. */
  function JobOf(account: AkahuAccount): (job: Job)
    ensures job.akahuAccountId == account.akahuAccountId && job.intervalHours == account.scheduleIntervalHours
  {
    Job(account.akahuAccountId, account.scheduleIntervalHours, JobName(account))
  }

  /** Every job sits under its own account's id, so an account has at most one job. */
  ghost predicate WellKeyed(jobs: map<string, Job>) {
    forall id :: id in jobs ==> id == JobId(jobs[id].akahuAccountId)
  }

  /** In a well-keyed table, two jobs for the same account are the same entry. */
  lemma OneJobPerAccount(jobs: map<string, Job>, id1: string, id2: string)
    requires WellKeyed(jobs) && id1 in jobs && id2 in jobs
    requires jobs[id1].akahuAccountId == jobs[id2].akahuAccountId
    ensures id1 == id2
  {
  }

  /** The table after `schedule_account_sync(account)`: its old job dropped, a new one added if enabled. */
  function Scheduled(jobs: map<string, Job>, account: AkahuAccount): (r: map<string, Job>)
    ensures JobId(account.akahuAccountId) in r <==> account.scheduleEnabled
    ensures account.scheduleEnabled ==> r[JobId(account.akahuAccountId)] == JobOf(account)
    ensures forall id :: id != JobId(account.akahuAccountId) ==> (id in r <==> id in jobs)
    ensures forall id :: id in r && id != JobId(account.akahuAccountId) ==> r[id] == jobs[id]
    ensures WellKeyed(jobs) ==> WellKeyed(r)
  {
    var removed := jobs - {JobId(account.akahuAccountId)};
    if account.scheduleEnabled then removed[JobId(account.akahuAccountId) := JobOf(account)] else removed
  }

  /** Whether the start-up pass arms an account: its schedule is on and it has a YNAB account. */
  predicate ArmedAtStart(account: AkahuAccount) {
    account.scheduleEnabled && Truthy(account.ynabAccountId)
  }

  /** The table after the start-up pass over `accounts`, in the order the query returns them. */
  function Armed(jobs: map<string, Job>, accounts: seq<AkahuAccount>): map<string, Job>
    decreases |accounts|
  {
    if accounts == [] then jobs
    else
      var before := Armed(jobs, accounts[..|accounts| - 1]);
      var account := accounts[|accounts| - 1];
      if ArmedAtStart(account) then Scheduled(before, account) else before
  }

  /** Account ids are unique in the `akahu_accounts` table. */
  predicate DistinctAccounts(accounts: seq<AkahuAccount>) {
    forall k, l :: 0 <= k < l < |accounts| ==> accounts[k].akahuAccountId != accounts[l].akahuAccountId
  }

  /** The start-up pass arms every enabled and linked account, each with its own interval. */
  lemma {:induction false} ArmedIncludesEnabled(jobs: map<string, Job>, accounts: seq<AkahuAccount>)
    requires DistinctAccounts(accounts)
    ensures var r := Armed(jobs, accounts);
      forall k :: 0 <= k < |accounts| && ArmedAtStart(accounts[k]) ==>
        JobId(accounts[k].akahuAccountId) in r && r[JobId(accounts[k].akahuAccountId)] == JobOf(accounts[k])
    decreases |accounts|
  {
    if accounts != [] {
      var n := |accounts| - 1;
      var init := accounts[..n];
      assert DistinctAccounts(init);
      ArmedIncludesEnabled(jobs, init);
      var account := accounts[n];
      forall k | 0 <= k < n && ArmedAtStart(accounts[k])
        ensures JobId(accounts[k].akahuAccountId) in Armed(jobs, accounts)
        ensures Armed(jobs, accounts)[JobId(accounts[k].akahuAccountId)] == JobOf(accounts[k])
      {
        assert init[k] == accounts[k];
        assert JobId(accounts[k].akahuAccountId)[5..] != JobId(account.akahuAccountId)[5..];
      }
    }
  }

  /** An entry of the table that no enabled and linked account claims is left as it was. */
  lemma {:induction false} ArmedKeepsOthers(jobs: map<string, Job>, accounts: seq<AkahuAccount>, id: string)
    requires id in jobs
    requires forall k :: 0 <= k < |accounts| && ArmedAtStart(accounts[k]) ==> JobId(accounts[k].akahuAccountId) != id
    ensures id in Armed(jobs, accounts) && Armed(jobs, accounts)[id] == jobs[id]
    decreases |accounts|
  {
    if accounts != [] {
      var n := |accounts| - 1;
      assert forall k :: 0 <= k < n ==> accounts[..n][k] == accounts[k];
      ArmedKeepsOthers(jobs, accounts[..n], id);
    }
  }

  /** The start-up pass adds no job but those of enabled and linked accounts. */
  lemma {:induction false} ArmedAddsNothingElse(jobs: map<string, Job>, accounts: seq<AkahuAccount>, id: string)
    requires id in Armed(jobs, accounts) && id !in jobs
    ensures exists k :: 0 <= k < |accounts| && ArmedAtStart(accounts[k]) && JobId(accounts[k].akahuAccountId) == id
    decreases |accounts|
  {
    var n := |accounts| - 1;
    var init := accounts[..n];
    var account := accounts[n];
    if ArmedAtStart(account) && id == JobId(account.akahuAccountId) {
      assert ArmedAtStart(accounts[n]) && JobId(accounts[n].akahuAccountId) == id;
    } else {
      ArmedAddsNothingElse(jobs, init, id);
      var k :| 0 <= k < n && ArmedAtStart(init[k]) && JobId(init[k].akahuAccountId) == id;
      assert accounts[k] == init[k];
    }
  }

  /** The global scheduler: its job table and whether it has been started. */
  class JobTable {
    var jobs: map<string, Job>
    var running: bool

    ghost predicate Valid()
      reads this
    {
      WellKeyed(jobs)
    }

    constructor ()
      ensures Valid() && jobs == map[] && !running
    {
      jobs := map[];
      running := false;
    }

    /** `scheduler.remove_job(job_id)` inside `try: … except: pass`: a missing job is no error. */
    method RemoveJob(jobId: string)
      requires Valid()
      modifies this
      ensures Valid() && jobs == old(jobs) - {jobId} && running == old(running)
    {
      if jobId in jobs {
        jobs := jobs - {jobId};
      }
    }

    /** `schedule_account_sync`: drop the account's job, then add it back only if the schedule is enabled. */
    method ScheduleAccountSync(account: AkahuAccount)
      requires Valid()
      modifies this
      ensures Valid() && jobs == Scheduled(old(jobs), account) && running == old(running)
    {
      var jobId := JobId(account.akahuAccountId);
      RemoveJob(jobId);
      if !account.scheduleEnabled {
        return;
      }
      jobs := jobs[jobId := JobOf(account)];
    }

    /** `remove_account_schedule`: removing a job that is not there changes nothing. */
    method RemoveAccountSchedule(akahuAccountId: string)
      requires Valid()
      modifies this
      ensures Valid() && jobs == old(jobs) - {JobId(akahuAccountId)} && running == old(running)
    {
      RemoveJob(JobId(akahuAccountId));
    }

    /**
     * `initialize_scheduler`: nothing when already running; otherwise start,
     * then arm every account of the enabled-schedule query that is linked.
     */
    method InitializeScheduler(accounts: seq<AkahuAccount>)
      requires Valid()
      modifies this
      ensures Valid() && running
      ensures old(running) ==> jobs == old(jobs)
      ensures !old(running) ==> jobs == Armed(old(jobs), accounts)
    {
      if running {
        return;
      }
      running := true;
      for i := 0 to |accounts|
        invariant Valid() && running
        invariant jobs == Armed(old(jobs), accounts[..i])
      {
        assert accounts[..i + 1][..i] == accounts[..i];
        if accounts[i].ynabAccountId.Some? && accounts[i].ynabAccountId.value != "" && accounts[i].scheduleEnabled {
          ScheduleAccountSync(accounts[i]);
        }
      }
      assert accounts[..|accounts|] == accounts;
    }
  }
}
