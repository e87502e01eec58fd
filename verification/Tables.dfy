/** The tables as mutable row objects and the service functions that update them in place, each proved equal to its
    specification in `Services.dfy`. */
module Tables {
  import opened Domain
  import opened Identifiers
  import opened Configuration
  import M = JobMachine
  import A = Aggregation
  import S = Services
  import I = DatabaseInvariant

  /** The list holds the status of every job of the run once: `statuses[i]` is that of job `ids[i]`; the jobs in
      `left` are still to come. */
  ghost predicate Listed(statuses: seq<JobStatus>, ids: seq<JobId>, jobs: Jobs, r: RunId, left: set<JobId>) {
    && NoDuplicates(ids) && |ids| == |statuses|
    && (forall i :: 0 <= i < |ids| ==>
          A.InRun(jobs, ids[i], r) && ids[i] !in left && statuses[i] == jobs[ids[i]].status)
    && (forall j :: A.InRun(jobs, j, r) && j !in left ==> j in ids)
  }

  lemma ListedOther(statuses: seq<JobStatus>, ids: seq<JobId>, jobs: Jobs, r: RunId, left: set<JobId>, j: JobId)
    requires Listed(statuses, ids, jobs, r, left) && j in jobs && jobs[j].run != r
    ensures Listed(statuses, ids, jobs, r, left - {j})
  {
  }

  lemma ListedNext(statuses: seq<JobStatus>, ids: seq<JobId>, jobs: Jobs, r: RunId, left: set<JobId>, j: JobId)
    requires Listed(statuses, ids, jobs, r, left) && j in left && A.InRun(jobs, j, r)
    ensures Listed(statuses + [jobs[j].status], ids + [j], jobs, r, left - {j})
  {
    var ids', statuses' := ids + [j], statuses + [jobs[j].status];
    forall i | 0 <= i < |ids'|
      ensures A.InRun(jobs, ids'[i], r) && ids'[i] !in left - {j} && statuses'[i] == jobs[ids'[i]].status
    {
      if i < |ids| { assert ids'[i] == ids[i] && statuses'[i] == statuses[i]; }
    }
    forall k | A.InRun(jobs, k, r) && k !in left - {j}
      ensures k in ids'
    {
      if k != j { assert k in ids; }
    }
    assert NoDuplicates(ids') by {
      assert forall i :: 0 <= i < |ids| ==> ids[i] != j;
    }
  }

  lemma StatusOf(statuses: seq<JobStatus>, ids: seq<JobId>, jobs: Jobs, r: RunId, j: JobId) returns (k: nat)
    requires Listed(statuses, ids, jobs, r, {}) && A.InRun(jobs, j, r)
    ensures k < |statuses| && statuses[k] == jobs[j].status
  {
    assert j in ids;
    k :| k < |ids| && ids[k] == j;
  }

  lemma ActiveListed(statuses: seq<JobStatus>, ids: seq<JobId>, jobs: Jobs, r: RunId)
    requires Listed(statuses, ids, jobs, r, {})
    ensures (exists k :: 0 <= k < |statuses| && statuses[k].Active()) <==> A.AnyActive(jobs, r)
  {
    if A.AnyActive(jobs, r) {
      var j :| A.InRun(jobs, j, r) && jobs[j].status.Active();
      var k := StatusOf(statuses, ids, jobs, r, j);
    }
    if k :| 0 <= k < |statuses| && statuses[k].Active() {
      assert A.InRun(jobs, ids[k], r);
    }
  }

  lemma StartedListed(statuses: seq<JobStatus>, ids: seq<JobId>, jobs: Jobs, r: RunId)
    requires Listed(statuses, ids, jobs, r, {})
    ensures (exists k :: 0 <= k < |statuses| && !statuses[k].Queued?) <==> A.AnyStarted(jobs, r)
  {
    if A.AnyStarted(jobs, r) {
      var j :| A.InRun(jobs, j, r) && !jobs[j].status.Queued?;
      var k := StatusOf(statuses, ids, jobs, r, j);
    }
    if k :| 0 <= k < |statuses| && !statuses[k].Queued? {
      assert A.InRun(jobs, ids[k], r);
    }
  }

  lemma PassedListed(statuses: seq<JobStatus>, ids: seq<JobId>, jobs: Jobs, r: RunId)
    requires Listed(statuses, ids, jobs, r, {})
    ensures (forall k :: 0 <= k < |statuses| ==> statuses[k].Passed?) <==> A.AllPassed(jobs, r)
    ensures statuses != [] <==> A.HasJob(jobs, r)
  {
    if !A.AllPassed(jobs, r) {
      var j :| A.InRun(jobs, j, r) && !jobs[j].status.Passed?;
      var k := StatusOf(statuses, ids, jobs, r, j);
    }
    if k :| 0 <= k < |statuses| && !statuses[k].Passed? {
      assert A.InRun(jobs, ids[k], r);
    }
    if A.HasJob(jobs, r) {
      var j :| A.InRun(jobs, j, r);
      var k := StatusOf(statuses, ids, jobs, r, j);
    }
    if statuses != [] { assert A.InRun(jobs, ids[0], r); }
  }

  class DeviceRow {
    var host: bool
    var endpoint: string
    var status: DeviceStatus
    var heartbeat: Option<Time>

    ghost function Value(): Device
      reads this
    {
      Device(host, endpoint, status, heartbeat)
    }

    constructor (host: bool, endpoint: string, status: DeviceStatus, heartbeat: Option<Time>)
      ensures Value() == Device(host, endpoint, status, heartbeat)
    {
      this.host, this.endpoint, this.status, this.heartbeat := host, endpoint, status, heartbeat;
    }

    /** `release_device`. */
    method Release(s: Settings, now: Time)
      modifies this
      ensures Value() == S.Released(s, old(Value()), now)
    {
      if HeartbeatIsFresh(heartbeat, now, s.heartbeatTimeout) {
        status := Online;
      } else {
        status := Offline;
      }
    }
  }

  class RunRow {
    var suite: SuiteId
    var status: RunStatus
    var startedAt: Option<Time>
    var completedAt: Option<Time>

    ghost function Value(): TestRun
      reads this
    {
      TestRun(suite, status, startedAt, completedAt)
    }

    constructor (suite: SuiteId)
      ensures Value() == TestRun(suite, RunQueued, None, None)
    {
      this.suite, status, startedAt, completedAt := suite, RunQueued, None, None;
    }

    /** The part of `recompute_run_status` after the row has been locked: loops over the sibling statuses. */
    method Aggregate(statuses: seq<JobStatus>, now: Time, ghost ids: seq<JobId>, ghost jobs: Jobs, ghost r: RunId)
      requires Listed(statuses, ids, jobs, r, {})
      modifies this
      ensures Value() == A.RecomputeRow(old(Value()), jobs, r, now)
    {
      if status.Terminal() {
        return;
      }
      var anyActive, anyStarted, allPassed := false, false, true;
      for i := 0 to |statuses|
        invariant anyActive <==> exists k :: 0 <= k < i && statuses[k].Active()
        invariant anyStarted <==> exists k :: 0 <= k < i && !statuses[k].Queued?
        invariant allPassed <==> forall k :: 0 <= k < i ==> statuses[k].Passed?
      {
        anyActive := anyActive || statuses[i].Active();
        anyStarted := anyStarted || !statuses[i].Queued?;
        allPassed := allPassed && statuses[i].Passed?;
      }
      ActiveListed(statuses, ids, jobs, r);
      StartedListed(statuses, ids, jobs, r);
      PassedListed(statuses, ids, jobs, r);
      if statuses == [] {
        status := RunQueued;
      } else if anyActive {
        status := if anyStarted then RunRunning else RunQueued;
        if anyStarted && startedAt.None? { startedAt := Some(now); }
        completedAt := None;
      } else {
        status := if allPassed then RunPassed else RunFailed;
        if startedAt.None? { startedAt := Some(now); }
        if completedAt.None? { completedAt := Some(now); }
      }
    }
  }

  class JobRow {
    var run: RunId
    var device: DeviceId
    var status: JobStatus
    var attempts: nat
    var result: Option<string>
    var logs: Option<seq<string>>
    var errorMessage: Option<string>
    var errorDetails: Option<ErrorDetails>
    var startedAt: Option<Time>
    var completedAt: Option<Time>
    var duration: Option<Time>
    var due: Option<Time>
    var lease: Option<Time>
    var worker: Option<TaskId>

    ghost function Value(): Job
      reads this
    {
      Job(run, device, status, attempts, result, logs, errorMessage, errorDetails, startedAt, completedAt, duration,
          due, lease, worker)
    }

    constructor (run: RunId, device: DeviceId)
      ensures Value() == S.NewJob(run, device)
    {
      this.run, this.device, status, attempts := run, device, Queued, 0;
      result, logs, errorMessage, errorDetails := None, None, None, None;
      startedAt, completedAt, duration, due, lease, worker := None, None, None, None, None, None;
    }

    /** `transition_job`; `ok` is false where the source raises, and then nothing has changed. */
    method Transition(target: JobStatus, now: Time) returns (ok: bool)
      modifies this
      ensures ok ==> M.TransitionJob(old(Value()), target, now) == Ok(Value())
      ensures !ok ==> M.TransitionJob(old(Value()), target, now).Err? && Value() == old(Value())
    {
      if status == target {
        return true;
      }
      if target !in M.AllowedTransitions(status) {
        return false;
      }
      status := target;
      if target.Running? {
        if startedAt.None? { startedAt := Some(now); }
        completedAt := None;
      } else if target.Retrying? {
        completedAt := None;
      } else if target.Terminal() {
        completedAt := Some(now);
        lease := None;
        due := None;
      }
      return true;
    }

    /** The assignments of `_claim` to the row it has locked. */
    method TakeClaim(s: Settings, task: TaskId, timeout: Time, now: Time)
      requires M.Claimable(Value(), now)
      modifies this
      ensures Value() == M.Effect(s, M.Claim(task, timeout), old(Value()), now)
    {
      var _ := Transition(Running, now);
      attempts := attempts + 1;
      due := None;
      lease := Some(now + (timeout + s.leaseGrace));
      worker := Some(task);
    }

    /** The assignments of `_handle_retryable_failure`. */
    method WaitForRetry(s: Settings, c: S.Claimed, kind: ErrorKind, message: string, elapsed: Time, now: Time)
      requires M.OwnsRunningAttempt(Value(), c.task)
      modifies this
      ensures Value() == M.Effect(s, M.Retry(c.task, c.attempt, kind, message, elapsed), old(Value()), now)
    {
      var delay := Delay(s, c.attempt);
      var _ := Transition(Retrying, now);
      due := Some(now + delay);
      lease := None;
      errorMessage := Some(message);
      errorDetails := Some(ErrorDetails(kind, true, Some(delay)));
      duration := Some(elapsed);
    }

    /** The assignments of `_finish`. */
    method Conclude(s: Settings, task: TaskId, target: TerminalStatus, elapsed: Time, result: Option<string>,
                    logs: Option<seq<string>>, error: Option<string>, details: Option<ErrorDetails>, now: Time)
      requires M.OwnsRunningAttempt(Value(), task)
      modifies this
      ensures Value() == M.Effect(s, M.Finish(task, target, elapsed, result, logs, error, details), old(Value()), now)
    {
      var _ := Transition(target, now);
      this.result, this.logs := result, logs;
      errorMessage, errorDetails := error, details;
      duration := Some(elapsed);
    }

    /** The assignments of the recovery loop. */
    method LoseLease(s: Settings, now: Time)
      requires M.LeaseExpired(Value(), now)
      modifies this
      ensures Value() == M.Effect(s, M.Expire, old(Value()), now)
    {
      if attempts >= s.maxAttempts {
        var _ := Transition(Failed, now);
        errorMessage := Some(M.LEASE_EXPIRED_FINALLY);
        errorDetails := Some(ErrorDetails(WorkerLeaseExpired, true, None));
      } else {
        var _ := Transition(Retrying, now);
        due := Some(now);
        lease := None;
        errorMessage := Some(M.LEASE_EXPIRED);
        errorDetails := Some(ErrorDetails(WorkerLeaseExpired, true, None));
      }
    }
  }

  /** A job transaction taken apart: job row, device row, then the run aggregated over the new jobs. */
  lemma PerformedInSteps(s: Settings, db: Db, a: M.Action, j: JobId, now: Time, device: Device)
    requires S.Refs(db) && j in db.jobs && M.Accepts(a, db.jobs[j], now)
    requires device == if M.Effect(s, a, db.jobs[j], now).status.Terminal()
                       then S.Released(s, db.devices[db.jobs[j].device], now)
                       else db.devices[db.jobs[j].device]
    ensures var jobs', job := db.jobs[j := M.Effect(s, a, db.jobs[j], now)], db.jobs[j];
      S.Perform(s, db, a, j, now) ==
        Db(db.suites, db.devices[job.device := device], jobs', S.Reaggregated(db.runs, jobs', job.run, now))
  {
    assert db.devices[db.jobs[j].device := db.devices[db.jobs[j].device]] == db.devices;
  }

  lemma ExpiredInTurn(s: Settings, db: Db, rows: seq<JobId>, i: nat, now: Time)
    requires s.Valid() && S.Refs(db) && S.ExpiredRows(db, rows, now) && i < |rows|
    ensures var midway := S.ExpireAll(s, db, rows[..i], now);
      && rows[i] in midway.jobs && M.LeaseExpired(midway.jobs[rows[i]], now)
      && S.ExpireAll(s, db, rows[..i + 1], now) == S.Perform(s, midway, M.Expire, rows[i], now)
  {
    assert S.ExpiredRows(db, rows[..i], now);
    assert rows[i] !in rows[..i];
    I.ExpireAllRows(s, db, rows[..i], now);
    assert rows[..i + 1][..i] == rows[..i];
  }

  ghost function WithOffline(devices: Devices, changed: set<DeviceId>): Devices {
    map d | d in devices :: if d in changed then devices[d].(status := Offline) else devices[d]
  }

  lemma StaleGoOffline(s: Settings, db: Db, changed: set<DeviceId>, now: Time)
    requires changed == set d | d in db.devices && S.Stale(s, db.devices[d], now)
    ensures S.MarkStaleDevicesOffline(s, db, now) == db.(devices := WithOffline(db.devices, changed))
  {
  }

  /** A heartbeat taken apart: its instant, then the status. */
  lemma HeartbeatInSteps(db: Db, d: DeviceId, now: Time)
    requires d in db.devices
    ensures var heard := db.(devices := db.devices[d := db.devices[d].(heartbeat := Some(now))]);
      S.RecordHeartbeat(db, d, now) ==
        Ok(heard.(devices := heard.devices[d := heard.devices[d].(status := S.SeenStatus(heard.jobs, d))]))
  {
    var heard := db.devices[d].(heartbeat := Some(now));
    var seen := heard.(status := S.SeenStatus(db.jobs, d));
    assert db.devices[d := heard][d := seen] == db.devices[d := seen];
  }

  class Database {
    var suites: set<SuiteId>
    var devices: map<DeviceId, DeviceRow>
    var jobs: map<JobId, JobRow>
    var runs: map<RunId, RunRow>

    ghost function DeviceTable(): Devices
      reads this`devices, devices.Values
    {
      map d | d in devices :: devices[d].Value()
    }

    ghost function JobTable(): Jobs
      reads this`jobs, jobs.Values
    {
      map j | j in jobs :: jobs[j].Value()
    }

    ghost function RunTable(): Runs
      reads this`runs, runs.Values
    {
      map r | r in runs :: runs[r].Value()
    }

    ghost function View(): Db
      reads this, devices.Values, jobs.Values, runs.Values
    {
      Db(suites, DeviceTable(), JobTable(), RunTable())
    }

    /** Every key has its own row object, and the foreign keys of the job table hold. */
    ghost predicate Valid()
      reads this, devices.Values, jobs.Values, runs.Values
    {
      && (forall d, e :: d in devices && e in devices && d != e ==> devices[d] != devices[e])
      && (forall j, k :: j in jobs && k in jobs && j != k ==> jobs[j] != jobs[k])
      && (forall r, q :: r in runs && q in runs && r != q ==> runs[r] != runs[q])
      && S.Refs(View())
    }

    /** No row object was added, replaced or removed. */
    twostate predicate SameRows()
      reads this
    {
      suites == old(suites) && devices == old(devices) && jobs == old(jobs) && runs == old(runs)
    }

    constructor (suites: set<SuiteId>)
      ensures Valid() && View() == Db(suites, map[], map[], map[])
    {
      this.suites, devices, jobs, runs := suites, map[], map[], map[];
    }

    // -------------------------------------------------------------- runs

    /** The status column of the jobs of a run, in some order, each job once. */
    method SelectStatuses(r: RunId) returns (statuses: seq<JobStatus>, ghost ids: seq<JobId>)
      requires Valid()
      ensures Listed(statuses, ids, View().jobs, r, {})
    {
      statuses, ids := [], [];
      ghost var rows := View().jobs;
      var left := jobs.Keys;
      while left != {}
        invariant left <= jobs.Keys
        invariant Listed(statuses, ids, rows, r, left)
        decreases left
      {
        var j :| j in left;
        assert rows[j] == jobs[j].Value();
        if jobs[j].run == r {
          ListedNext(statuses, ids, rows, r, left, j);
          statuses, ids := statuses + [jobs[j].status], ids + [j];
        } else {
          ListedOther(statuses, ids, rows, r, left, j);
        }
        left := left - {j};
      }
    }

    /** Only the row of run `r` has changed. */
    twostate lemma RunRowChanged(r: RunId)
      requires old(Valid()) && SameRows() && r in runs
      requires forall d :: d in devices ==> unchanged(devices[d])
      requires forall j :: j in jobs ==> unchanged(jobs[j])
      requires forall q :: q in runs && q != r ==> unchanged(runs[q])
      ensures View() == old(View()).(runs := old(View()).runs[r := runs[r].Value()]) && Valid()
    {
      assert JobTable() == old(JobTable()) && DeviceTable() == old(DeviceTable());
      assert RunTable() == old(RunTable())[r := runs[r].Value()];
    }

    /** `recompute_run_status`; `found` is false where the source raises TestRunNotFoundError. */
    method RecomputeRunStatus(r: RunId, now: Time) returns (found: bool)
      requires Valid()
      modifies runs.Values
      ensures Valid() && SameRows()
      ensures found == (r in runs)
      ensures View() == if found then old(View()).(runs := S.Reaggregated(old(View()).runs, old(View()).jobs, r, now))
                        else old(View())
    {
      if r !in runs {
        return false;
      }
      var statuses;
      ghost var ids;
      statuses, ids := SelectStatuses(r);
      AggregateRow(r, statuses, now, ids);
      return true;
    }

    /** The part of it that writes. */
    method AggregateRow(r: RunId, statuses: seq<JobStatus>, now: Time, ghost ids: seq<JobId>)
      requires Valid() && r in runs && Listed(statuses, ids, View().jobs, r, {})
      modifies runs.Values
      ensures Valid() && SameRows()
      ensures View() == old(View()).(runs := S.Reaggregated(old(View()).runs, old(View()).jobs, r, now))
    {
      assert View().runs[r] == runs[r].Value();
      runs[r].Aggregate(statuses, now, ids, View().jobs, r);
      RunRowChanged(r);
    }

    // -------------------------------------------------------------- worker transactions

    twostate lemma JobTableChanged(j: JobId)
      requires jobs == old(jobs) && j in jobs
      requires forall k :: k in jobs && k != j ==> unchanged(jobs[k])
      ensures JobTable() == old(JobTable())[j := jobs[j].Value()]
    {
      forall k | k in jobs && k != j
        ensures jobs[k].Value() == old(jobs[k].Value())
      {
      }
    }

    twostate lemma DeviceTableChanged(d: DeviceId)
      requires devices == old(devices) && d in devices
      requires forall e :: e in devices && e != d ==> unchanged(devices[e])
      ensures DeviceTable() == old(DeviceTable())[d := devices[d].Value()]
    {
    }

    /** Only the row of job `j` and, possibly, the row of its device have changed. */
    twostate lemma JobRowChanged(j: JobId)
      requires old(Valid()) && SameRows() && j in jobs
      requires jobs[j].run == old(jobs[j].run) && jobs[j].device == old(jobs[j].device)
      requires forall d :: d in devices && d != jobs[j].device ==> unchanged(devices[d])
      requires forall k :: k in jobs && k != j ==> unchanged(jobs[k])
      requires forall r :: r in runs ==> unchanged(runs[r])
      ensures jobs[j].device in devices && jobs[j].run in runs
      ensures View() == old(View()).(jobs := old(View()).jobs[j := jobs[j].Value()],
                                     devices := old(View()).devices[jobs[j].device := devices[jobs[j].device].Value()])
      ensures Valid()
    {
      assert old(View().jobs[j]) == old(jobs[j].Value());
      JobTableChanged(j);
      DeviceTableChanged(jobs[j].device);
      assert RunTable() == old(RunTable());
    }

    /** The reading part of `JobExecutor._claim`: its guard on the locked row and the claim it will hand out. */
    method PlanClaim(s: Settings, j: JobId, task: TaskId, now: Time) returns (claim: Option<S.Claimed>)
      requires Valid()
      ensures claim == S.ClaimResult(s, View(), j, task, now)
    {
      if j !in jobs {
        return None;
      }
      var job := jobs[j];
      assert View().jobs[j] == job.Value();
      if job.status !in {Queued, Retrying} {
        return None;
      }
      if job.status.Retrying? && job.due.Some? && job.due.value > now {
        return None;
      }
      var device := devices[job.device];
      assert View().devices[job.device] == device.Value();
      var timeout := if device.host then s.hostJobTimeout else s.jobTimeout;
      return Some(S.Claimed(task, j, job.attempts + 1, timeout));
    }

    /** Its writing part. */
    method StartAttempt(s: Settings, j: JobId, task: TaskId, timeout: Time, now: Time)
      requires Valid() && j in View().jobs && M.Claimable(View().jobs[j], now)
      modifies jobs.Values, runs.Values
      ensures Valid() && SameRows()
      ensures View() == S.Perform(s, old(View()), M.Claim(task, timeout), j, now)
    {
      var job := jobs[j];
      assert View().jobs[j] == job.Value();
      PerformedInSteps(s, View(), M.Claim(task, timeout), j, now, devices[job.device].Value());
      job.TakeClaim(s, task, timeout, now);
      JobRowChanged(j);
      var _ := RecomputeRunStatus(job.run, now);
    }

    /** `JobExecutor._claim`. */
    method ClaimJob(s: Settings, j: JobId, task: TaskId, now: Time) returns (claim: Option<S.Claimed>)
      requires Valid()
      modifies jobs.Values, runs.Values
      ensures Valid() && SameRows()
      ensures View() == S.ClaimJob(s, old(View()), j, task, now)
      ensures claim == S.ClaimResult(s, old(View()), j, task, now)
    {
      claim := PlanClaim(s, j, task, now);
      if claim.Some? {
        StartAttempt(s, j, task, claim.value.timeout, now);
      }
    }

    /** `JobExecutor._finish` after its ownership check. */
    method FinishOwned(s: Settings, j: JobId, task: TaskId, target: TerminalStatus, elapsed: Time,
                       result: Option<string>, logs: Option<seq<string>>, error: Option<string>,
                       details: Option<ErrorDetails>, now: Time)
      requires Valid() && j in View().jobs && M.OwnsRunningAttempt(View().jobs[j], task)
      modifies jobs.Values, runs.Values, devices.Values
      ensures Valid() && SameRows()
      ensures View() ==
              S.Perform(s, old(View()), M.Finish(task, target, elapsed, result, logs, error, details), j, now)
    {
      var job := jobs[j];
      assert View().jobs[j] == job.Value();
      PerformedInSteps(s, View(), M.Finish(task, target, elapsed, result, logs, error, details), j, now,
                       S.Released(s, devices[job.device].Value(), now));
      job.Conclude(s, task, target, elapsed, result, logs, error, details, now);
      devices[job.device].Release(s, now);
      JobRowChanged(j);
      var _ := RecomputeRunStatus(job.run, now);
    }

    /** `_owns_running_attempt` on the locked row. */
    method OwnsRunningAttempt(j: JobId, task: TaskId) returns (owns: bool)
      requires Valid()
      ensures owns <==> j in View().jobs && M.OwnsRunningAttempt(View().jobs[j], task)
    {
      owns := j in jobs && jobs[j].status.Running? && jobs[j].worker == Some(task);
      assert j in jobs ==> View().jobs[j] == jobs[j].Value();
    }

    /** `JobExecutor._finish`. */
    method Finish(s: Settings, j: JobId, task: TaskId, target: TerminalStatus, elapsed: Time, result: Option<string>,
                  logs: Option<seq<string>>, error: Option<string>, details: Option<ErrorDetails>, now: Time)
      requires Valid()
      modifies jobs.Values, runs.Values, devices.Values
      ensures Valid() && SameRows()
      ensures View() ==
              S.Perform(s, old(View()), M.Finish(task, target, elapsed, result, logs, error, details), j, now)
    {
      var owns := OwnsRunningAttempt(j, task);
      if owns {
        FinishOwned(s, j, task, target, elapsed, result, logs, error, details, now);
      }
    }

    /** `JobExecutor._handle_retryable_failure` after its ownership check. */
    method RetryOwned(s: Settings, c: S.Claimed, kind: ErrorKind, message: string, elapsed: Time, now: Time)
      requires Valid() && c.job in View().jobs && M.OwnsRunningAttempt(View().jobs[c.job], c.task)
      modifies jobs.Values, runs.Values
      ensures Valid() && SameRows()
      ensures View() == S.Perform(s, old(View()), M.Retry(c.task, c.attempt, kind, message, elapsed), c.job, now)
    {
      var job := jobs[c.job];
      assert View().jobs[c.job] == job.Value();
      PerformedInSteps(s, View(), M.Retry(c.task, c.attempt, kind, message, elapsed), c.job, now,
                       devices[job.device].Value());
      job.WaitForRetry(s, c, kind, message, elapsed, now);
      JobRowChanged(c.job);
      var _ := RecomputeRunStatus(job.run, now);
    }

    /** Its branch for the last attempt. */
    method GiveUp(s: Settings, c: S.Claimed, kind: ErrorKind, message: string, exhausted: TerminalStatus, elapsed: Time,
                  now: Time)
      requires Valid() && c.attempt >= s.maxAttempts
      modifies jobs.Values, runs.Values, devices.Values
      ensures Valid() && SameRows()
      ensures View() ==
              S.Perform(s, old(View()), S.RetryableFailure(s, c, kind, message, exhausted, elapsed), c.job, now)
    {
      var details := ErrorDetails(kind, true, None);
      Finish(s, c.job, c.task, exhausted, elapsed, None, None, Some(message), Some(details), now);
    }

    /** Its branch for an earlier attempt. */
    method TryAgain(s: Settings, c: S.Claimed, kind: ErrorKind, message: string, elapsed: Time, now: Time)
      returns (retrying: bool)
      requires Valid()
      modifies jobs.Values, runs.Values
      ensures Valid() && SameRows()
      ensures View() == S.Perform(s, old(View()), M.Retry(c.task, c.attempt, kind, message, elapsed), c.job, now)
      ensures retrying <==> c.job in old(View()).jobs && M.OwnsRunningAttempt(old(View()).jobs[c.job], c.task)
    {
      retrying := OwnsRunningAttempt(c.job, c.task);
      if retrying {
        RetryOwned(s, c, kind, message, elapsed, now);
      }
    }

    /** `JobExecutor._handle_retryable_failure`; the caller publishes the job again if `retrying`. */
    method HandleRetryableFailure(s: Settings, c: S.Claimed, kind: ErrorKind, message: string,
                                  exhausted: TerminalStatus, elapsed: Time, now: Time) returns (retrying: bool)
      requires Valid()
      modifies jobs.Values, runs.Values, devices.Values
      ensures Valid() && SameRows()
      ensures View() ==
              S.Perform(s, old(View()), S.RetryableFailure(s, c, kind, message, exhausted, elapsed), c.job, now)
      ensures retrying <==>
        c.attempt < s.maxAttempts && c.job in old(View()).jobs && M.OwnsRunningAttempt(old(View()).jobs[c.job], c.task)
    {
      if c.attempt >= s.maxAttempts {
        GiveUp(s, c, kind, message, exhausted, elapsed, now);
        retrying := false;
      } else {
        retrying := TryAgain(s, c, kind, message, elapsed, now);
      }
    }

    /** The device has answered. */
    method EndResponded(s: Settings, c: S.Claimed, r: S.Response, elapsed: Time, now: Time)
      requires Valid()
      modifies jobs.Values, runs.Values, devices.Values
      ensures Valid() && SameRows()
      ensures View() == S.EndAttempt(s, old(View()), c, S.Responded(r), elapsed, now)
    {
      var target := if r.passed then Passed else Failed;
      Finish(s, c.job, c.task, target, Seconds(r.durationMs), Some(r.result), Some(r.logs), r.error, None, now);
    }

    /** The call has failed for good. */
    method EndPermanent(s: Settings, c: S.Claimed, message: string, elapsed: Time, now: Time)
      requires Valid()
      modifies jobs.Values, runs.Values, devices.Values
      ensures Valid() && SameRows()
      ensures View() == S.EndAttempt(s, old(View()), c, S.CallPermanent(message), elapsed, now)
    {
      var details := ErrorDetails(PermanentDevice, false, None);
      Finish(s, c.job, c.task, Failed, elapsed, None, None, Some(message), Some(details), now);
    }

    /** The call has failed in a way that another attempt may cure. */
    method EndRetryable(s: Settings, c: S.Claimed, outcome: S.CallOutcome, elapsed: Time, now: Time)
      requires Valid() && !outcome.Responded? && !outcome.CallPermanent?
      modifies jobs.Values, runs.Values, devices.Values
      ensures Valid() && SameRows()
      ensures View() == S.EndAttempt(s, old(View()), c, outcome, elapsed, now)
    {
      var kind := match outcome
        case CallTimedOut(_) => DeviceTimeout
        case CallTransient(_) => TransientDevice
        case _ => Unexpected;
      var exhausted := if outcome.CallTimedOut? then TimedOut else Failed;
      var _ := HandleRetryableFailure(s, c, kind, outcome.message, exhausted, elapsed, now);
    }

    /** What `JobExecutor.execute` does after the device call. */
    method EndAttempt(s: Settings, c: S.Claimed, outcome: S.CallOutcome, elapsed: Time, now: Time)
      requires Valid()
      modifies jobs.Values, runs.Values, devices.Values
      ensures Valid() && SameRows()
      ensures View() == S.EndAttempt(s, old(View()), c, outcome, elapsed, now)
    {
      if outcome.Responded? {
        EndResponded(s, c, outcome.response, elapsed, now);
      } else if outcome.CallPermanent? {
        EndPermanent(s, c, outcome.message, elapsed, now);
      } else {
        EndRetryable(s, c, outcome, elapsed, now);
      }
    }

    // -------------------------------------------------------------- reconciler

    /** The body of the loop in `reconcile_dispatchable_jobs`. */
    method ExpireJob(s: Settings, j: JobId, now: Time)
      requires Valid() && j in View().jobs && M.LeaseExpired(View().jobs[j], now)
      modifies jobs.Values, runs.Values, devices.Values
      ensures Valid() && SameRows()
      ensures View() == S.Perform(s, old(View()), M.Expire, j, now)
    {
      var job := jobs[j];
      assert View().jobs[j] == job.Value();
      ghost var device := devices[job.device].Value();
      PerformedInSteps(s, View(), M.Expire, j, now,
                       if job.attempts >= s.maxAttempts then S.Released(s, device, now) else device);
      job.LoseLease(s, now);
      if job.attempts >= s.maxAttempts {
        devices[job.device].Release(s, now);
      }
      JobRowChanged(j);
      var _ := RecomputeRunStatus(job.run, now);
    }

    /** The dispatch query. */
    method SelectDispatchable(now: Time) returns (ids: set<JobId>)
      requires Valid()
      ensures ids == S.DispatchIds(View(), now)
    {
      ids := set j | j in jobs && (jobs[j].status.Queued?
               || (jobs[j].status.Retrying? && (jobs[j].due.None? || jobs[j].due.value <= now)));
      assert forall j :: j in jobs ==> View().jobs[j] == jobs[j].Value();
    }

    /** The recovery loop of `reconcile_dispatchable_jobs`. */
    method ExpireJobs(s: Settings, expired: seq<JobId>, now: Time)
      requires Valid() && s.Valid() && S.ExpiredRows(View(), expired, now)
      modifies jobs.Values, runs.Values, devices.Values
      ensures Valid() && SameRows()
      ensures View() == S.ExpireAll(s, old(View()), expired, now)
    {
      for i := 0 to |expired|
        invariant Valid() && SameRows()
        invariant View() == S.ExpireAll(s, old(View()), expired[..i], now)
      {
        ExpiredInTurn(s, old(View()), expired, i, now);
        ExpireJob(s, expired[i], now);
      }
      assert expired[..|expired|] == expired;
    }

    /** `reconcile_dispatchable_jobs`, given the rows that the lease query returned, in its order. */
    method ReconcileDispatchableJobs(s: Settings, expired: seq<JobId>, now: Time) returns (ids: set<JobId>)
      requires Valid() && s.Valid() && S.ExpiredRows(View(), expired, now)
      modifies jobs.Values, runs.Values, devices.Values
      ensures Valid() && SameRows()
      ensures View() == S.Reconcile(s, old(View()), expired, now).0
      ensures ids == S.Reconcile(s, old(View()), expired, now).1
    {
      ExpireJobs(s, expired, now);
      ids := SelectDispatchable(now);
    }

    // -------------------------------------------------------------- devices

    /** Only the row of device `d` has changed. */
    twostate lemma DeviceRowChanged(d: DeviceId)
      requires old(Valid()) && SameRows() && d in devices
      requires forall e :: e in devices && e != d ==> unchanged(devices[e])
      requires forall j :: j in jobs ==> unchanged(jobs[j])
      requires forall r :: r in runs ==> unchanged(runs[r])
      ensures View() == old(View()).(devices := old(View()).devices[d := devices[d].Value()]) && Valid()
    {
      var before := old(View());
      assert View().jobs == before.jobs;
      assert View().devices == before.devices[d := devices[d].Value()];
      assert View().runs == before.runs;
    }

    /** `_has_active_job`. */
    method HasActiveJob(d: DeviceId) returns (active: bool)
      requires Valid()
      ensures active == S.HasActiveJob(View().jobs, d)
    {
      active := exists j | j in jobs :: jobs[j].device == d && jobs[j].status.Active();
      assert forall j :: j in jobs ==> View().jobs[j] == jobs[j].Value();
      if active {
        var j :| j in jobs && jobs[j].device == d && jobs[j].status.Active();
        assert View().jobs[j].device == d;
      }
    }

    /** Device `d` has a new row and nothing else has changed. */
    twostate lemma DeviceAdded(d: DeviceId, new row: DeviceRow)
      requires old(Valid()) && !old(allocated(row)) && d !in old(devices)
      requires suites == old(suites) && jobs == old(jobs) && runs == old(runs) && devices == old(devices)[d := row]
      requires forall e :: e in old(devices) ==> unchanged(old(devices[e]))
      requires forall k :: k in jobs ==> unchanged(jobs[k])
      requires forall r :: r in runs ==> unchanged(runs[r])
      ensures View() == old(View()).(devices := old(View()).devices[d := row.Value()]) && Valid()
    {
      var before := old(View());
      assert View().jobs == before.jobs;
      assert View().runs == before.runs;
      assert View().devices == before.devices[d := row.Value()];
    }

    /** Add the row of a device that registers for the first time. */
    method InsertDevice(d: DeviceId, host: bool, endpoint: string, now: Time)
      requires Valid() && d !in devices
      modifies this`devices
      ensures Valid() && suites == old(suites) && jobs == old(jobs) && runs == old(runs)
      ensures View() == old(View()).(devices := old(View()).devices[d := Device(host, endpoint, Online, Some(now))])
    {
      var device := new DeviceRow(host, endpoint, Online, Some(now));
      devices := devices[d := device];
      DeviceAdded(d, device);
    }

    /** `register_device`. */
    method RegisterDevice(d: DeviceId, host: bool, endpoint: string, now: Time)
      requires Valid()
      modifies this`devices, devices.Values
      ensures Valid() && View() == S.RegisterDevice(old(View()), d, host, endpoint, now)
    {
      if d !in devices {
        InsertDevice(d, host, endpoint, now);
      } else {
        var active := HasActiveJob(d);
        var device := devices[d];
        device.host, device.endpoint, device.heartbeat := host, endpoint, Some(now);
        device.status := if active then Busy else Online;
        DeviceRowChanged(d);
      }
    }

    /** `record_heartbeat`; `found` is false where the source raises DeviceNotFoundError. */
    method RecordHeartbeat(d: DeviceId, now: Time) returns (found: bool)
      requires Valid()
      modifies devices.Values
      ensures Valid() && SameRows()
      ensures found == S.RecordHeartbeat(old(View()), d, now).Ok?
      ensures View() == if found then S.RecordHeartbeat(old(View()), d, now).value else old(View())
    {
      if d !in devices {
        return false;
      }
      HeartbeatInSteps(View(), d, now);
      Receive(d, now);
      ShowSeen(d);
      return true;
    }

    /** Its first assignment. */
    method Receive(d: DeviceId, now: Time)
      requires Valid() && d in devices
      modifies devices[d]
      ensures Valid() && SameRows()
      ensures View() == old(View()).(devices :=
                old(View()).devices[d := old(View()).devices[d].(heartbeat := Some(now))])
    {
      assert View().devices[d] == devices[d].Value();
      devices[d].heartbeat := Some(now);
      DeviceRowChanged(d);
    }

    method SetStatus(d: DeviceId, status: DeviceStatus)
      requires Valid() && d in devices
      modifies devices[d]
      ensures Valid() && SameRows()
      ensures View() == old(View()).(devices := old(View()).devices[d := old(View()).devices[d].(status := status)])
    {
      assert View().devices[d] == devices[d].Value();
      devices[d].status := status;
      DeviceRowChanged(d);
    }

    /** The assignment of the status that a heartbeat shows. */
    method ShowSeen(d: DeviceId)
      requires Valid() && d in devices
      modifies devices[d]
      ensures Valid() && SameRows()
      ensures View() == old(View()).(devices :=
                old(View()).devices[d := old(View()).devices[d].(status := S.SeenStatus(old(View()).jobs, d))])
    {
      var active := HasActiveJob(d);
      SetStatus(d, if active then Busy else Online);
    }

    /** The row count of the UPDATE statement, as the set of rows it matches. */
    method SelectStale(s: Settings, now: Time) returns (stale: set<DeviceId>)
      requires Valid()
      ensures stale == set d | d in View().devices && S.Stale(s, View().devices[d], now)
    {
      stale := set d | d in devices && devices[d].status in {Online, Busy}
        && (devices[d].heartbeat.None? || devices[d].heartbeat.value <= now - s.heartbeatTimeout);
      assert forall d :: d in devices ==> View().devices[d] == devices[d].Value();
    }

    /** Only the status of the devices in `changed` has become `Offline`. */
    twostate lemma DevicesOffline(changed: set<DeviceId>)
      requires old(Valid()) && SameRows() && changed <= devices.Keys
      requires forall d :: d in changed ==> devices[d].Value() == old(devices[d].Value()).(status := Offline)
      requires forall d :: d in devices && d !in changed ==> unchanged(devices[d])
      requires forall j :: j in jobs ==> unchanged(jobs[j])
      requires forall r :: r in runs ==> unchanged(runs[r])
      ensures Valid()
      ensures View() == old(View()).(devices := WithOffline(old(View()).devices, changed))
    {
      assert JobTable() == old(JobTable()) && RunTable() == old(RunTable());
      assert DeviceTable() == WithOffline(old(DeviceTable()), changed);
    }

    /** `mark_stale_devices_offline`: one UPDATE statement; `changed` are the rows it counts. */
    method MarkStaleDevicesOffline(s: Settings, now: Time) returns (changed: set<DeviceId>)
      requires Valid()
      modifies devices.Values
      ensures Valid() && SameRows()
      ensures View() == S.MarkStaleDevicesOffline(s, old(View()), now)
      ensures changed == set d | d in old(View()).devices && S.Stale(s, old(View()).devices[d], now)
    {
      changed := SelectStale(s, now);
      StaleGoOffline(s, View(), changed, now);
      forall d | d in changed {
        devices[d].status := Offline;
      }
      DevicesOffline(changed);
    }

    // -------------------------------------------------------------- reservation

    /** `create_run`, given the rows that the locking query returned. Nothing is written before both checks pass. */
    method CreateRun(s: Settings, request: S.RunRequest, rows: seq<DeviceId>, ghost unlocked: set<DeviceId>, run: RunId,
                     ids: map<DeviceId, JobId>, now: Time) returns (error: Option<S.CreateError>)
      requires Valid() && S.FreshIds(View(), run, ids)
      requires Elements(rows) == S.Selected(s, View(), request, unlocked, now)
      requires NoDuplicates(rows)
      modifies this`runs, this`jobs, devices.Values
      ensures Valid()
      ensures error.Some? ==>
        S.CreateRun(s, old(View()), request, unlocked, run, ids, now) == Err(error.value) && View() == old(View())
      ensures error.None? ==> S.CreateRun(s, old(View()), request, unlocked, run, ids, now) == Ok(View())
    {
      ElementsSize(rows);
      if request.suite !in suites {
        return Some(S.TestSuiteNotFound);
      }
      if request.devices.Some? && |rows| != |request.devices.value| {
        return Some(S.NoAvailableDevices);
      }
      if rows == [] {
        return Some(S.NoAvailableDevices);
      }
      ghost var before := View();
      AddRun(run, request.suite);
      ReserveAll(rows, run, ids, before);
      return None;
    }

    /** Add a queued run without jobs. */
    method AddRun(run: RunId, suite: SuiteId)
      requires Valid() && run !in runs
      modifies this`runs
      ensures Valid() && suites == old(suites) && devices == old(devices) && jobs == old(jobs)
      ensures View() == old(View()).(runs := old(View()).runs[run := TestRun(suite, RunQueued, None, None)])
      ensures run in runs
    {
      var row := new RunRow(suite);
      runs := runs[run := row];
      RunAdded(run, row);
    }

    /** Run `r` has a new row and nothing else has changed. */
    twostate lemma RunAdded(r: RunId, new row: RunRow)
      requires old(Valid()) && !old(allocated(row)) && r !in old(runs)
      requires suites == old(suites) && devices == old(devices) && jobs == old(jobs) && runs == old(runs)[r := row]
      requires forall d :: d in devices ==> unchanged(devices[d])
      requires forall k :: k in jobs ==> unchanged(jobs[k])
      requires forall q :: q in old(runs) ==> unchanged(old(runs[q]))
      ensures View() == old(View()).(runs := old(View()).runs[r := row.Value()]) && Valid()
    {
      var before := old(View());
      assert View().devices == before.devices;
      assert View().jobs == before.jobs;
      assert View().runs == before.runs[r := row.Value()];
    }

    /** The loop of `create_run`. */
    method ReserveAll(rows: seq<DeviceId>, run: RunId, ids: map<DeviceId, JobId>, ghost before: Db)
      requires Valid() && run in runs && S.FreshIds(before, run, ids)
      requires View().devices == before.devices && View().jobs == before.jobs && Elements(rows) <= before.devices.Keys
      requires NoDuplicates(rows)
      modifies this`jobs, devices.Values
      ensures Valid()
      ensures View() == old(View()).(devices := S.Reserved(before.devices, Elements(rows)),
                                     jobs := before.jobs + S.NewJobs(Elements(rows), run, ids))
    {
      ReservedNone(before, run, ids);
      for i := 0 to |rows|
        invariant Valid() && suites == old(suites) && devices == old(devices) && runs == old(runs)
        invariant View() == old(View()).(devices := S.Reserved(before.devices, Elements(rows[..i])),
                                         jobs := before.jobs + S.NewJobs(Elements(rows[..i]), run, ids))
      {
        ReservedSnoc(before, rows, i, run, ids);
        Reserve(run, rows[i], ids[rows[i]]);
      }
      assert rows[..|rows|] == rows;
    }

    twostate lemma JobTableAdded(j: JobId, new row: JobRow)
      requires j !in old(jobs) && jobs == old(jobs)[j := row]
      requires forall k :: k in old(jobs) ==> unchanged(old(jobs[k]))
      ensures JobTable() == old(JobTable())[j := row.Value()]
    {
      forall k | k in old(jobs)
        ensures jobs[k].Value() == old(jobs[k].Value())
      {
      }
    }

    /** Job `j` has a new row and nothing else has changed. */
    twostate lemma JobAdded(j: JobId, new row: JobRow)
      requires old(Valid()) && !old(allocated(row)) && j !in old(jobs)
      requires suites == old(suites) && devices == old(devices) && runs == old(runs) && jobs == old(jobs)[j := row]
      requires row.run in runs && row.device in devices
      requires forall d :: d in devices ==> unchanged(devices[d])
      requires forall k :: k in old(jobs) ==> unchanged(old(jobs[k]))
      requires forall r :: r in runs ==> unchanged(runs[r])
      ensures View() == old(View()).(jobs := old(View()).jobs[j := row.Value()]) && Valid()
    {
      JobTableAdded(j, row);
      assert DeviceTable() == old(DeviceTable()) && RunTable() == old(RunTable());
    }

    /** Add a queued job. */
    method AddJob(run: RunId, d: DeviceId, j: JobId)
      requires Valid() && run in runs && d in devices && j !in jobs
      modifies this`jobs
      ensures Valid() && suites == old(suites) && devices == old(devices) && runs == old(runs)
      ensures fresh(jobs.Values - old(jobs.Values))
      ensures View() == old(View()).(jobs := old(View()).jobs[j := S.NewJob(run, d)])
    {
      var job := new JobRow(run, d);
      jobs := jobs[j := job];
      JobAdded(j, job);
    }

    /** The body of the loop: the device becomes busy and a queued job is added. */
    method Reserve(run: RunId, d: DeviceId, j: JobId)
      requires Valid() && run in runs && d in devices && j !in jobs
      modifies this`jobs, devices[d]
      ensures Valid() && suites == old(suites) && devices == old(devices) && runs == old(runs)
      ensures fresh(jobs.Values - old(jobs.Values))
      ensures View() == old(View()).(devices := old(View()).devices[d := old(View()).devices[d].(status := Busy)],
                                     jobs := old(View()).jobs[j := S.NewJob(run, d)])
    {
      SetStatus(d, Busy);
      AddJob(run, d, j);
    }
  }

  lemma ReservedNone(db: Db, run: RunId, ids: map<DeviceId, JobId>)
    requires S.FreshIds(db, run, ids)
    ensures S.Reserved(db.devices, {}) == db.devices
    ensures db.jobs + S.NewJobs({}, run, ids) == db.jobs
    ensures Elements([]) == {}
  {
  }

  /** One more reserved device. */
  lemma ReservedSnoc(db: Db, rows: seq<DeviceId>, i: nat, run: RunId, ids: map<DeviceId, JobId>)
    requires i < |rows| && S.FreshIds(db, run, ids) && Elements(rows) <= db.devices.Keys
    requires NoDuplicates(rows)
    ensures Elements(rows[..i]) <= ids.Keys && Elements(rows[..i + 1]) <= ids.Keys
    ensures rows[i] in ids && rows[i] in db.devices
    ensures ids[rows[i]] !in db.jobs + S.NewJobs(Elements(rows[..i]), run, ids)
    ensures S.Reserved(db.devices, Elements(rows[..i + 1])) ==
      var before := S.Reserved(db.devices, Elements(rows[..i]));
      before[rows[i] := before[rows[i]].(status := Busy)]
    ensures db.jobs + S.NewJobs(Elements(rows[..i + 1]), run, ids) ==
            (db.jobs + S.NewJobs(Elements(rows[..i]), run, ids))[ids[rows[i]] := S.NewJob(run, rows[i])]
  {
    ElementsSnoc(rows, i);
    var chosen, d := Elements(rows[..i]), rows[i];
    assert d in db.devices && d in ids && chosen <= ids.Keys;
    ReservedAdd(db.devices, chosen, d);
    NewJobsAdd(chosen, d, run, ids);
    OverlaySnoc(db.jobs, S.NewJobs(chosen, run, ids), ids[d], S.NewJob(run, d));
  }

  lemma ReservedAdd(devices: Devices, chosen: set<DeviceId>, d: DeviceId)
    requires d in devices
    ensures var before := S.Reserved(devices, chosen);
      S.Reserved(devices, chosen + {d}) == before[d := before[d].(status := Busy)]
  {
  }

  lemma NewJobsAdd(chosen: set<DeviceId>, d: DeviceId, run: RunId, ids: map<DeviceId, JobId>)
    requires chosen <= ids.Keys && d in ids && d !in chosen
    requires forall d, e :: d in ids && e in ids && d != e ==> ids[d] != ids[e]
    ensures S.NewJobs(chosen + {d}, run, ids) == S.NewJobs(chosen, run, ids)[ids[d] := S.NewJob(run, d)]
    ensures ids[d] !in S.NewJobs(chosen, run, ids)
  {
    var fewer, more := S.NewJobs(chosen, run, ids), S.NewJobs(chosen + {d}, run, ids);
    forall j | j in more
      ensures j in fewer[ids[d] := S.NewJob(run, d)] && more[j] == fewer[ids[d] := S.NewJob(run, d)][j]
    {
      var e := more[j].device;
      if e != d { assert e in chosen && ids[e] == j; }
    }
    forall j | j in fewer ensures j in more {
      var e := fewer[j].device;
      assert e in chosen + {d} && ids[e] == j;
    }
    assert d in chosen + {d};
  }
}
