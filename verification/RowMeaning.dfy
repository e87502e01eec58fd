/** What each transaction of the workers and of the reconciler leaves in the rows, field by field. */
module RowMeaning {
  import opened Domain
  import opened Identifiers
  import opened Configuration
  import opened JobMachine
  import opened Aggregation
  import opened Services
  import opened DatabaseInvariant
  import opened ReconcileOrder

  /** A transition that changes the status is legal from queued or retrying to running, and from running to retrying or
      to a terminal status; a terminal row can only be asked to stay what it is. */
  lemma TransitionExactly(job: Job, target: JobStatus, now: Time)
    ensures TransitionJob(job, target, now).Ok? <==>
      || target == job.status
      || (target.Running? && (job.status.Queued? || job.status.Retrying?))
      || (job.status.Running? && !target.Queued?)
    ensures target == job.status ==> TransitionJob(job, target, now) == Ok(job)
    ensures TransitionJob(job, target, now).Err? ==>
      TransitionJob(job, target, now).error == InvalidJobTransition(job.status, target)
  {
  }

  // ---------------------------------------------------------------- frames

  /** Nothing changes but the row of job `j`, the rows of its device and of its run. */
  ghost predicate OnlyAround(db: Db, db': Db, j: JobId)
    requires j in db.jobs
  {
    && db'.suites == db.suites
    && db'.jobs.Keys == db.jobs.Keys && (forall k :: k in db.jobs && k != j ==> db'.jobs[k] == db.jobs[k])
    && db'.devices.Keys == db.devices.Keys
    && (forall d :: d in db.devices && d != db.jobs[j].device ==> db'.devices[d] == db.devices[d])
    && db'.runs.Keys == db.runs.Keys
    && (forall r :: r in db.runs && r != db.jobs[j].run ==> db'.runs[r] == db.runs[r])
  }

  lemma PerformOnlyAround(s: Settings, db: Db, a: Action, j: JobId, now: Time)
    requires Refs(db) && j in db.jobs
    ensures OnlyAround(db, Perform(s, db, a, j, now), j)
  {
  }

  /** A released device is online if its heartbeat is younger than the timeout, else offline. */
  ghost predicate ReleasedAt(s: Settings, device: Device, device': Device, now: Time) {
    device' == device.(status :=
      if device.heartbeat.Some? && now < device.heartbeat.value + s.heartbeatTimeout then Online else Offline)
  }

  lemma PerformDevice(s: Settings, db: Db, a: Action, j: JobId, now: Time)
    requires Refs(db) && j in db.jobs && Accepts(a, db.jobs[j], now)
    ensures var db', d := Perform(s, db, a, j, now), db.jobs[j].device;
      && d in db'.devices
      && (if db'.jobs[j].status.Terminal() then ReleasedAt(s, db.devices[d], db'.devices[d], now)
          else db'.devices[d] == db.devices[d])
  {
  }

  // ---------------------------------------------------------------- claim

  /** `_claim` takes a queued job, and a retrying one that is not due later. */
  ghost predicate Waiting(job: Job, now: Time) {
    job.status.Queued? || (job.status.Retrying? && (job.due.None? || job.due.value <= now))
  }

  /** The call timeout of the device's kind; the lease is longer by the grace. */
  lemma ClaimMeaning(s: Settings, db: Db, j: JobId, task: TaskId, now: Time)
    requires Refs(db)
    ensures j !in db.jobs ==> ClaimResult(s, db, j, task, now) == None && ClaimJob(s, db, j, task, now) == db
    ensures j in db.jobs && !Waiting(db.jobs[j], now) ==>
      ClaimResult(s, db, j, task, now) == None && ClaimJob(s, db, j, task, now) == db
    ensures j in db.jobs && Waiting(db.jobs[j], now) ==>
      var row, db' := db.jobs[j], ClaimJob(s, db, j, task, now);
      var timeout := if db.devices[row.device].host then s.hostJobTimeout else s.jobTimeout;
      && ClaimResult(s, db, j, task, now) == Some(Claimed(task, j, row.attempts + 1, timeout))
      && OnlyAround(db, db', j) && db'.devices[row.device] == db.devices[row.device]
      && db'.jobs[j] == row.(
           status := Running, attempts := row.attempts + 1, worker := Some(task),
           lease := Some(now + (timeout + s.leaseGrace)), due := None,
           startedAt := if row.startedAt.Some? then row.startedAt else Some(now), completedAt := None)
  {
    if j in db.jobs && Waiting(db.jobs[j], now) {
      var a := ClaimAction(s, db, j, task);
      PerformRows(s, db, a, j, now);
      PerformOnlyAround(s, db, a, j, now);
      PerformDevice(s, db, a, j, now);
    }
  }

  // ---------------------------------------------------------------- end of an attempt

  /** The job is running under the task identifier of the claim. */
  ghost predicate Owned(db: Db, c: Claimed) {
    c.job in db.jobs && db.jobs[c.job].status.Running? && db.jobs[c.job].worker == Some(c.task)
  }

  lemma NotOwned(s: Settings, db: Db, c: Claimed, outcome: CallOutcome, elapsed: Time, now: Time)
    requires Refs(db) && !Owned(db, c)
    ensures EndAttempt(s, db, c, outcome, elapsed, now) == db
  {
  }

  /** The row and its device after a terminal write: everything the attempt has brought, and nothing of before. */
  ghost predicate Ended(s: Settings, db: Db, db': Db, j: JobId, status: JobStatus, duration: Time,
                        result: Option<string>, logs: Option<seq<string>>, error: Option<string>,
                        details: Option<ErrorDetails>, now: Time)
    requires Refs(db) && j in db.jobs
  {
    var row := db.jobs[j];
    && OnlyAround(db, db', j)
    && db'.jobs[j] == row.(status := status, result := result, logs := logs, errorMessage := error,
                           errorDetails := details, duration := Some(duration), completedAt := Some(now),
                           lease := None, due := None)
    && ReleasedAt(s, db.devices[row.device], db'.devices[row.device], now)
  }

  lemma FinishMeaning(s: Settings, db: Db, c: Claimed, target: TerminalStatus, elapsed: Time, result: Option<string>,
                      logs: Option<seq<string>>, error: Option<string>, details: Option<ErrorDetails>, now: Time)
    requires Refs(db) && Owned(db, c)
    ensures var a := Finish(c.task, target, elapsed, result, logs, error, details);
      Ended(s, db, Perform(s, db, a, c.job, now), c.job, target, elapsed, result, logs, error, details, now)
  {
    var a := Finish(c.task, target, elapsed, result, logs, error, details);
    PerformRows(s, db, a, c.job, now);
    PerformOnlyAround(s, db, a, c.job, now);
    PerformDevice(s, db, a, c.job, now);
  }

  /** An answer ends the job, whatever the attempt: passed if and only if it passed, with what it carries. */
  lemma AnswerMeaning(s: Settings, db: Db, c: Claimed, r: Response, elapsed: Time, now: Time, seconds: Time)
    requires Refs(db) && Owned(db, c) && 1000.0 * seconds == r.durationMs
    ensures var db' := EndAttempt(s, db, c, Responded(r), elapsed, now);
      if r.passed then Ended(s, db, db', c.job, Passed, seconds, Some(r.result), Some(r.logs), r.error, None, now)
      else Ended(s, db, db', c.job, Failed, seconds, Some(r.result), Some(r.logs), r.error, None, now)
  {
    assert seconds == Seconds(r.durationMs);
    var target := if r.passed then Passed else Failed;
    FinishMeaning(s, db, c, target, seconds, Some(r.result), Some(r.logs), r.error, None, now);
  }

  /** A permanent error fails the job at once, whatever the attempt. */
  lemma PermanentMeaning(s: Settings, db: Db, c: Claimed, message: string, elapsed: Time, now: Time)
    requires Refs(db) && Owned(db, c)
    ensures Ended(s, db, EndAttempt(s, db, c, CallPermanent(message), elapsed, now), c.job, Failed, elapsed, None, None,
                  Some(message), Some(ErrorDetails(PermanentDevice, false, None)), now)
  {
    FinishMeaning(s, db, c, Failed, elapsed, None, None, Some(message),
                  Some(ErrorDetails(PermanentDevice, false, None)), now);
  }

  /** The row after a retry: it keeps its attempts and waits, without a lease, and the device stays reserved. */
  ghost predicate Waits(db: Db, db': Db, j: JobId, wait: Time, elapsed: Time, kind: ErrorKind, message: string,
                        now: Time)
    requires Refs(db) && j in db.jobs
  {
    var row := db.jobs[j];
    && OnlyAround(db, db', j) && db'.devices == db.devices
    && db'.jobs[j] == row.(status := Retrying, due := Some(now + wait), lease := None, completedAt := None,
                           errorMessage := Some(message), errorDetails := Some(ErrorDetails(kind, true, Some(wait))),
                           duration := Some(elapsed))
  }

  lemma RetryMeaning(s: Settings, db: Db, c: Claimed, kind: ErrorKind, message: string, elapsed: Time, now: Time,
                     wait: Time)
    requires Refs(db) && Owned(db, c) && wait == Delay(s, c.attempt)
    ensures var a := Retry(c.task, c.attempt, kind, message, elapsed);
      Waits(db, Perform(s, db, a, c.job, now), c.job, wait, elapsed, kind, message, now)
  {
    var a := Retry(c.task, c.attempt, kind, message, elapsed);
    PerformRows(s, db, a, c.job, now);
    PerformOnlyAround(s, db, a, c.job, now);
  }

  /** What a failure that another attempt may cure does, below the attempt maximum and at it. The wait is the base,
      doubled for each earlier attempt (`Configuration.DoubledIsProduct`), and at most the cap. */
  ghost predicate Retries(s: Settings, db: Db, db': Db, c: Claimed, kind: ErrorKind, message: string,
                          exhausted: JobStatus, elapsed: Time, now: Time)
    requires Refs(db) && c.job in db.jobs
  {
    if c.attempt < s.maxAttempts then
      Waits(db, db', c.job, Min(Doubled(s.backoff, c.attempt - 1), s.backoffMax), elapsed, kind, message, now)
    else
      Ended(s, db, db', c.job, exhausted, elapsed, None, None, Some(message), Some(ErrorDetails(kind, true, None)), now)
  }

  lemma RetryableMeaning(s: Settings, db: Db, c: Claimed, kind: ErrorKind, message: string, exhausted: TerminalStatus,
                         elapsed: Time, now: Time)
    requires Refs(db) && Owned(db, c)
    ensures var a := RetryableFailure(s, c, kind, message, exhausted, elapsed);
      Retries(s, db, Perform(s, db, a, c.job, now), c, kind, message, exhausted, elapsed, now)
  {
    if c.attempt < s.maxAttempts {
      RetryMeaning(s, db, c, kind, message, elapsed, now, Delay(s, c.attempt));
    } else {
      FinishMeaning(s, db, c, exhausted, elapsed, None, None, Some(message), Some(ErrorDetails(kind, true, None)), now);
    }
  }

  /** A timeout is retried below the attempt maximum and times the job out at it ... */
  lemma TimeoutMeaning(s: Settings, db: Db, c: Claimed, message: string, elapsed: Time, now: Time)
    requires Refs(db) && Owned(db, c)
    ensures var db' := EndAttempt(s, db, c, CallTimedOut(message), elapsed, now);
      Retries(s, db, db', c, DeviceTimeout, message, TimedOut, elapsed, now)
  {
    RetryableMeaning(s, db, c, DeviceTimeout, message, TimedOut, elapsed, now);
  }

  /** ... and so are transient errors, ... */
  lemma TransientMeaning(s: Settings, db: Db, c: Claimed, message: string, elapsed: Time, now: Time)
    requires Refs(db) && Owned(db, c)
    ensures var db' := EndAttempt(s, db, c, CallTransient(message), elapsed, now);
      Retries(s, db, db', c, TransientDevice, message, Failed, elapsed, now)
  {
    RetryableMeaning(s, db, c, TransientDevice, message, Failed, elapsed, now);
  }

  /** ... and unexpected ones, which both fail the job at the maximum. */
  lemma UnexpectedMeaning(s: Settings, db: Db, c: Claimed, message: string, elapsed: Time, now: Time)
    requires Refs(db) && Owned(db, c)
    ensures var db' := EndAttempt(s, db, c, CallUnexpected(message), elapsed, now);
      Retries(s, db, db', c, Unexpected, message, Failed, elapsed, now)
  {
    RetryableMeaning(s, db, c, Unexpected, message, Failed, elapsed, now);
  }

  // ---------------------------------------------------------------- recovery

  /** A row with an expired lease after recovery: due at once, or failed if its attempts are used up. */
  ghost predicate Recovered(s: Settings, row: Job, row': Job, now: Time) {
    if row.attempts < s.maxAttempts then
      row' == row.(status := Retrying, due := Some(now), lease := None, completedAt := None,
                   errorMessage := Some(LEASE_EXPIRED),
                   errorDetails := Some(ErrorDetails(WorkerLeaseExpired, true, None)))
    else
      row' == row.(status := Failed, due := None, lease := None, completedAt := Some(now),
                   errorMessage := Some(LEASE_EXPIRED_FINALLY),
                   errorDetails := Some(ErrorDetails(WorkerLeaseExpired, true, None)))
  }

  lemma ExpiryMeaning(s: Settings, row: Job, now: Time)
    requires LeaseExpired(row, now)
    ensures Recovered(s, row, Effect(s, Expire, row, now), now)
  {
  }

  /** Recovery moves exactly the rows it takes and returns exactly the jobs that wait for a claim; ... */
  lemma RecoveryMeaning(s: Settings, db: Db, rows: seq<JobId>, now: Time, j: JobId)
    requires s.Valid() && Refs(db) && ExpiredRows(db, rows, now)
    ensures var db', ids := Reconcile(s, db, rows, now).0, Reconcile(s, db, rows, now).1;
      && (j in db.jobs <==> j in db'.jobs)
      && (j in db.jobs && j in rows ==> Recovered(s, db.jobs[j], db'.jobs[j], now))
      && (j in db.jobs && j !in rows ==> db'.jobs[j] == db.jobs[j])
      && (j in ids <==> j in db'.jobs && Waiting(db'.jobs[j], now))
  {
    ExpireAllRows(s, db, rows, now);
    if j in db.jobs && j in rows { ExpiryMeaning(s, db.jobs[j], now); }
  }

  /** One of the rows is a job on the device whose attempts are used up. */
  ghost predicate UsedUp(s: Settings, jobs: Jobs, rows: seq<JobId>, d: DeviceId) {
    exists k :: k in rows && k in jobs && jobs[k].device == d && jobs[k].attempts >= s.maxAttempts
  }

  lemma UsedUpIsExhausted(s: Settings, jobs: Jobs, rows: seq<JobId>, d: DeviceId)
    ensures UsedUp(s, jobs, rows, d) <==> Exhausted(s, jobs, Elements(rows), d)
  {
    assert forall k :: k in rows <==> k in Elements(rows);
  }

  /** ... and it releases exactly the devices of those rows whose attempts are used up. */
  lemma RecoveryReleases(s: Settings, db: Db, rows: seq<JobId>, now: Time, d: DeviceId)
    requires Refs(db) && Exclusive(db.jobs) && RunsOk(db) && ExpiredRows(db, rows, now) && d in db.devices
    ensures var db' := Reconcile(s, db, rows, now).0;
      && d in db'.devices
      && (if UsedUp(s, db.jobs, rows, d) then ReleasedAt(s, db.devices[d], db'.devices[d], now)
          else db'.devices[d] == db.devices[d])
  {
    LoopIsFold(s, db, rows, now);
    UsedUpIsExhausted(s, db.jobs, rows, d);
  }

  // ---------------------------------------------------------------- the run row

  /** The run after any job transaction: started with its first job to start, completed at the instant at which its
      last job ends. */
  lemma RunMeaning(s: Settings, db: Db, a: Action, j: JobId, now: Time)
    requires Refs(db) && RunsOk(db) && j in db.jobs && Accepts(a, db.jobs[j], now)
    ensures var db', r := Perform(s, db, a, j, now), db.jobs[j].run;
      var run, run' := db.runs[r], db'.runs[r];
      && run'.suite == run.suite && run'.status == RunStatusOf(db'.jobs, r)
      && run'.startedAt == (if run.startedAt.Some? then run.startedAt else Some(now))
      && run'.completedAt ==
         (if forall k :: InRun(db'.jobs, k, r) ==> db'.jobs[k].status.Terminal() then Some(now) else None)
  {
    var job', r := Effect(s, a, db.jobs[j], now), db.jobs[j].run;
    PerformRows(s, db, a, j, now);
    MovedRun(db.runs[r], db.jobs, j, job', now);
  }

  lemma MovedRun(run: TestRun, jobs: Jobs, j: JobId, job': Job, now: Time)
    requires j in jobs && jobs[j].status.Active() && job'.run == jobs[j].run && !job'.status.Queued?
    requires RunOk(run, jobs, jobs[j].run)
    ensures var r, jobs' := jobs[j].run, jobs[j := job'];
      var run' := RecomputeRow(run, jobs', r, now);
      && run'.suite == run.suite && run'.status == RunStatusOf(jobs', r)
      && run'.startedAt == (if run.startedAt.Some? then run.startedAt else Some(now))
      && run'.completedAt == (if forall k :: InRun(jobs', k, r) ==> jobs'[k].status.Terminal() then Some(now) else None)
  {
    var r, jobs' := jobs[j].run, jobs[j := job'];
    assert InRun(jobs, j, r) && InRun(jobs', j, r);
    assert AnyActive(jobs, r) && HasJob(jobs', r) && AnyStarted(jobs', r);
    RecomputeKeepsRunOk(run, jobs, j, job', now);
    RunFinality(RecomputeRow(run, jobs', r, now), jobs', r);
  }
}
