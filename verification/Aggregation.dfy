/** Aggregation of job statuses into a run status. */
module Aggregation {
  import opened Domain

  ghost predicate InRun(jobs: Jobs, j: JobId, r: RunId) {
    j in jobs && jobs[j].run == r
  }

  ghost predicate HasJob(jobs: Jobs, r: RunId) {
    exists j :: InRun(jobs, j, r)
  }

  ghost predicate AnyActive(jobs: Jobs, r: RunId) {
    exists j :: InRun(jobs, j, r) && jobs[j].status.Active()
  }

  ghost predicate AnyStarted(jobs: Jobs, r: RunId) {
    exists j :: InRun(jobs, j, r) && !jobs[j].status.Queued?
  }

  ghost predicate AllPassed(jobs: Jobs, r: RunId) {
    forall j :: InRun(jobs, j, r) ==> jobs[j].status.Passed?
  }

  /** The status that the jobs of a run determine. */
  ghost function RunStatusOf(jobs: Jobs, r: RunId): RunStatus {
    if !HasJob(jobs, r) then RunQueued
    else if AnyActive(jobs, r) then (if AnyStarted(jobs, r) then RunRunning else RunQueued)
    else if AllPassed(jobs, r) then RunPassed
    else RunFailed
  }

  /** What `recompute_run_status` leaves in a run row: terminal rows are sticky, any other row takes the status of
      its jobs, and the two instants are written the first time they apply. */
  ghost function RecomputeRow(run: TestRun, jobs: Jobs, r: RunId, now: Time): TestRun {
    var status := RunStatusOf(jobs, r);
    if run.status.Terminal() then run
    else if !HasJob(jobs, r) then run.(status := RunQueued)
    else if AnyActive(jobs, r) then
      run.(status := status,
           startedAt := if status.RunRunning? && run.startedAt.None? then Some(now) else run.startedAt,
           completedAt := None)
    else
      run.(status := status,
           startedAt := if run.startedAt.None? then Some(now) else run.startedAt,
           completedAt := if run.completedAt.None? then Some(now) else run.completedAt)
  }

  /** The stored row agrees with the jobs of the run. */
  ghost predicate RunOk(run: TestRun, jobs: Jobs, r: RunId) {
    && HasJob(jobs, r)
    && run.status == RunStatusOf(jobs, r)
    && (run.startedAt.Some? <==> !run.status.RunQueued?)
    && (run.completedAt.Some? <==> run.status.Terminal())
  }

  ghost predicate SameRun(jobs: Jobs, jobs': Jobs, r: RunId) {
    forall j :: (InRun(jobs, j, r) <==> InRun(jobs', j, r)) && (InRun(jobs, j, r) ==> jobs[j] == jobs'[j])
  }

  /** Aggregation depends on nothing but the jobs of the run. */
  lemma AggregationFrame(jobs: Jobs, jobs': Jobs, r: RunId, run: TestRun, now: Time)
    requires SameRun(jobs, jobs', r)
    ensures RunStatusOf(jobs, r) == RunStatusOf(jobs', r)
    ensures RecomputeRow(run, jobs, r, now) == RecomputeRow(run, jobs', r, now)
    ensures RunOk(run, jobs, r) == RunOk(run, jobs', r)
  {
    assert HasJob(jobs, r) == HasJob(jobs', r);
    assert AnyActive(jobs, r) == AnyActive(jobs', r) by {
      if AnyActive(jobs, r) { var j :| InRun(jobs, j, r) && jobs[j].status.Active(); assert InRun(jobs', j, r); }
      if AnyActive(jobs', r) { var j :| InRun(jobs', j, r) && jobs'[j].status.Active(); assert InRun(jobs, j, r); }
    }
    assert AnyStarted(jobs, r) == AnyStarted(jobs', r) by {
      if AnyStarted(jobs, r) { var j :| InRun(jobs, j, r) && !jobs[j].status.Queued?; assert InRun(jobs', j, r); }
      if AnyStarted(jobs', r) { var j :| InRun(jobs', j, r) && !jobs'[j].status.Queued?; assert InRun(jobs, j, r); }
    }
    assert AllPassed(jobs, r) == AllPassed(jobs', r) by {
      if AllPassed(jobs, r) {
        forall j | InRun(jobs', j, r) ensures jobs'[j].status.Passed? { assert InRun(jobs, j, r); }
      }
      if AllPassed(jobs', r) {
        forall j | InRun(jobs, j, r) ensures jobs[j].status.Passed? { assert InRun(jobs', j, r); }
      }
    }
  }

  /** The documented meaning of the run status, for every set of jobs. */
  lemma AggregateMeaning(jobs: Jobs, r: RunId)
    ensures RunStatusOf(jobs, r).RunQueued? <==> forall j :: InRun(jobs, j, r) ==> jobs[j].status.Queued?
    ensures RunStatusOf(jobs, r).RunRunning? <==> AnyActive(jobs, r) && AnyStarted(jobs, r)
    ensures RunStatusOf(jobs, r).RunPassed? <==> HasJob(jobs, r) && AllPassed(jobs, r)
    ensures RunStatusOf(jobs, r).RunFailed? <==>
      && (forall j :: InRun(jobs, j, r) ==> jobs[j].status.Terminal())
      && (exists j :: InRun(jobs, j, r) && (jobs[j].status.Failed? || jobs[j].status.TimedOut?))
  {
    if forall j :: InRun(jobs, j, r) ==> jobs[j].status.Queued? {
      if HasJob(jobs, r) {
        var j :| InRun(jobs, j, r);
        assert jobs[j].status.Active();
      }
    }
    if HasJob(jobs, r) && AllPassed(jobs, r) {
      assert !AnyActive(jobs, r);
    }
    if RunStatusOf(jobs, r).RunFailed? {
      var j :| InRun(jobs, j, r) && !jobs[j].status.Passed?;
      assert !jobs[j].status.Active();
    }
  }

  /** Moving one active job of a run onwards and recomputing keeps the row in agreement, never reverts the status
      and leaves the instants that were already set. */
  lemma RecomputeKeepsRunOk(run: TestRun, jobs: Jobs, j: JobId, job': Job, now: Time)
    requires j in jobs && jobs[j].status.Active()
    requires job'.run == jobs[j].run && !job'.status.Queued?
    requires RunOk(run, jobs, jobs[j].run)
    ensures var r, jobs' := jobs[j].run, jobs[j := job'];
      var run' := RecomputeRow(run, jobs', r, now);
      && RunOk(run', jobs', r)
      && (run.status.RunQueued? || run.status.RunRunning?)
      && (run'.status.RunRunning? || run'.status.RunPassed? || run'.status.RunFailed?)
      && (run.startedAt.Some? ==> run'.startedAt == run.startedAt)
  {
    var r, jobs' := jobs[j].run, jobs[j := job'];
    assert InRun(jobs, j, r) && InRun(jobs', j, r);
    assert AnyActive(jobs, r) && HasJob(jobs', r) && AnyStarted(jobs', r);
  }

  /** A change to a job of another run is invisible. */
  lemma OtherRun(jobs: Jobs, j: JobId, job': Job, r: RunId)
    requires j in jobs && jobs[j].run != r && job'.run == jobs[j].run
    ensures SameRun(jobs, jobs[j := job'], r)
  {
  }

  /** A run in agreement with its jobs is terminal exactly when all of them are. */
  lemma RunFinality(run: TestRun, jobs: Jobs, r: RunId)
    requires RunOk(run, jobs, r)
    ensures run.status.Terminal() <==> forall j :: InRun(jobs, j, r) ==> jobs[j].status.Terminal()
  {
    if forall j :: InRun(jobs, j, r) ==> jobs[j].status.Terminal() {
      assert !AnyActive(jobs, r);
    }
  }
}
