/** The job counts shown with a run. */
module RunCounts {
  import opened Domain
  import opened Identifiers
  import opened Aggregation

  datatype Counts = Counts(total: nat, queued: nat, running: nat, retrying: nat, passed: nat, failed: nat,
                           timedOut: nat)

  function RunJobs(jobs: Jobs, r: RunId): set<JobId> {
    set j | j in jobs && jobs[j].run == r
  }

  function WithStatus(jobs: Jobs, r: RunId, status: JobStatus): set<JobId> {
    set j | j in jobs && jobs[j].run == r && jobs[j].status == status
  }

  /** `_run_counts`. */
  function CountsOf(jobs: Jobs, r: RunId): Counts {
    Counts(|RunJobs(jobs, r)|,
              |WithStatus(jobs, r, Queued)|, |WithStatus(jobs, r, Running)|, |WithStatus(jobs, r, Retrying)|,
              |WithStatus(jobs, r, Passed)|, |WithStatus(jobs, r, Failed)|, |WithStatus(jobs, r, TimedOut)|)
  }

  lemma SixStatuses(jobs: Jobs, r: RunId)
    ensures RunJobs(jobs, r) ==
      WithStatus(jobs, r, Queued) + WithStatus(jobs, r, Running) + WithStatus(jobs, r, Retrying)
      + (WithStatus(jobs, r, Passed) + WithStatus(jobs, r, Failed) + WithStatus(jobs, r, TimedOut))
  {
    forall j | j in RunJobs(jobs, r)
      ensures j in WithStatus(jobs, r, jobs[j].status)
    {
    }
  }

  /** The six statuses partition the jobs of a run. */
  lemma CountsPartition(jobs: Jobs, r: RunId)
    ensures var n := CountsOf(jobs, r);
      n.total == n.queued + n.running + n.retrying + n.passed + n.failed + n.timedOut
  {
    var q, u, t := WithStatus(jobs, r, Queued), WithStatus(jobs, r, Running), WithStatus(jobs, r, Retrying);
    var p, f, o := WithStatus(jobs, r, Passed), WithStatus(jobs, r, Failed), WithStatus(jobs, r, TimedOut);
    SixStatuses(jobs, r);
    assert q !! u && (q + u) !! t && p !! f && (p + f) !! o && (q + u + t) !! (p + f + o);
    Disjoint(q, u);
    Disjoint(q + u, t);
    Disjoint(p, f);
    Disjoint(p + f, o);
    Disjoint(q + u + t, p + f + o);
  }

  /** A count is zero exactly when no job of the run has the status, and the total exactly when all have. */
  lemma CountMeaning(jobs: Jobs, r: RunId, status: JobStatus)
    ensures |WithStatus(jobs, r, status)| == 0 <==> forall j :: InRun(jobs, j, r) ==> jobs[j].status != status
    ensures |WithStatus(jobs, r, status)| == |RunJobs(jobs, r)|
        <==> forall j :: InRun(jobs, j, r) ==> jobs[j].status == status
  {
    var part, all := WithStatus(jobs, r, status), RunJobs(jobs, r);
    assert forall j :: j in all <==> InRun(jobs, j, r);
    assert forall j :: j in part <==> InRun(jobs, j, r) && jobs[j].status == status;
    SubsetSize(part, all);
    if forall j :: InRun(jobs, j, r) ==> jobs[j].status == status {
      assert part == all;
    }
    if forall j :: InRun(jobs, j, r) ==> jobs[j].status != status {
      assert part == {};
    }
  }

  /** Every count is that of its own status: none or all. */
  lemma CountsByStatus(jobs: Jobs, r: RunId)
    ensures var n := CountsOf(jobs, r);
      && (n.queued == 0 <==> forall j :: InRun(jobs, j, r) ==> !jobs[j].status.Queued?)
      && (n.running == 0 <==> forall j :: InRun(jobs, j, r) ==> !jobs[j].status.Running?)
      && (n.retrying == 0 <==> forall j :: InRun(jobs, j, r) ==> !jobs[j].status.Retrying?)
      && (n.passed == 0 <==> forall j :: InRun(jobs, j, r) ==> !jobs[j].status.Passed?)
      && (n.failed == 0 <==> forall j :: InRun(jobs, j, r) ==> !jobs[j].status.Failed?)
      && (n.timedOut == 0 <==> forall j :: InRun(jobs, j, r) ==> !jobs[j].status.TimedOut?)
  {
    CountMeaning(jobs, r, Queued);
    CountMeaning(jobs, r, Running);
    CountMeaning(jobs, r, Retrying);
    CountMeaning(jobs, r, Passed);
    CountMeaning(jobs, r, Failed);
    CountMeaning(jobs, r, TimedOut);
  }

  lemma CountOfOther(jobs: Jobs, j: JobId, job': Job, r: RunId, status: JobStatus)
    requires InRun(jobs, j, r) && job'.run == r
    ensures var less := if jobs[j].status == status then 1 else 0;
      var more := if job'.status == status then 1 else 0;
      |WithStatus(jobs[j := job'], r, status)| == |WithStatus(jobs, r, status)| - less + more
  {
    var before, after := WithStatus(jobs, r, status), WithStatus(jobs[j := job'], r, status);
    if job'.status == status {
      assert after == before + {j};
    } else {
      assert after == before - {j};
    }
  }

  /** When one job of the run moves, it leaves the count of its old status and joins that of its new one. */
  lemma CountsMove(jobs: Jobs, j: JobId, job': Job, r: RunId)
    requires InRun(jobs, j, r) && job'.run == r
    ensures var n, n' := CountsOf(jobs, r), CountsOf(jobs[j := job'], r);
      var job := jobs[j];
      && n'.total == n.total
      && n'.queued + (if job.status.Queued? then 1 else 0) == n.queued + (if job'.status.Queued? then 1 else 0)
      && n'.running + (if job.status.Running? then 1 else 0) == n.running + (if job'.status.Running? then 1 else 0)
      && n'.retrying + (if job.status.Retrying? then 1 else 0) == n.retrying + (if job'.status.Retrying? then 1 else 0)
      && n'.passed + (if job.status.Passed? then 1 else 0) == n.passed + (if job'.status.Passed? then 1 else 0)
      && n'.failed + (if job.status.Failed? then 1 else 0) == n.failed + (if job'.status.Failed? then 1 else 0)
      && n'.timedOut + (if job.status.TimedOut? then 1 else 0) == n.timedOut + (if job'.status.TimedOut? then 1 else 0)
  {
    assert RunJobs(jobs[j := job'], r) == RunJobs(jobs, r);
    CountOfOther(jobs, j, job', r, Queued);
    CountOfOther(jobs, j, job', r, Running);
    CountOfOther(jobs, j, job', r, Retrying);
    CountOfOther(jobs, j, job', r, Passed);
    CountOfOther(jobs, j, job', r, Failed);
    CountOfOther(jobs, j, job', r, TimedOut);
  }

  lemma SameJobsSameCounts(jobs: Jobs, jobs': Jobs, r: RunId)
    requires SameRun(jobs, jobs', r)
    ensures CountsOf(jobs, r) == CountsOf(jobs', r)
  {
    forall j
      ensures j in RunJobs(jobs, r) <==> j in RunJobs(jobs', r)
      ensures forall status :: j in WithStatus(jobs, r, status) <==> j in WithStatus(jobs', r, status)
    {
      assert InRun(jobs, j, r) <==> InRun(jobs', j, r);
    }
    assert RunJobs(jobs, r) == RunJobs(jobs', r);
    assert forall status :: WithStatus(jobs, r, status) == WithStatus(jobs', r, status);
  }

  /** The run status and the job counts say the same. */
  ghost predicate Agree(status: RunStatus, n: Counts) {
    && n.total == n.passed + n.failed + n.timedOut > 0
    && n.queued == n.running == n.retrying == 0
    && (if status.RunPassed? then n.passed == n.total else status.RunFailed? && n.failed + n.timedOut > 0)
  }

  /** In a state with a terminal run the stored status, the jobs and the counts agree. */
  lemma TerminalRunAgrees(run: TestRun, jobs: Jobs, r: RunId)
    requires RunOk(run, jobs, r) && run.status.Terminal()
    ensures forall j :: InRun(jobs, j, r) ==> jobs[j].status.Terminal()
    ensures run.status.RunPassed? <==> AllPassed(jobs, r)
    ensures Agree(run.status, CountsOf(jobs, r))
  {
    RunFinality(run, jobs, r);
    CountsPartition(jobs, r);
    CountMeaning(jobs, r, Queued);
    CountMeaning(jobs, r, Running);
    CountMeaning(jobs, r, Retrying);
    CountMeaning(jobs, r, Passed);
    var j :| InRun(jobs, j, r);
    assert j in RunJobs(jobs, r);
  }
}
