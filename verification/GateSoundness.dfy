/** What the exit code of the CI client says about the server, whose run and jobs it reads by separate requests. */
module GateSoundness {
  import opened Domain
  import opened Configuration
  import opened Aggregation
  import opened DatabaseInvariant
  import opened Protocol
  import opened History
  import opened RunCounts
  import opened CiGate
  import R = ReadCommitted
  import I = Interleaving

  // ---------------------------------------------------------------- databases of a server

  /** A server whose database goes through `dbs`: stored statuses agree with the jobs, and terminal runs are settled. */
  ghost predicate Consistent(dbs: seq<Db>, r: RunId) {
    && (forall i :: 0 <= i < |dbs| && r in dbs[i].runs ==> RunOk(dbs[i].runs[r], dbs[i].jobs, r))
    && (forall i, k :: 0 <= i <= k < |dbs| ==> Settled(dbs[i], dbs[k], r))
  }

  lemma TerminalRunIsFrozen(s: Settings, states: seq<State>, labels: seq<Label>, i: nat, k: nat, r: RunId)
    requires Execution(s, states, labels) && Inv(s, states[0]) && i <= k <= |labels|
    requires r in states[i].db.runs && states[i].db.runs[r].status.Terminal()
    ensures SameInBoth(states[i].db, states[k].db, r)
  {
    ExecutionKeepsInv(s, states, labels, i);
    RunsForward(s, states, labels, i, k, r);
    var db, db' := states[i].db, states[k].db;
    assert RunOk(db.runs[r], db.jobs, r);
    TerminalRunAgrees(db.runs[r], db.jobs, r);
    forall j | InRun(db.jobs, j, r)
      ensures j in db'.jobs && db'.jobs[j] == db.jobs[j]
    {
      TerminalJobIsFrozen(s, states, labels, i, k, j);
    }
    FrozenRun(db, db', r);
  }

  lemma TerminalJobIsFrozen(s: Settings, states: seq<State>, labels: seq<Label>, i: nat, k: nat, j: JobId)
    requires Execution(s, states, labels) && Inv(s, states[0]) && i <= k <= |labels|
    requires j in states[i].db.jobs && states[i].db.jobs[j].status.Terminal()
    ensures j in states[k].db.jobs && states[k].db.jobs[j] == states[i].db.jobs[j]
  {
    Forward(s, states, labels, i, k, j);
  }

  lemma FrozenRun(db: Db, db': Db, r: RunId)
    requires RunKept(db, db', r) && r in db.runs && db.runs[r].status.Terminal()
    requires forall j :: InRun(db.jobs, j, r) ==> j in db'.jobs && db'.jobs[j] == db.jobs[j]
    ensures SameInBoth(db, db', r)
  {
  }

  /** Once a read of the run row returns a terminal status, in every later state the run row and all its jobs are
      exactly as they were then, all jobs are terminal, and the counts agree with the status: the jobs and the counts
      may be read by a separate statement or a separate request. */
  lemma TerminalRunIsSettled(s: Settings, states: seq<State>, labels: seq<Label>, i: nat, k: nat, r: RunId)
    requires Execution(s, states, labels) && Inv(s, states[0]) && i <= k <= |labels|
    requires r in states[i].db.runs && states[i].db.runs[r].status.Terminal()
    ensures SameInBoth(states[i].db, states[k].db, r)
    ensures forall j :: InRun(states[k].db.jobs, j, r) ==> states[k].db.jobs[j].status.Terminal()
    ensures states[i].db.runs[r].status.RunPassed? <==> AllPassed(states[k].db.jobs, r)
    ensures Agree(states[i].db.runs[r].status, CountsOf(states[k].db.jobs, r))
    ensures CountsOf(states[k].db.jobs, r) == CountsOf(states[i].db.jobs, r)
  {
    TerminalRunIsFrozen(s, states, labels, i, k, r);
    ExecutionKeepsInv(s, states, labels, k);
    assert RunOk(states[k].db.runs[r], states[k].db.jobs, r);
    TerminalRunAgrees(states[k].db.runs[r], states[k].db.jobs, r);
    SameJobsSameCounts(states[i].db.jobs, states[k].db.jobs, r);
  }

  ghost function Dbs(states: seq<State>): seq<Db> {
    seq(|states|, k requires 0 <= k < |states| => states[k].db)
  }

  lemma ExecutionIsConsistent(s: Settings, states: seq<State>, labels: seq<Label>, r: RunId)
    requires Execution(s, states, labels) && Inv(s, states[0])
    ensures Consistent(Dbs(states), r)
  {
    var dbs := Dbs(states);
    forall i | 0 <= i < |dbs| && r in dbs[i].runs ensures RunOk(dbs[i].runs[r], dbs[i].jobs, r) {
      ExecutionKeepsInv(s, states, labels, i);
    }
    forall i, k | 0 <= i <= k < |dbs| ensures Settled(dbs[i], dbs[k], r) {
      if r in dbs[i].runs && dbs[i].runs[r].status.Terminal() { TerminalRunIsFrozen(s, states, labels, i, k, r); }
    }
  }

  lemma ScheduleIsConsistent(s: Settings, states: seq<R.Sys>, steps: seq<R.Step>, r: RunId)
    requires I.Schedule(s, states, steps) && R.SysInv(s, states[0])
    ensures Consistent(I.CommittedDbs(states), r)
  {
    var dbs := I.CommittedDbs(states);
    forall i | 0 <= i < |dbs| && r in dbs[i].runs ensures RunOk(dbs[i].runs[r], dbs[i].jobs, r) {
      I.ScheduleKeepsSysInv(s, states, steps, i);
    }
    forall i, k | 0 <= i <= k < |dbs| ensures Settled(dbs[i], dbs[k], r) {
      I.InterleavedSettled(s, states, steps, i, k, r);
    }
  }

  // ---------------------------------------------------------------- soundness

  function JobsOf(jobs: Jobs, r: RunId): Jobs {
    map j | j in jobs && jobs[j].run == r :: jobs[j]
  }

  /** Every successful status read of `run` returns its status in some database of the server, that of round `n` in
      `dbs[at(n)]`; the job list comes from `dbs[listed]`, no earlier than the status reads. */
  ghost predicate ReadsFrom(w: Surroundings, run: RunId, dbs: seq<Db>, at: nat -> nat, listed: nat) {
    && (forall n: nat :: w.status(run, n).Ok? ==>
          at(n) <= listed && at(n) < |dbs| && run in dbs[at(n)].runs
              && w.status(run, n).value == dbs[at(n)].runs[run].status)
    && (w.jobs(run).Ok? ==> listed < |dbs| && w.jobs(run).value == JobsOf(dbs[listed].jobs, run))
  }

  /** What an exit code says about the jobs of the run. */
  ghost predicate CodeAgrees(jobs: Jobs, run: RunId, code: int) {
    && (code == 0 ==> HasJob(jobs, run) && AllPassed(jobs, run) && Agree(RunPassed, CountsOf(jobs, run)))
    && (code == 1 ==>
          && (forall j :: InRun(jobs, j, run) ==> jobs[j].status.Terminal())
          && (exists j :: InRun(jobs, j, run) && (jobs[j].status.Failed? || jobs[j].status.TimedOut?))
          && Agree(RunFailed, CountsOf(jobs, run)))
  }

  lemma CodeIsMeant(run: TestRun, jobs: Jobs, r: RunId, code: int)
    requires RunOk(run, jobs, r)
    requires code == 0 ==> run.status.RunPassed?
    requires code == 1 ==> run.status.RunFailed? || run.status.RunCancelled?
    ensures CodeAgrees(jobs, r, code)
  {
    AggregateMeaning(jobs, r);
    if code in {0, 1} { TerminalRunAgrees(run, jobs, r); }
  }

  lemma SameJobsOf(jobs: Jobs, jobs': Jobs, r: RunId)
    requires SameRun(jobs, jobs', r)
    ensures JobsOf(jobs, r) == JobsOf(jobs', r)
  {
    forall j ensures j in JobsOf(jobs, r) <==> j in JobsOf(jobs', r) {
      assert InRun(jobs, j, r) <==> InRun(jobs', j, r);
    }
    forall j | j in JobsOf(jobs, r) ensures JobsOf(jobs, r)[j] == JobsOf(jobs', r)[j] {
      assert InRun(jobs, j, r);
    }
  }

  /** With `--wait`, exit 0 implies that every job of the created run has passed in the database that the deciding
      round read and in every later one; exit 1 that all have ended and some job has failed or timed out, then and
      later; and the job list, fetched by a separate request from some later database, is that of every one of them. */
  lemma GateIsSound(c: Command, w: Surroundings, code: int, dbs: seq<Db>, at: nat -> nat, listed: nat) returns (n: nat)
    requires c.wait && Started(c, w).Some? && ExitCode(c, w, code)
    requires Consistent(dbs, Started(c, w).value) && ReadsFrom(w, Started(c, w).value, dbs, at, listed)
    ensures GateCode(c, w, Started(c, w).value, n, code)
    ensures code in {0, 1} ==>
      var run := Started(c, w).value;
      forall k :: at(n) <= k < |dbs| ==>
        && SameInBoth(dbs[at(n)], dbs[k], run) && CodeAgrees(dbs[k].jobs, run, code)
        && w.jobs(run) == Ok(JobsOf(dbs[k].jobs, run))
  {
    var run := Started(c, w).value;
    n :| GateCode(c, w, run, n, code);
    if code in {0, 1} {
      var first := at(n);
      assert w.status(run, n).Ok? && w.jobs(run).Ok?;
      forall k | first <= k < |dbs|
        ensures SameInBoth(dbs[first], dbs[k], run) && CodeAgrees(dbs[k].jobs, run, code)
        ensures w.jobs(run) == Ok(JobsOf(dbs[k].jobs, run))
      {
        assert Settled(dbs[first], dbs[k], run) && Settled(dbs[first], dbs[listed], run);
        CodeIsMeant(dbs[k].runs[run], dbs[k].jobs, run, code);
        SameJobsOf(dbs[first].jobs, dbs[k].jobs, run);
        SameJobsOf(dbs[first].jobs, dbs[listed].jobs, run);
      }
    }
  }

  /** The gate is sound over every execution of the atomic steps ... */
  lemma AtomicGate(c: Command, w: Surroundings, code: int, s: Settings, states: seq<State>, labels: seq<Label>,
                   at: nat -> nat, listed: nat) returns (n: nat)
    requires c.wait && Started(c, w).Some? && ExitCode(c, w, code)
    requires Execution(s, states, labels) && Inv(s, states[0])
    requires ReadsFrom(w, Started(c, w).value, Dbs(states), at, listed)
    ensures GateCode(c, w, Started(c, w).value, n, code)
    ensures code in {0, 1} ==>
      var run := Started(c, w).value;
      forall k :: at(n) <= k <= |labels| ==>
        && SameInBoth(states[at(n)].db, states[k].db, run) && CodeAgrees(states[k].db.jobs, run, code)
        && w.jobs(run) == Ok(JobsOf(states[k].db.jobs, run))
  {
    ExecutionIsConsistent(s, states, labels, Started(c, w).value);
    n := GateIsSound(c, w, code, Dbs(states), at, listed);
    assert forall k :: 0 <= k <= |labels| ==> Dbs(states)[k] == states[k].db;
  }

  /** ... and over every interleaving, whatever committed databases the two requests read. */
  lemma InterleavedGate(c: Command, w: Surroundings, code: int, s: Settings, states: seq<R.Sys>, steps: seq<R.Step>,
                        at: nat -> nat, listed: nat) returns (n: nat)
    requires c.wait && Started(c, w).Some? && ExitCode(c, w, code)
    requires I.Schedule(s, states, steps) && R.SysInv(s, states[0])
    requires ReadsFrom(w, Started(c, w).value, I.CommittedDbs(states), at, listed)
    ensures GateCode(c, w, Started(c, w).value, n, code)
    ensures code in {0, 1} ==>
      var run := Started(c, w).value;
      forall k :: at(n) <= k <= |steps| ==>
        && SameInBoth(states[at(n)].db, states[k].db, run) && CodeAgrees(states[k].db.jobs, run, code)
        && w.jobs(run) == Ok(JobsOf(states[k].db.jobs, run))
  {
    ScheduleIsConsistent(s, states, steps, Started(c, w).value);
    n := GateIsSound(c, w, code, I.CommittedDbs(states), at, listed);
    assert forall k :: 0 <= k <= |steps| ==> I.CommittedDbs(states)[k] == states[k].db;
  }
}
