/** Properties of whole executions: stickiness, attempt accounting, fencing, backoff and termination. */
module History {
  import opened Domain
  import opened Configuration
  import opened JobMachine
  import opened Aggregation
  import opened Services
  import opened DatabaseInvariant
  import opened ReconcileOrder
  import opened Protocol

  // ---------------------------------------------------------------- jobs

  /** A job row only ever moves forward: terminal rows are frozen in every field, attempts never fall, and a row that
      changes without being claimed keeps its attempts. */
  lemma StepForward(s: Settings, st: State, l: Label, j: JobId)
    requires Inv(s, st) && Enabled(st, l) && j in st.db.jobs
    ensures j in Next(s, st, l).db.jobs
    ensures var job, job' := st.db.jobs[j], Next(s, st, l).db.jobs[j];
      && job'.run == job.run && job'.device == job.device
      && job.attempts <= job'.attempts
      && (job.status.Terminal() ==> job' == job)
      && (job.startedAt.Some? ==> job'.startedAt == job.startedAt)
      && (Measure(s, job') < Measure(s, job) <==> Moved(s, st, l, j))
      && (!Moved(s, st, l, j) ==> job' == job)
      && 0 <= Measure(s, job') <= 2 * s.maxAttempts
  {
    StepJob(s, st, l, j);
    StepKeepsInv(s, st, l);
    if Moved(s, st, l, j) {
      StepFenced(s, st, l, j);
      EffectKeepsShape(s, ActionOn(s, st, l, j).value, st.db.jobs[j], st.clock);
    }
  }

  /** The row survives, keeps its run, device and start instant, and never changes once it is terminal. */
  ghost predicate JobKept(jobs: Jobs, jobs': Jobs, j: JobId) {
    j in jobs ==>
      && j in jobs'
      && jobs'[j].run == jobs[j].run && jobs'[j].device == jobs[j].device && jobs[j].attempts <= jobs'[j].attempts
      && (jobs[j].status.Terminal() ==> jobs'[j] == jobs[j])
      && (jobs[j].startedAt.Some? ==> jobs'[j].startedAt == jobs[j].startedAt)
  }

  lemma JobKeptOnce(s: Settings, states: seq<State>, labels: seq<Label>, k: nat, j: JobId)
    requires Execution(s, states, labels) && Inv(s, states[0]) && k < |labels|
    ensures JobKept(states[k].db.jobs, states[k + 1].db.jobs, j)
    ensures states[k].clock <= states[k + 1].clock
  {
    ExecutionKeepsInv(s, states, labels, k);
    assert Taken(s, states, labels, k);
    if j in states[k].db.jobs {
      StepForward(s, states[k], labels[k], j);
    }
  }

  /** Over any stretch of an execution every job row is kept in this sense. */
  lemma {:induction false} Forward(s: Settings, states: seq<State>, labels: seq<Label>, i: nat, k: nat, j: JobId)
    requires Execution(s, states, labels) && Inv(s, states[0]) && i <= k <= |labels|
    ensures JobKept(states[i].db.jobs, states[k].db.jobs, j)
    ensures states[i].clock <= states[k].clock
  {
    if i < k {
      Forward(s, states, labels, i, k - 1, j);
      JobKeptOnce(s, states, labels, k - 1, j);
    }
  }

  // ---------------------------------------------------------------- attempt accounting

  ghost predicate ClaimAt(s: Settings, states: seq<State>, labels: seq<Label>, i: nat, j: JobId)
    requires Execution(s, states, labels) && i < |labels|
  {
    && labels[i].Deliver? && labels[i].message.job == j
    && ClaimResult(s, states[i].db, j, labels[i].message.task, states[i].clock).Some?
  }

  /** The numbers of the claims on `j` handed to workers in the first `k` steps, in order. */
  ghost function ClaimsOf(s: Settings, states: seq<State>, labels: seq<Label>, k: nat, j: JobId): seq<nat>
    requires Execution(s, states, labels) && k <= |labels|
  {
    if k == 0 then []
    else
      ClaimsOf(s, states, labels, k - 1, j) +
      if ClaimAt(s, states, labels, k - 1, j)
      then [ClaimResult(s, states[k - 1].db, j, labels[k - 1].message.task, states[k - 1].clock).value.attempt]
      else []
  }

  ghost function UpTo(n: nat): seq<nat> {
    seq(n, i => i + 1)
  }

  lemma UpToSucc(n: nat)
    ensures UpTo(n + 1) == UpTo(n) + [n + 1]
  {
  }

  /** A claim raises the attempts by one and is handed the new number; nothing else changes the attempts. */
  lemma StepAttempts(s: Settings, states: seq<State>, labels: seq<Label>, i: nat, j: JobId)
    requires s.Valid() && Execution(s, states, labels) && i < |labels| && j in states[i].db.jobs
    ensures j in states[i + 1].db.jobs
    ensures states[i + 1].db.jobs[j].attempts ==
            states[i].db.jobs[j].attempts + (if ClaimAt(s, states, labels, i, j) then 1 else 0)
    ensures ClaimAt(s, states, labels, i, j) ==>
      ClaimResult(s, states[i].db, j, labels[i].message.task, states[i].clock).value.attempt
      == states[i].db.jobs[j].attempts + 1
  {
    var st, l := states[i], labels[i];
    assert Taken(s, states, labels, i);
    StepJob(s, st, l, j);
    if Moved(s, st, l, j) {
      EffectOwner(s, ActionOn(s, st, l, j).value, st.db.jobs[j], st.clock);
    }
  }

  lemma StepNewJob(s: Settings, st: State, l: Label, j: JobId)
    requires s.Valid() && Enabled(st, l) && j !in st.db.jobs && j in Next(s, st, l).db.jobs
    ensures l.Create? && Next(s, st, l).db.jobs[j] == NewJob(l.run, Next(s, st, l).db.jobs[j].device)
    ensures l.run !in st.db.runs
  {
    match l
    case Recover(rows) => ExpireAllRows(s, st.db, rows, st.clock);
    case Create(request, unlocked, run, ids) =>
      if CreateRun(s, st.db, request, unlocked, run, ids, st.clock).Ok? {
        CreateRunAddsRun(s, st.db, request, unlocked, run, ids, st.clock);
      }
    case _ =>
  }

  lemma NewJobUnclaimed(s: Settings, states: seq<State>, labels: seq<Label>, i: nat, j: JobId)
    requires s.Valid() && Execution(s, states, labels) && i < |labels| && j !in states[i].db.jobs
    ensures !ClaimAt(s, states, labels, i, j)
    ensures j in states[i + 1].db.jobs ==> states[i + 1].db.jobs[j].attempts == 0
  {
    if j in states[i + 1].db.jobs {
      assert Taken(s, states, labels, i);
      StepNewJob(s, states[i], labels[i], j);
    }
  }

  /** The claims handed out on `j` are exactly 1, 2, ..., attempts. */
  ghost predicate Accounted(jobs: Jobs, j: JobId, claims: seq<nat>) {
    claims == if j in jobs then UpTo(jobs[j].attempts) else []
  }

  lemma AccountedNext(s: Settings, states: seq<State>, labels: seq<Label>, k: nat, j: JobId)
    requires s.Valid() && Execution(s, states, labels) && 0 < k <= |labels|
    requires Accounted(states[k - 1].db.jobs, j, ClaimsOf(s, states, labels, k - 1, j))
    ensures Accounted(states[k].db.jobs, j, ClaimsOf(s, states, labels, k, j))
  {
    if j in states[k - 1].db.jobs {
      StepAttempts(s, states, labels, k - 1, j);
      UpToSucc(states[k - 1].db.jobs[j].attempts);
    } else {
      NewJobUnclaimed(s, states, labels, k - 1, j);
    }
  }

  /** In every reachable state the claims handed out on a job are exactly 1, 2, ..., attempts, each once and in this
      order ... */
  lemma {:induction false} AttemptAccounting(s: Settings, states: seq<State>, labels: seq<Label>, k: nat, j: JobId)
    requires s.Valid() && Execution(s, states, labels) && Initial(states[0]) && k <= |labels|
    ensures Accounted(states[k].db.jobs, j, ClaimsOf(s, states, labels, k, j))
  {
    if k != 0 {
      AttemptAccounting(s, states, labels, k - 1, j);
      AccountedNext(s, states, labels, k, j);
    }
  }

  /** ... the budget is never exceeded, although `_claim` never looks at it, and a timed-out job has used all of it. */
  lemma BudgetRespected(s: Settings, states: seq<State>, labels: seq<Label>, k: nat, j: JobId)
    requires s.Valid() && Execution(s, states, labels) && Initial(states[0]) && k <= |labels|
    requires j in states[k].db.jobs
    ensures states[k].db.jobs[j].attempts == |ClaimsOf(s, states, labels, k, j)| <= s.maxAttempts
    ensures states[k].db.jobs[j].status.TimedOut? ==> states[k].db.jobs[j].attempts == s.maxAttempts
  {
    ExecutionKeepsInv(s, states, labels, k);
    AttemptAccounting(s, states, labels, k, j);
    assert Shape(s, states[k].db.jobs[j]);
  }

  // ---------------------------------------------------------------- fencing

  /** The execution holds the latest claim and the job is still running under it. */
  ghost predicate Current(jobs: Jobs, c: Claimed) {
    c.job in jobs && jobs[c.job].status.Running? && jobs[c.job].attempts == c.attempt
  }

  lemma CurrentIsAccepted(s: Settings, jobs: Jobs, c: Claimed, outcome: CallOutcome, elapsed: Time, now: Time)
    requires Linked(jobs, c)
    ensures Accepts(OutcomeAction(s, c, outcome, elapsed), jobs[c.job], now) <==> Current(jobs, c)
  {
  }

  lemma FencedWrite(s: Settings, db: Db, c: Claimed, outcome: CallOutcome, elapsed: Time, now: Time)
    requires Refs(db) && Linked(db.jobs, c)
    ensures Current(db.jobs, c) ==> Accepts(OutcomeAction(s, c, outcome, elapsed), db.jobs[c.job], now)
    ensures var db' := EndAttempt(s, db, c, outcome, elapsed, now);
      && (Current(db.jobs, c) <==> db' != db)
      && (Current(db.jobs, c) ==>
            && c.job in db'.jobs && !db'.jobs[c.job].status.Running?
            && db'.jobs[c.job] == Effect(s, OutcomeAction(s, c, outcome, elapsed), db.jobs[c.job], now))
  {
    CurrentIsAccepted(s, db.jobs, c, outcome, elapsed, now);
    PerformMoves(s, db, OutcomeAction(s, c, outcome, elapsed), c.job, now);
  }

  /** The final write of an execution takes effect exactly when its claim is current; the write of a superseded one
      (lease expired, job claimed again or terminal) leaves the whole database as it is. */
  lemma Fencing(s: Settings, st: State, c: Claimed, outcome: CallOutcome, elapsed: Time)
    requires Refs(st.db) && LiveInv(st) && c in st.live
    ensures var db, db' := st.db, Next(s, st, End(c, outcome, elapsed)).db;
      && (Current(db.jobs, c) <==> db' != db)
      && (Current(db.jobs, c) ==>
            && Accepts(OutcomeAction(s, c, outcome, elapsed), db.jobs[c.job], st.clock)
            && c.job in db'.jobs && !db'.jobs[c.job].status.Running?
            && db'.jobs[c.job] == Effect(s, OutcomeAction(s, c, outcome, elapsed), db.jobs[c.job], st.clock))
  {
    FencedWrite(s, st.db, c, outcome, elapsed, st.clock);
  }

  lemma PerformMoves(s: Settings, db: Db, a: Action, j: JobId, now: Time)
    requires Refs(db) && j in db.jobs && !a.Claim?
    ensures var db' := Perform(s, db, a, j, now);
      && j in db'.jobs
      && db'.jobs[j] == (if Accepts(a, db.jobs[j], now) then Effect(s, a, db.jobs[j], now) else db.jobs[j])
      && (Accepts(a, db.jobs[j], now) ==> db.jobs[j].status.Running? && !db'.jobs[j].status.Running?)
      && (Accepts(a, db.jobs[j], now) <==> db' != db)
  {
  }

  lemma EffectProvenance(s: Settings, a: Action, job: Job, now: Time)
    requires Accepts(a, job, now)
    ensures var job' := Effect(s, a, job, now);
      (job'.result != job.result || job'.logs != job.logs || job'.status.Passed? || job'.status.TimedOut?) ==>
      a.Finish? && job'.attempts == job.attempts && OwnsRunningAttempt(job, a.task)
  {
  }

  /** A result is stored, and a job passes or times out, only by the execution whose claim number is the job's number
      of attempts. */
  lemma ResultProvenance(s: Settings, st: State, l: Label, j: JobId)
    requires s.Valid() && LiveInv(st) && Enabled(st, l) && j in st.db.jobs
    ensures j in Next(s, st, l).db.jobs
    ensures var job, job' := st.db.jobs[j], Next(s, st, l).db.jobs[j];
      (job'.result != job.result || job'.logs != job.logs
       || (job'.status != job.status && (job'.status.Passed? || job'.status.TimedOut?))) ==>
      l.End? && l.claimed in st.live && l.claimed.job == j && l.claimed.attempt == job.attempts == job'.attempts
  {
    StepJob(s, st, l, j);
    if Moved(s, st, l, j) {
      EffectProvenance(s, ActionOn(s, st, l, j).value, st.db.jobs[j], st.clock);
      if l.End? { assert Linked(st.db.jobs, l.claimed); }
    }
  }

  // ---------------------------------------------------------------- waiting for a retry

  /** Only a claim changes a row that no attempt is running on. */
  lemma StepWaiting(s: Settings, st: State, l: Label, j: JobId)
    requires s.Valid() && Enabled(st, l) && j in st.db.jobs && !st.db.jobs[j].status.Running?
    ensures j in Next(s, st, l).db.jobs
    ensures var job, job' := st.db.jobs[j], Next(s, st, l).db.jobs[j];
      job' == job || (Claimable(job, st.clock) && job'.attempts == job.attempts + 1)
    ensures st.clock <= Next(s, st, l).clock
  {
    StepJob(s, st, l, j);
    if Moved(s, st, l, j) {
      EffectOwner(s, ActionOn(s, st, l, j).value, st.db.jobs[j], st.clock);
    }
  }

  /** A claimable job stays claimable, its row untouched, until a claim raises its attempts. */
  lemma {:induction false} StaysClaimable(s: Settings, states: seq<State>, labels: seq<Label>, i: nat, k: nat, j: JobId)
    requires Execution(s, states, labels) && Inv(s, states[0]) && i <= k <= |labels|
    requires j in states[i].db.jobs && Claimable(states[i].db.jobs[j], states[i].clock)
    ensures j in states[k].db.jobs
    ensures
      || states[k].db.jobs[j].attempts > states[i].db.jobs[j].attempts
      || (states[k].db.jobs[j] == states[i].db.jobs[j] && Claimable(states[k].db.jobs[j], states[k].clock))
  {
    if i < k {
      StaysClaimable(s, states, labels, i, k - 1, j);
      Forward(s, states, labels, k - 1, k, j);
      if !states[k - 1].db.jobs[j].status.Running? {
        assert Taken(s, states, labels, k - 1);
        StepWaiting(s, states[k - 1], labels[k - 1], j);
      }
    }
  }

  /** After a handled failure the row waits unchanged, at least until its due time. */
  lemma {:induction false} WaitsUntilDue(s: Settings, states: seq<State>, labels: seq<Label>, i: nat, k: nat, j: JobId)
    requires Execution(s, states, labels) && Inv(s, states[0]) && i <= k <= |labels|
    requires j in states[i].db.jobs && states[i].db.jobs[j].status.Retrying? && states[i].db.jobs[j].due.Some?
    ensures j in states[k].db.jobs
    ensures states[k].db.jobs[j] == states[i].db.jobs[j] || states[i].db.jobs[j].due.value <= states[k].clock
  {
    if i < k {
      WaitsUntilDue(s, states, labels, i, k - 1, j);
      Forward(s, states, labels, k - 1, k, j);
      if states[k - 1].db.jobs[j] == states[i].db.jobs[j] {
        assert Taken(s, states, labels, k - 1);
        StepWaiting(s, states[k - 1], labels[k - 1], j);
      }
    }
  }

  /** However many duplicate messages arrive, no claim follows the handled failure of attempt `n` sooner than the
      `n`-th backoff delay. */
  lemma BackoffRespected(s: Settings, states: seq<State>, labels: seq<Label>, i: nat, k: nat, j: JobId)
    requires Execution(s, states, labels) && Inv(s, states[0]) && i < k < |labels|
    requires j in states[i].db.jobs && Moved(s, states[i], labels[i], j)
    requires ActionOn(s, states[i], labels[i], j).value.Retry?
    requires ClaimAt(s, states, labels, k, j)
    ensures states[i].db.jobs[j].attempts >= 1
    ensures states[i].clock + Delay(s, states[i].db.jobs[j].attempts) <= states[k].clock
  {
    FailureAt(s, states, labels, i, j);
    WaitsUntilDue(s, states, labels, i + 1, k, j);
    ClaimedWhenDue(s, states, labels, k, j);
    DueBeforeClaim(s, states[i].db.jobs[j], states[i + 1].db.jobs[j], states[k].db.jobs[j],
                   states[i].clock, states[k].clock);
  }

  lemma DueBeforeClaim(s: Settings, job: Job, row: Job, claimed: Job, now: Time, later: Time)
    requires WaitsAfter(s, job, row, now) && Claimable(claimed, later)
    requires claimed == row || row.due.value <= later
    ensures now + Delay(s, job.attempts) <= later
  {
  }

  lemma FailureAt(s: Settings, states: seq<State>, labels: seq<Label>, i: nat, j: JobId)
    requires Execution(s, states, labels) && Inv(s, states[0]) && i < |labels|
    requires j in states[i].db.jobs && Moved(s, states[i], labels[i], j)
    requires ActionOn(s, states[i], labels[i], j).value.Retry?
    ensures j in states[i + 1].db.jobs && WaitsAfter(s, states[i].db.jobs[j], states[i + 1].db.jobs[j], states[i].clock)
  {
    ExecutionKeepsInv(s, states, labels, i);
    assert Taken(s, states, labels, i);
    StepJob(s, states[i], labels[i], j);
    FailureSetsDue(s, states[i], labels[i], j, states[i + 1].db.jobs[j]);
  }

  /** The row waits for the backoff delay of the attempt that `job` has just lost. */
  ghost predicate WaitsAfter(s: Settings, job: Job, job': Job, now: Time) {
    job.attempts >= 1 && job'.status.Retrying? && job'.due == Some(now + Delay(s, job.attempts))
  }

  lemma RetrySetsDue(s: Settings, a: Action, job: Job, now: Time)
    requires a.Retry? && Accepts(a, job, now) && Fenced(s, a, job)
    ensures WaitsAfter(s, job, Effect(s, a, job, now), now)
  {
  }

  lemma FailureSetsDue(s: Settings, st: State, l: Label, j: JobId, row: Job)
    requires Inv(s, st) && Enabled(st, l) && j in st.db.jobs
    requires Moved(s, st, l, j) && ActionOn(s, st, l, j).value.Retry?
    requires row == Effect(s, ActionOn(s, st, l, j).value, st.db.jobs[j], st.clock)
    ensures WaitsAfter(s, st.db.jobs[j], row, st.clock)
  {
    StepFenced(s, st, l, j);
    RetrySetsDue(s, ActionOn(s, st, l, j).value, st.db.jobs[j], st.clock);
  }

  lemma ClaimedWhenDue(s: Settings, states: seq<State>, labels: seq<Label>, k: nat, j: JobId)
    requires Execution(s, states, labels) && k < |labels| && ClaimAt(s, states, labels, k, j)
    ensures j in states[k].db.jobs && Claimable(states[k].db.jobs[j], states[k].clock)
  {
  }

  // ---------------------------------------------------------------- termination

  /** How often the row of `j` made a transition in the first `k` steps. */
  ghost function TransitionsOf(s: Settings, states: seq<State>, labels: seq<Label>, k: nat, j: JobId): nat
    requires Execution(s, states, labels) && k <= |labels|
  {
    if k == 0 then 0
    else
      TransitionsOf(s, states, labels, k - 1, j) +
      if j in states[k - 1].db.jobs && Moved(s, states[k - 1], labels[k - 1], j) then 1 else 0
  }

  /** The measure of a job starts at twice the attempt budget, falls at every transition and changes nowhere else. */
  lemma MeasureStep(s: Settings, st: State, l: Label, j: JobId, st': State)
    requires Inv(s, st) && Enabled(st, l) && st' == Next(s, st, l)
    ensures j in st.db.jobs ==>
      && j in st'.db.jobs
      && 0 <= Measure(s, st'.db.jobs[j])
      && (if Moved(s, st, l, j) then Measure(s, st'.db.jobs[j]) < Measure(s, st.db.jobs[j])
          else st'.db.jobs[j] == st.db.jobs[j])
    ensures j !in st.db.jobs && j in st'.db.jobs ==> Measure(s, st'.db.jobs[j]) == 2 * s.maxAttempts
  {
    if j in st.db.jobs {
      StepForward(s, st, l, j);
    } else if j in st'.db.jobs {
      StepNewJob(s, st, l, j);
    }
  }

  ghost predicate Bounded(s: Settings, jobs: Jobs, j: JobId, transitions: nat) {
    if j in jobs then 0 <= Measure(s, jobs[j]) <= 2 * s.maxAttempts - transitions else transitions == 0
  }

  lemma BoundedNext(s: Settings, states: seq<State>, labels: seq<Label>, k: nat, j: JobId)
    requires s.Valid() && Execution(s, states, labels) && Inv(s, states[0]) && 0 < k <= |labels|
    requires Bounded(s, states[k - 1].db.jobs, j, TransitionsOf(s, states, labels, k - 1, j))
    ensures Bounded(s, states[k].db.jobs, j, TransitionsOf(s, states, labels, k, j))
  {
    ExecutionKeepsInv(s, states, labels, k - 1);
    assert Taken(s, states, labels, k - 1);
    MeasureStep(s, states[k - 1], labels[k - 1], j, states[k]);
  }

  lemma {:induction false} TransitionsBounded(s: Settings, states: seq<State>, labels: seq<Label>, k: nat, j: JobId)
    requires s.Valid() && Execution(s, states, labels) && Initial(states[0]) && k <= |labels|
    ensures Bounded(s, states[k].db.jobs, j, TransitionsOf(s, states, labels, k, j))
  {
    if k != 0 {
      TransitionsBounded(s, states, labels, k - 1, j);
      BoundedNext(s, states, labels, k, j);
    }
  }

  ghost function Pick(ids: set<JobId>): (j: JobId)
    requires ids != {}
    ensures j in ids
  {
    var j :| j in ids; j
  }

  ghost function TotalTransitions(s: Settings, states: seq<State>, labels: seq<Label>, k: nat, ids: set<JobId>): nat
    requires Execution(s, states, labels) && k <= |labels|
    decreases |ids|
  {
    if ids == {} then 0
    else
      var j := Pick(ids);
      TransitionsOf(s, states, labels, k, j) + TotalTransitions(s, states, labels, k, ids - {j})
  }

  lemma TransitionsAtMost(s: Settings, states: seq<State>, labels: seq<Label>, k: nat, j: JobId)
    requires s.Valid() && Execution(s, states, labels) && Initial(states[0]) && k <= |labels|
    ensures TransitionsOf(s, states, labels, k, j) <= 2 * s.maxAttempts
  {
    TransitionsBounded(s, states, labels, k, j);
  }

  /** Whatever duplicates, deaths and reconciliations occur, `J` jobs make at most 2 * maxAttempts * J transitions. */
  lemma {:induction false} TotalTransitionsBounded(s: Settings, states: seq<State>, labels: seq<Label>, k: nat,
                                                   ids: set<JobId>)
    requires s.Valid() && Execution(s, states, labels) && Initial(states[0]) && k <= |labels|
    ensures TotalTransitions(s, states, labels, k, ids) <= 2 * s.maxAttempts * |ids|
    decreases |ids|
  {
    if ids != {} {
      var j, m := Pick(ids), 2 * s.maxAttempts;
      TransitionsAtMost(s, states, labels, k, j);
      TotalTransitionsBounded(s, states, labels, k, ids - {j});
      assert m * |ids - {j}| + m == m * (|ids - {j}| + 1);
    }
  }

  // ---------------------------------------------------------------- runs

  /** Stickiness and monotonicity of a run row. */
  ghost predicate RunForward(run: TestRun, run': TestRun) {
    && run'.suite == run.suite
    && (run.status.Terminal() ==> run' == run)
    && (run.status.RunRunning? ==> !run'.status.RunQueued?)
    && (run.startedAt.Some? ==> run'.startedAt == run.startedAt)
  }

  /** One job of the run may have moved on, and from `Queued` only to `Running`. */
  ghost predicate JobForward(job: Job, job': Job) {
    job' == job ||
    (job.status.Active() && !job'.status.Queued? && (job.status.Queued? ==> job'.status.Running?))
  }

  lemma RecomputeForward(run: TestRun, jobs: Jobs, jobs': Jobs, r: RunId, now: Time)
    requires RunOk(run, jobs, r)
    requires forall j :: InRun(jobs, j, r) <==> InRun(jobs', j, r)
    requires forall j :: InRun(jobs, j, r) && j in jobs' ==> JobForward(jobs[j], jobs'[j])
    ensures RunForward(run, RecomputeRow(run, jobs', r, now))
    ensures run.status.RunQueued? ==>
      var status := RecomputeRow(run, jobs', r, now).status;
      status.RunQueued? || status.RunRunning?
  {
    var j :| InRun(jobs, j, r);
    assert InRun(jobs', j, r);
    AggregateMeaning(jobs, r);
    AggregateMeaning(jobs', r);
    if run.status.RunRunning? {
      var k :| InRun(jobs, k, r) && !jobs[k].status.Queued?;
      assert !jobs'[k].status.Queued?;
    }
    if run.status.RunQueued? {
      assert jobs'[j].status.Active();
    }
  }

  /** No job ever joins or leaves an existing run, and its jobs move forward. */
  lemma StepRunJob(s: Settings, st: State, l: Label, r: RunId, j: JobId)
    requires s.Valid() && Enabled(st, l) && r in st.db.runs
    ensures var jobs, jobs' := st.db.jobs, Next(s, st, l).db.jobs;
      && (InRun(jobs, j, r) <==> InRun(jobs', j, r))
      && (InRun(jobs, j, r) && j in jobs' ==> JobForward(jobs[j], jobs'[j]))
  {
    if j in st.db.jobs {
      StepJob(s, st, l, j);
      if Moved(s, st, l, j) {
        EffectForward(s, ActionOn(s, st, l, j).value, st.db.jobs[j], st.clock);
      }
    } else if j in Next(s, st, l).db.jobs {
      StepNewJob(s, st, l, j);
    }
  }

  lemma EffectForward(s: Settings, a: Action, job: Job, now: Time)
    requires Accepts(a, job, now)
    ensures JobForward(job, Effect(s, a, job, now)) && Effect(s, a, job, now).run == job.run
  {
  }

  /** The run row is left alone or re-aggregated over the new jobs. */
  ghost predicate Reaggregates(db: Db, db': Db, r: RunId, now: Time) {
    r in db.runs && r in db'.runs
    && (db'.runs[r] == db.runs[r] || db'.runs[r] == RecomputeRow(db.runs[r], db'.jobs, r, now))
  }

  lemma PerformRunRow(s: Settings, db: Db, a: Action, j: JobId, now: Time, r: RunId)
    requires Refs(db) && r in db.runs
    ensures Reaggregates(db, Perform(s, db, a, j, now), r, now)
  {
  }

  lemma ClaimRunRow(s: Settings, db: Db, m: Message, now: Time, r: RunId)
    requires Refs(db) && r in db.runs
    ensures Reaggregates(db, ClaimJob(s, db, m.job, m.task, now), r, now)
  {
    if m.job in db.jobs { PerformRunRow(s, db, ClaimAction(s, db, m.job, m.task), m.job, now, r); }
  }

  lemma RecoverRunRow(s: Settings, db: Db, rows: seq<JobId>, now: Time, r: RunId)
    requires Refs(db) && Exclusive(db.jobs) && RunsOk(db) && ExpiredRows(db, rows, now) && r in db.runs
    ensures Reaggregates(db, Reconcile(s, db, rows, now).0, r, now)
  {
    LoopIsFold(s, db, rows, now);
  }

  lemma CreateRunRow(s: Settings, db: Db, request: RunRequest, unlocked: set<DeviceId>, run: RunId,
                     ids: map<DeviceId, JobId>, now: Time, r: RunId)
    requires FreshIds(db, run, ids) && r in db.runs
    ensures Reaggregates(db, Committed(db, CreateRun(s, db, request, unlocked, run, ids, now)), r, now)
  {
  }

  /** A step leaves a run row alone or re-aggregates it over the new jobs. */
  lemma StepRunRow(s: Settings, st: State, l: Label, r: RunId, db': Db)
    requires Refs(st.db) && Exclusive(st.db.jobs) && RunsOk(st.db) && Feasible(st, l) && r in st.db.runs
    requires db' == Next(s, st, l).db
    ensures Reaggregates(st.db, db', r, st.clock)
  {
    match l
    case Recover(rows) => RecoverRunRow(s, st.db, rows, st.clock, r);
    case Deliver(m) => ClaimRunRow(s, st.db, m, st.clock, r);
    case End(c, outcome, elapsed) => PerformRunRow(s, st.db, OutcomeAction(s, c, outcome, elapsed), c.job, st.clock, r);
    case Create(request, unlocked, run, ids) => CreateRunRow(s, st.db, request, unlocked, run, ids, st.clock, r);
    case _ =>
  }

  /** A step moves a run only from queued to running to passed or failed, and never touches a terminal run. */
  lemma StepRun(s: Settings, st: State, l: Label, r: RunId)
    requires Inv(s, st) && Enabled(st, l) && r in st.db.runs
    ensures r in Next(s, st, l).db.runs
    ensures RunForward(st.db.runs[r], Next(s, st, l).db.runs[r])
    ensures st.db.runs[r].status.RunQueued? ==>
      var status := Next(s, st, l).db.runs[r].status;
      status.RunQueued? || status.RunRunning?
    ensures forall j :: InRun(st.db.jobs, j, r) <==> InRun(Next(s, st, l).db.jobs, j, r)
  {
    var jobs, jobs' := st.db.jobs, Next(s, st, l).db.jobs;
    forall j
      ensures InRun(jobs, j, r) <==> InRun(jobs', j, r)
      ensures InRun(jobs, j, r) && j in jobs' ==> JobForward(jobs[j], jobs'[j])
    {
      StepRunJob(s, st, l, r, j);
    }
    StepRunRow(s, st, l, r, Next(s, st, l).db);
    assert RunOk(st.db.runs[r], jobs, r);
    RecomputeForward(st.db.runs[r], jobs, jobs', r, st.clock);
  }

  /** The run has moved forward and has the same jobs. */
  ghost predicate RunKept(db: Db, db': Db, r: RunId) {
    r in db.runs ==>
      && r in db'.runs && RunForward(db.runs[r], db'.runs[r])
      && (forall j :: InRun(db.jobs, j, r) <==> InRun(db'.jobs, j, r))
  }

  lemma RunKeptOnce(s: Settings, states: seq<State>, labels: seq<Label>, k: nat, r: RunId)
    requires Execution(s, states, labels) && Inv(s, states[0]) && k < |labels|
    ensures RunKept(states[k].db, states[k + 1].db, r)
  {
    if r in states[k].db.runs {
      ExecutionKeepsInv(s, states, labels, k);
      assert Taken(s, states, labels, k);
      StepRun(s, states[k], labels[k], r);
    }
  }

  lemma RunKeptTwice(a: Db, b: Db, c: Db, r: RunId)
    requires RunKept(a, b, r) && RunKept(b, c, r)
    ensures RunKept(a, c, r)
  {
  }

  lemma {:induction false} RunsForward(s: Settings, states: seq<State>, labels: seq<Label>, i: nat, k: nat, r: RunId)
    requires Execution(s, states, labels) && Inv(s, states[0]) && i <= k <= |labels|
    ensures RunKept(states[i].db, states[k].db, r)
  {
    if i < k {
      RunsForward(s, states, labels, i, k - 1, r);
      RunKeptOnce(s, states, labels, k - 1, r);
      RunKeptTwice(states[i].db, states[k - 1].db, states[k].db, r);
    }
  }
}
