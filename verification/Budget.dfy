/** The executor's attempts composed with the scripted simulator: how a job ends, and how long a device may take. */
module Budget {
  import opened Domain
  import opened Configuration
  import opened JobMachine
  import opened Services
  import opened Agent

  /** What the environment decides for the `n`-th attempt: the message that claims it, how long after the due time
      the claim happens, and how long the device needs to answer a call it need not wait for. */
  datatype Environment = Environment(host: bool, tasks: nat -> TaskId, late: nat -> Time, answer: nat -> Time)

  /** Claims are never early, and calls are answered in time. */
  ghost predicate Admissible(s: Settings, env: Environment) {
    && (forall n :: 0.0 <= env.late(n))
    && (forall n :: 0.0 <= env.answer(n) < s.CallTimeout(env.host))
  }

  ghost predicate OnTime(env: Environment) {
    forall n :: Lateness(env, n) == 0.0
  }

  function Lateness(env: Environment, n: nat): Time {
    Max(0.0, env.late(n))
  }

  /** How the call made at `c` ends for the executor, and when. A refusal is HTTP 503, a conflict HTTP 409; an
      attached call waits for the execution until the call timeout. */
  function Call(cfg: AgentSettings, timeout: Time, answer: Time, reply: Reply, c: Time): (CallOutcome, Time) {
    match reply
    case Conflict => (CallPermanent("job_id was reused with a different request"), c + answer)
    case Refused => (CallTransient("device refused the job"), c + answer)
    case Attached(task) =>
      var done := task.started + cfg.executionTime;
      if done < c + timeout then
        (Responded(Response(task.outcome.Pass?, "result", [], None, 1000.0 * cfg.executionTime)), Max(done, c + answer))
      else
        (CallTimedOut("device timed out"), c + timeout)
  }

  function Claiming(s: Settings, env: Environment, j: JobId, job: Job): Claimed {
    Claimed(env.tasks(job.attempts + 1), j, job.attempts + 1, s.CallTimeout(env.host))
  }

  function ClaimedRow(s: Settings, c: Claimed, job: Job, at: Time): Job
    requires Claimable(job, at)
  {
    Effect(s, Claim(c.task, c.timeout), job, at)
  }

  /** The row that is claimed at `at` and whose call ends at `end`. */
  function EndedRow(s: Settings, c: Claimed, job: Job, outcome: CallOutcome, at: Time, end: Time): Job
    requires Claimable(job, at)
  {
    Effect(s, OutcomeAction(s, c, outcome, end - at), ClaimedRow(s, c, job, at), end)
  }

  /** One attempt: claim the row at `at`, call the device with a deadline counted from there, write the outcome. */
  function Attempt(s: Settings, cfg: AgentSettings, env: Environment, e: Engine, r: Request, job: Job, at: Time)
    : (left: (Engine, Job))
    requires cfg.Valid() && Claimable(job, at)
    ensures left.1.attempts == job.attempts + 1
    ensures left.1.status.Retrying? ==> left.1.attempts < s.maxAttempts && left.1.due.Some?
  {
    var c := Claiming(s, env, r.job, job);
    var served := Serve(cfg, e, r.(deadline := at + c.timeout), at);
    var ended := Call(cfg, c.timeout, env.answer(c.attempt), served.1, at);
    (served.0, EndedRow(s, c, job, ended.0, at, ended.1))
  }

  lemma OwnerEnds(s: Settings, c: Claimed, outcome: CallOutcome, elapsed: Time, job: Job, now: Time)
    requires OwnsRunningAttempt(job, c.task)
    ensures Accepts(OutcomeAction(s, c, outcome, elapsed), job, now)
  {
  }

  /** The two transactions of the executor, whatever the call between them brings, leave exactly that row. */
  lemma ClaimThenEnd(s: Settings, db: Db, c: Claimed, outcome: CallOutcome, at: Time, end: Time)
    requires Refs(db) && c.job in db.jobs && Claimable(db.jobs[c.job], at)
    requires c.attempt == db.jobs[c.job].attempts + 1
    requires c.timeout == s.CallTimeout(db.devices[db.jobs[c.job].device].host)
    ensures ClaimResult(s, db, c.job, c.task, at) == Some(c)
    ensures EndAttempt(s, ClaimJob(s, db, c.job, c.task, at), c, outcome, end - at, end).jobs
         == db.jobs[c.job := EndedRow(s, c, db.jobs[c.job], outcome, at, end)]
  {
    PerformRows(s, db, Claim(c.task, c.timeout), c.job, at);
    OwnerEnds(s, c, outcome, end - at, ClaimedRow(s, c, db.jobs[c.job], at), end);
    PerformRows(s, ClaimJob(s, db, c.job, c.task, at), OutcomeAction(s, c, outcome, end - at), c.job, end);
  }

  /** Attempts until the row is no longer waiting for another one. */
  function Drive(s: Settings, cfg: AgentSettings, env: Environment, e: Engine, r: Request, job: Job, c: Time): Job
    requires cfg.Valid() && Claimable(job, c)
    requires job.attempts < s.maxAttempts
    decreases s.maxAttempts - job.attempts, 1
  {
    var (e', job') := Attempt(s, cfg, env, e, r, job, c);
    Continue(s, cfg, env, e', r, job')
  }

  /** The next attempt, if one is due. */
  function Continue(s: Settings, cfg: AgentSettings, env: Environment, e: Engine, r: Request, job: Job): Job
    requires cfg.Valid()
    requires job.status.Retrying? ==> job.attempts < s.maxAttempts && job.due.Some?
    decreases s.maxAttempts - job.attempts, 2
  {
    if job.status.Retrying? then Drive(s, cfg, env, e, r, job, job.due.value + Lateness(env, job.attempts)) else job
  }

  /** The lease that a claim stores ends after the call timeout and before the worker's hard limit. */
  lemma ClaimLease(s: Settings, db: Db, j: JobId, task: TaskId, now: Time)
    requires s.Valid() && Refs(db) && j in db.jobs && Claimable(db.jobs[j], now)
    ensures var lease := ClaimJob(s, db, j, task, now).jobs[j].lease;
      && ClaimResult(s, db, j, task, now).Some?
      && lease.Some?
      && now + ClaimResult(s, db, j, task, now).value.timeout < lease.value < now + s.HardLimit() as real
  {
    PerformRows(s, db, ClaimAction(s, db, j, task), j, now);
    LimitsOrdered(s);
  }

  /** While an attempt of an admissible environment is under way its lease has not expired: the reconciler never
      takes the row from it. */
  lemma LeaseCoversAttempt(s: Settings, cfg: AgentSettings, env: Environment, reply: Reply, j: JobId, job: Job,
                           c: Time, t: Time)
    requires s.Valid() && Claimable(job, c) && Admissible(s, env)
    requires t <= Call(cfg, s.CallTimeout(env.host), env.answer(job.attempts + 1), reply, c).1
    ensures !LeaseExpired(ClaimedRow(s, Claiming(s, env, j, job), job, c), t)
  {
  }

  /** From the claim of attempt `a` to the end of attempt `n` when each of them runs into the call timeout and each
      claim is on time. */
  function Span(s: Settings, timeout: Time, a: AttemptNumber, n: nat): Time
    decreases n - a
  {
    if n <= a then timeout else timeout + Delay(s, a) + Span(s, timeout, a + 1, n)
  }

  lemma {:induction false} FirstDelay(s: Settings, a: AttemptNumber, n: nat)
    requires a < n
    ensures DelaySum(s, a, n) == Delay(s, a) + DelaySum(s, a + 1, n)
    decreases n
  {
    if a + 1 < n {
      FirstDelay(s, a, n - 1);
    }
  }

  /** The span in closed form: the timeouts of its `count` attempts plus the waits between them. */
  lemma {:induction false} SpanIsBudget(s: Settings, timeout: Time, a: AttemptNumber, n: nat, count: nat)
    requires a <= n && count == n - a + 1
    ensures Span(s, timeout, a, n) == Repeated(count, timeout) + DelaySum(s, a, n)
    decreases count
  {
    if a < n {
      SpanIsBudget(s, timeout, a + 1, n, count - 1);
      FirstDelay(s, a, n);
    }
  }

  lemma {:induction false} SpanPositive(s: Settings, timeout: Time, a: AttemptNumber, n: nat)
    requires s.Valid() && 0.0 < timeout
    ensures timeout <= Span(s, timeout, a, n)
    decreases n - a
  {
    if a < n {
      SpanPositive(s, timeout, a + 1, n);
      BackoffLaw(s, a);
    }
  }

  /** The device has accepted the job and runs it since `task.started`. */
  ghost predicate Accepted(e: Engine, r: Request, task: Task) {
    && r.job in e.executions
    && e.executions[r.job] == Cached(FingerprintOf(r), task)
    && !task.outcome.Refuses()
  }

  function Verdict(outcome: Outcome): JobStatus {
    if outcome.Pass? then Passed else Failed
  }

  /** How the row stands after the attempt claimed at `c`, once the device answers with `task`. */
  lemma AttachedAttempt(s: Settings, cfg: AgentSettings, env: Environment, e: Engine, r: Request, job: Job, c: Time,
                        task: Task)
    requires cfg.Valid() && Claimable(job, c) && job.attempts < s.maxAttempts
    requires Serve(cfg, e, r.(deadline := c + s.CallTimeout(env.host)), c).1 == Attached(task)
    ensures var job' := Attempt(s, cfg, env, e, r, job, c).1;
      && job'.attempts == job.attempts + 1
      && (task.started + cfg.executionTime < c + s.CallTimeout(env.host) ==> job'.status == Verdict(task.outcome))
      && (task.started + cfg.executionTime >= c + s.CallTimeout(env.host) ==>
            if job'.attempts == s.maxAttempts then job'.status.TimedOut?
            else job'.status.Retrying?
                 && job'.due == Some(c + s.CallTimeout(env.host) + Delay(s, job'.attempts)))
  {
  }

  /** Retries attach to the one running task: a later call of the same job is served with it, whatever its deadline. */
  lemma AttachesAgain(s: Settings, cfg: AgentSettings, env: Environment, e: Engine, r: Request, job: Job, c: Time,
                      task: Task, deadline: Time, c': Time)
    requires cfg.Valid() && Claimable(job, c)
    requires Accepted(Serve(cfg, e, r.(deadline := c + s.CallTimeout(env.host)), c).0, r, task)
    ensures Serve(cfg, Attempt(s, cfg, env, e, r, job, c).0, r.(deadline := deadline), c')
         == (Attempt(s, cfg, env, e, r, job, c).0, Attached(task))
    ensures Accepted(Attempt(s, cfg, env, e, r, job, c).0, r, task)
  {
  }

  /** How a job ends whose attempt `a`, claimed at `c`, attaches to a task that is over at `done`. */
  ghost predicate EndsBy(s: Settings, env: Environment, task: Task, done: Time, a: AttemptNumber, c: Time, job: Job) {
    var timeout := s.CallTimeout(env.host);
    && a <= job.attempts <= s.maxAttempts
    && (done < c + Span(s, timeout, a, s.maxAttempts) ==> job.status == Verdict(task.outcome))
    && (a < job.attempts ==> c + Span(s, timeout, a, job.attempts - 1) <= done)
    && (OnTime(env) && done < c + Span(s, timeout, a, s.maxAttempts) ==> done < c + Span(s, timeout, a, job.attempts))
    && (OnTime(env) && done >= c + Span(s, timeout, a, s.maxAttempts) ==>
          job.status.TimedOut? && job.attempts == s.maxAttempts)
  }

  lemma EndsByRetry(s: Settings, env: Environment, task: Task, done: Time, a: AttemptNumber, c: Time, c': Time,
                    job: Job)
    requires s.Valid() && a < s.maxAttempts
    requires var due := c + s.CallTimeout(env.host) + Delay(s, a);
      due <= c' && (OnTime(env) ==> c' == due)
    requires c + s.CallTimeout(env.host) <= done
    requires EndsBy(s, env, task, done, a + 1, c', job)
    ensures EndsBy(s, env, task, done, a, c, job)
  {
    var timeout := s.CallTimeout(env.host);
    assert forall n | n > a :: Span(s, timeout, a, n) == timeout + Delay(s, a) + Span(s, timeout, a + 1, n);
    assert Span(s, timeout, a, a) == timeout;
  }

  lemma EndsHere(s: Settings, env: Environment, task: Task, done: Time, c: Time, job: Job)
    requires s.Valid() && 1 <= job.attempts <= s.maxAttempts
    requires if done < c + s.CallTimeout(env.host) then job.status == Verdict(task.outcome)
             else job.attempts == s.maxAttempts && job.status.TimedOut?
    ensures EndsBy(s, env, task, done, job.attempts, c, job)
  {
    SpanPositive(s, s.CallTimeout(env.host), job.attempts, s.maxAttempts);
  }

  lemma {:induction false} DriveAttached(s: Settings, cfg: AgentSettings, env: Environment, e: Engine, r: Request,
                                         job: Job, c: Time, task: Task)
    requires s.Valid() && cfg.Valid() && Claimable(job, c) && job.attempts < s.maxAttempts
    requires Serve(cfg, e, r.(deadline := c + s.CallTimeout(env.host)), c).1 == Attached(task)
    requires Accepted(Serve(cfg, e, r.(deadline := c + s.CallTimeout(env.host)), c).0, r, task)
    ensures EndsBy(s, env, task, task.started + cfg.executionTime, job.attempts + 1, c,
        Drive(s, cfg, env, e, r, job, c))
    decreases s.maxAttempts - job.attempts
  {
    var done := task.started + cfg.executionTime;
    var timeout := s.CallTimeout(env.host);
    var (e', job') := Attempt(s, cfg, env, e, r, job, c);
    AttachedAttempt(s, cfg, env, e, r, job, c, task);
    if job'.status.Retrying? {
      var c' := job'.due.value + Lateness(env, job'.attempts);
      AttachesAgain(s, cfg, env, e, r, job, c, task, c' + timeout, c');
      DriveAttached(s, cfg, env, e', r, job', c', task);
      EndsByRetry(s, env, task, done, job'.attempts, c, c', Drive(s, cfg, env, e', r, job', c'));
    } else {
      EndsHere(s, env, task, done, c, job');
    }
  }

  /** Exactly the first `k` script items that `limit` calls can reach refuse the job. */
  ghost predicate Refusals(cfg: AgentSettings, k: nat, limit: nat)
    requires cfg.Valid()
  {
    && (forall i: nat :: i < k ==> ScriptAt(cfg, i).Refuses())
    && (k < limit ==> !ScriptAt(cfg, k).Refuses())
  }

  /** The device has not accepted the job and has counted one script item per attempt so far. */
  ghost predicate Unaccepted(e: Engine, r: Request, attempts: nat) {
    r.job !in e.executions && Calls(e, r.job) == attempts
  }

  lemma RefusedAttempt(s: Settings, cfg: AgentSettings, env: Environment, e: Engine, r: Request, job: Job, c: Time)
    requires cfg.Valid() && Claimable(job, c) && job.attempts < s.maxAttempts
    requires Unaccepted(e, r, job.attempts) && ScriptAt(cfg, job.attempts).Refuses()
    ensures var (e', job') := Attempt(s, cfg, env, e, r, job, c);
      && Unaccepted(e', r, job'.attempts)
      && job'.attempts == job.attempts + 1
      && (if job'.attempts == s.maxAttempts then job'.status.Failed? else job'.status.Retrying? && job'.due.Some?)
  {
  }

  lemma AcceptingCall(cfg: AgentSettings, e: Engine, r: Request, k: nat, deadline: Time, c: Time)
    requires cfg.Valid() && Unaccepted(e, r, k) && !ScriptAt(cfg, k).Refuses()
    ensures var served := Serve(cfg, e, r.(deadline := deadline), c);
      var task := Task(r.(deadline := deadline), ScriptAt(cfg, k), c);
      served.1 == Attached(task) && Accepted(served.0, r, task)
  {
  }

  /** The same for a task that starts with attempt `k + 1`, for the time it needs. */
  ghost predicate EndsWithinBudget(s: Settings, cfg: AgentSettings, env: Environment, k: nat, job: Job)
    requires cfg.Valid()
  {
    var timeout := s.CallTimeout(env.host);
    var needed := cfg.executionTime;
    && k + 1 <= job.attempts <= s.maxAttempts
    && (needed < Span(s, timeout, k + 1, s.maxAttempts) ==> job.status == Verdict(ScriptAt(cfg, k)))
    && (k + 1 < job.attempts ==> Span(s, timeout, k + 1, job.attempts - 1) <= needed)
    && (OnTime(env) && needed < Span(s, timeout, k + 1, s.maxAttempts) ==>
        needed < Span(s, timeout, k + 1, job.attempts))
    && (OnTime(env) && needed >= Span(s, timeout, k + 1, s.maxAttempts) ==>
          job.status.TimedOut? && job.attempts == s.maxAttempts)
  }

  lemma FromItsStart(s: Settings, cfg: AgentSettings, env: Environment, task: Task, k: nat, c: Time, job: Job)
    requires s.Valid() && cfg.Valid() && task.started == c && task.outcome == ScriptAt(cfg, k)
    requires EndsBy(s, env, task, c + cfg.executionTime, k + 1, c, job)
    ensures EndsWithinBudget(s, cfg, env, k, job)
  {
  }

  ghost predicate EndsAsScripted(s: Settings, cfg: AgentSettings, env: Environment, k: nat, job: Job)
    requires cfg.Valid()
  {
    if k >= s.maxAttempts then job.status.Failed? && job.attempts == s.maxAttempts
    else EndsWithinBudget(s, cfg, env, k, job)
  }

  lemma {:induction false} DriveRefused(s: Settings, cfg: AgentSettings, env: Environment, e: Engine, r: Request,
                                        job: Job, c: Time, k: nat)
    requires s.Valid() && cfg.Valid() && Claimable(job, c) && job.attempts < s.maxAttempts
    requires Refusals(cfg, k, s.maxAttempts) && job.attempts <= k && Unaccepted(e, r, job.attempts)
    ensures EndsAsScripted(s, cfg, env, k, Drive(s, cfg, env, e, r, job, c))
    decreases s.maxAttempts - job.attempts
  {
    if job.attempts == k {
      var deadline := c + s.CallTimeout(env.host);
      var task := Task(r.(deadline := deadline), ScriptAt(cfg, k), c);
      AcceptingCall(cfg, e, r, k, deadline, c);
      DriveAttached(s, cfg, env, e, r, job, c, task);
      FromItsStart(s, cfg, env, task, k, c, Drive(s, cfg, env, e, r, job, c));
    } else {
      RefusedAttempt(s, cfg, env, e, r, job, c);
      var (e', job') := Attempt(s, cfg, env, e, r, job, c);
      if job'.status.Retrying? {
        DriveRefused(s, cfg, env, e', r, job', job'.due.value + Lateness(env, job'.attempts), k);
      }
    }
  }

  /** The time that attempts `k + 1`, ..., `n` leave the device: their call timeouts and the waits between them. */
  function TimeBudget(s: Settings, host: bool, k: nat, n: nat): Time
    requires k < n
  {
    Repeated(n - k, s.CallTimeout(host)) + DelaySum(s, k + 1, n)
  }

  lemma BudgetIsSpan(s: Settings, host: bool, k: nat, n: nat)
    requires s.Valid() && k < n
    ensures TimeBudget(s, host, k, n) == Span(s, s.CallTimeout(host), k + 1, n)
    ensures s.CallTimeout(host) <= TimeBudget(s, host, k, n)
  {
    SpanIsBudget(s, s.CallTimeout(host), k + 1, n, n - k);
    SpanPositive(s, s.CallTimeout(host), k + 1, n);
  }

  /** How a new job ends on a device whose script refuses the first `k` calls, for every script (the last item
      repeats), every number of attempts and however late the claims are:
      - the refusals use up every attempt and the job fails, or the device accepts attempt `k + 1`;
      - an accepted job that needs less than the time budget ends with the verdict of script item `k`;
      - it takes no retry at all when it needs less than one call timeout, and another attempt only when it outlasts
        the budget of the earlier ones;
      - with claims on time it takes exactly the attempts whose budget it needs, and at or above the whole budget it
        ends timed out after the last one. */
  lemma ScriptedJob(s: Settings, cfg: AgentSettings, env: Environment, e: Engine, r: Request, run: RunId,
                    d: DeviceId, c: Time, k: nat)
    requires s.Valid() && cfg.Valid() && Refusals(cfg, k, s.maxAttempts) && Unaccepted(e, r, 0)
    ensures var job := Drive(s, cfg, env, e, r, NewJob(run, d), c);
      var needed := cfg.executionTime;
      if k >= s.maxAttempts then job.status.Failed? && job.attempts == s.maxAttempts
      else
        && k + 1 <= job.attempts <= s.maxAttempts
        && (needed < TimeBudget(s, env.host, k, s.maxAttempts) ==> job.status == Verdict(ScriptAt(cfg, k)))
        && (needed < s.CallTimeout(env.host) ==> job.attempts == k + 1 && job.status == Verdict(ScriptAt(cfg, k)))
        && (k + 1 < job.attempts ==> TimeBudget(s, env.host, k, job.attempts - 1) <= needed)
        && (OnTime(env) ==>
              if needed < TimeBudget(s, env.host, k, s.maxAttempts) then
                  needed < TimeBudget(s, env.host, k, job.attempts)
              else job.status.TimedOut? && job.attempts == s.maxAttempts)
  {
    DriveRefused(s, cfg, env, e, r, NewJob(run, d), c, k);
    if k < s.maxAttempts {
      forall n: nat | k < n
        ensures TimeBudget(s, env.host, k, n) == Span(s, s.CallTimeout(env.host), k + 1, n) >= s.CallTimeout(env.host)
      {
        BudgetIsSpan(s, env.host, k, n);
      }
    }
  }

  // ---------------------------------------------------------------- the modes of the simulator

  /** On a healthy or slow agent a job passes whenever it needs less than the budget of all attempts, and at the first
      attempt when it needs less than the call timeout. */
  lemma HealthyJob(s: Settings, cfg: AgentSettings, env: Environment, e: Engine, r: Request, run: RunId, d: DeviceId,
                   c: Time)
    requires s.Valid() && cfg.Valid() && !cfg.unreliable && r.job !in e.executions && r.job !in e.attempts
    ensures var job := Drive(s, cfg, env, e, r, NewJob(run, d), c);
      && (cfg.executionTime < TimeBudget(s, env.host, 0, s.maxAttempts) ==> job.status.Passed?)
      && (cfg.executionTime < s.CallTimeout(env.host) ==> job.attempts == 1)
  {
    ScriptedJob(s, cfg, env, e, r, run, d, c, 0);
  }

  ghost predicate Refusing(item: Outcome) {
    item == Transient || item == Disconnect
  }

  /** On an unreliable agent whose script refuses up to item `k` and then accepts, with an attempt left for it, a job
      that needs less than the remaining budget passes if and only if item `k` says pass, and fails otherwise. */
  lemma UnreliableJob(s: Settings, cfg: AgentSettings, env: Environment, e: Engine, r: Request, run: RunId, d: DeviceId,
                      c: Time, k: nat)
    requires s.Valid() && cfg.Valid() && cfg.unreliable && r.job !in e.executions && r.job !in e.attempts
    requires k < |cfg.script| && k < s.maxAttempts && !Refusing(cfg.script[k])
    requires forall i :: 0 <= i < k ==> Refusing(cfg.script[i])
    requires cfg.executionTime < TimeBudget(s, env.host, k, s.maxAttempts)
    ensures var job := Drive(s, cfg, env, e, r, NewJob(run, d), c);
      && (job.status.Passed? <==> cfg.script[k] == Pass) && (job.status.Failed? <==> cfg.script[k] == Fail)
      && (cfg.executionTime < s.CallTimeout(env.host) ==> job.attempts == k + 1)
  {
    assert Refusals(cfg, k, s.maxAttempts);
    ScriptedJob(s, cfg, env, e, r, run, d, c, k);
  }

  /** A script that refuses as many calls as there are attempts, or all its items, fails the job after all attempts. */
  lemma RefusedJob(s: Settings, cfg: AgentSettings, env: Environment, e: Engine, r: Request, run: RunId, d: DeviceId,
                   c: Time)
    requires s.Valid() && cfg.Valid() && cfg.unreliable && r.job !in e.executions && r.job !in e.attempts
    requires forall i :: 0 <= i < |cfg.script| && i < s.maxAttempts ==> Refusing(cfg.script[i])
    ensures var job := Drive(s, cfg, env, e, r, NewJob(run, d), c);
      job.status.Failed? && job.attempts == s.maxAttempts
  {
    assert Refusals(cfg, s.maxAttempts, s.maxAttempts);
    ScriptedJob(s, cfg, env, e, r, run, d, c, s.maxAttempts);
  }
}
