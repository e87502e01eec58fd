/** The job state machine and the four row updates that the services perform through it. */
module JobMachine {
  import opened Domain
  import opened Configuration

  datatype TransitionError = InvalidJobTransition(from: JobStatus, target: JobStatus)

  function AllowedTransitions(status: JobStatus): set<JobStatus> {
    match status
    case Queued => {Running}
    case Running => {Retrying, Passed, Failed, TimedOut}
    case Retrying => {Running}
    case Passed => {}
    case Failed => {}
    case TimedOut => {}
  }

  function TransitionJob(job: Job, target: JobStatus, now: Time): Result<Job, TransitionError> {
    if job.status == target then
      Ok(job)
    else if target !in AllowedTransitions(job.status) then
      Err(InvalidJobTransition(job.status, target))
    else if target.Running? then
      Ok(job.(status := target,
              startedAt := if job.startedAt.None? then Some(now) else job.startedAt,
              completedAt := None))
    else if target.Retrying? then
      Ok(job.(status := target, completedAt := None))
    else
      Ok(job.(status := target, completedAt := Some(now), lease := None, due := None))
  }

  /** What a transaction does to the job row it has locked. `Claim` carries the call timeout read from the
      device row; `Retry` the attempt number and error held by the failed execution. */
  datatype Action =
    | Claim(task: TaskId, timeout: Time)
    | Retry(task: TaskId, attempt: AttemptNumber, kind: ErrorKind, message: string, elapsed: Time)
    | Finish(task: TaskId, target: TerminalStatus, elapsed: Time, result: Option<string>,
             logs: Option<seq<string>>, error: Option<string>, details: Option<ErrorDetails>)
    | Expire

  predicate OwnsRunningAttempt(job: Job, task: TaskId) {
    job.status.Running? && job.worker == Some(task)
  }

  /** The two early returns of `_claim`: wrong status, or a retry that is not due yet. */
  predicate Claimable(job: Job, now: Time) {
    && job.status in {Queued, Retrying}
    && !(job.status.Retrying? && job.due.Some? && job.due.value > now)
  }

  predicate LeaseExpired(job: Job, now: Time) {
    job.status.Running? && job.lease.Some? && job.lease.value <= now
  }

  /** The guard each transaction evaluates on the locked row before it writes anything. */
  predicate Accepts(a: Action, job: Job, now: Time) {
    match a
    case Claim(_, _) => Claimable(job, now)
    case Retry(task, _, _, _, _) => OwnsRunningAttempt(job, task)
    case Finish(task, _, _, _, _, _, _) => OwnsRunningAttempt(job, task)
    case Expire => LeaseExpired(job, now)
  }

  const LEASE_EXPIRED := "Worker lease expired; scheduling another attempt"
  const LEASE_EXPIRED_FINALLY := "Worker lease expired after the final attempt"

  function ExpiryTarget(s: Settings, job: Job): JobStatus {
    if job.attempts >= s.maxAttempts then Failed else Retrying
  }

  /** The status each accepted action moves the row to. */
  function Target(s: Settings, a: Action, job: Job): JobStatus {
    match a
    case Claim(_, _) => Running
    case Retry(_, _, _, _, _) => Retrying
    case Finish(_, target, _, _, _, _, _) => target
    case Expire => ExpiryTarget(s, job)
  }

  /** No service ever triggers InvalidJobTransitionError: behind its guard every action makes a legal move. */
  lemma NoInvalidTransition(s: Settings, a: Action, job: Job, now: Time)
    requires Accepts(a, job, now)
    ensures TransitionJob(job, Target(s, a, job), now).Ok?
    ensures Target(s, a, job) != job.status
  {
  }

  /** The row after an accepted action: an active job moves on, in its place; its first claim starts it. */
  function Effect(s: Settings, a: Action, job: Job, now: Time): (job': Job)
    requires Accepts(a, job, now)
    ensures job'.run == job.run && job'.device == job.device
    ensures job.status.Active() && !job'.status.Queued?
    ensures job'.startedAt == if a.Claim? && job.startedAt.None? then Some(now) else job.startedAt
  {
    NoInvalidTransition(s, a, job, now);
    var moved := TransitionJob(job, Target(s, a, job), now).value;
    match a
    case Claim(task, timeout) =>
      moved.(attempts := moved.attempts + 1,
             due := None,
             lease := Some(now + (timeout + s.leaseGrace)),
             worker := Some(task))
    case Retry(_, attempt, kind, message, elapsed) =>
      var delay := Delay(s, attempt);
      moved.(due := Some(now + delay),
             lease := None,
             errorMessage := Some(message),
             errorDetails := Some(ErrorDetails(kind, true, Some(delay))),
             duration := Some(elapsed))
    case Finish(_, _, elapsed, result, logs, error, details) =>
      moved.(result := result,
             logs := logs,
             errorMessage := error,
             errorDetails := details,
             duration := Some(elapsed))
    case Expire =>
      if job.attempts >= s.maxAttempts then
        moved.(errorMessage := Some(LEASE_EXPIRED_FINALLY),
               errorDetails := Some(ErrorDetails(WorkerLeaseExpired, true, None)))
      else
        moved.(due := Some(now),
               lease := None,
               errorMessage := Some(LEASE_EXPIRED),
               errorDetails := Some(ErrorDetails(WorkerLeaseExpired, true, None)))
  }

  /** The row shapes that occur: a running job always carries a lease and no due time, a retrying job a due time
      and no lease, a queued job nothing at all; the attempt budget is never exceeded although `_claim` does not
      check it, and only the last attempt can time out. */
  ghost predicate Shape(s: Settings, job: Job) {
    match job.status
    case Queued =>
      && job.attempts == 0 && job.lease.None? && job.due.None? && job.worker.None?
      && job.startedAt.None? && job.completedAt.None?
    case Running =>
      && 1 <= job.attempts <= s.maxAttempts && job.lease.Some? && job.due.None? && job.worker.Some?
      && job.startedAt.Some? && job.completedAt.None?
    case Retrying =>
      && 1 <= job.attempts < s.maxAttempts && job.lease.None? && job.due.Some?
      && job.startedAt.Some? && job.completedAt.None?
    case _ =>
      && 1 <= job.attempts <= s.maxAttempts && job.lease.None? && job.due.None?
      && job.startedAt.Some? && job.completedAt.Some?
      && (job.status.TimedOut? ==> job.attempts == s.maxAttempts)
  }

  /** An execution that owns the row also holds its attempt number, retries only below the budget and times out
      only at it. The protocol invariant establishes this for every live execution. */
  ghost predicate Fenced(s: Settings, a: Action, job: Job) {
    match a
    case Retry(_, attempt, _, _, _) => attempt == job.attempts < s.maxAttempts
    case Finish(_, target, _, _, _, _, _) => target.TimedOut? ==> job.attempts >= s.maxAttempts
    case _ => true
  }

  /** Twice the attempts left, plus one while an attempt is running. */
  function Measure(s: Settings, job: Job): int {
    if job.status.Terminal() then 0
    else 2 * (s.maxAttempts - job.attempts) + (if job.status.Running? then 1 else 0)
  }

  /** Every accepted action keeps the row shapes and strictly lowers the measure, which stays between 0 and twice the
      attempt budget. */
  lemma EffectKeepsShape(s: Settings, a: Action, job: Job, now: Time)
    requires s.Valid() && Shape(s, job) && Accepts(a, job, now) && Fenced(s, a, job)
    ensures var job' := Effect(s, a, job, now);
      && Shape(s, job')
      && 0 <= Measure(s, job') < Measure(s, job) <= 2 * s.maxAttempts
      && job.attempts <= job'.attempts
  {
  }
}
