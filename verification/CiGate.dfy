/** The CI client: waiting for a run to end, and its exit code. */
module CiGate {
  import opened Domain

  datatype ClientError = ClientError(reason: string)

  datatype Command = Command(suite: string, wait: bool, timeout: Time, poll: Time)

  datatype Suite = Suite(slug: string, id: SuiteId)

  /** What the client meets: whether its arguments are acceptable, the server's answers (at last the job list), and
      the clock readings of the `n`-th round of the wait loop before and after its request. */
  datatype Surroundings = Surroundings(
    source: Result<(), ClientError>,
    suites: Result<seq<Suite>, ClientError>,
    created: SuiteId -> Result<RunId, ClientError>,
    start: Time,
    check: nat -> Time,
    status: (RunId, nat) -> Result<RunStatus, ClientError>,
    after: nat -> Time,
    jobs: RunId -> Result<Jobs, ClientError>)

  function Pause(poll: Time, deadline: Time, now: Time): Time {
    Min(poll, Max(deadline - now, 0.0))
  }

  /** The client sleeps for the polling interval, but never past its deadline. */
  lemma PauseMeaning(poll: Time, deadline: Time, now: Time)
    requires 0.0 < poll
    ensures 0.0 <= Pause(poll, deadline, now) <= poll
    ensures deadline <= now ==> Pause(poll, deadline, now) == 0.0
    ensures now < deadline ==>
      now + Pause(poll, deadline, now) <= deadline
      && (Pause(poll, deadline, now) == poll || now + Pause(poll, deadline, now) == deadline)
  {
  }

  /** The clock is monotone, and a sleep lasts at least as long as asked. */
  ghost predicate RoundRules(w: Surroundings, deadline: Time, poll: Time, n: nat) {
    && w.check(n) <= w.after(n)
    && w.after(n) + Pause(poll, deadline, w.after(n)) <= w.check(n + 1)
  }

  ghost predicate ClockRules(w: Surroundings, deadline: Time, poll: Time) {
    && w.start <= w.check(0)
    && (forall n: nat :: RoundRules(w, deadline, poll, n))
  }

  /** The `n`-th round neither gives up nor learns that the run has ended. */
  ghost predicate Undecided(w: Surroundings, run: RunId, deadline: Time, n: nat) {
    && w.check(n) < deadline
    && w.status(run, n).Ok? && !w.status(run, n).value.Terminal()
  }

  /** Round `n` is the first one that decides. */
  ghost predicate Decides(w: Surroundings, run: RunId, deadline: Time, n: nat) {
    && !Undecided(w, run, deadline, n)
    && (forall k: nat :: k < n ==> Undecided(w, run, deadline, k))
  }

  /** Only so many polling intervals fit into the timeout. */
  lemma RoundLimit(timeout: Time, poll: Time) returns (limit: nat)
    requires 0.0 < timeout && 0.0 < poll
    ensures forall n: nat :: Repeated(n, poll) < timeout ==> n < limit
  {
    var quotient := timeout / poll;
    assert quotient * poll == timeout;
    assert quotient > 0.0;
    limit := quotient.Floor + 1;
    forall n: nat | Repeated(n, poll) < timeout
      ensures n < limit
    {
      RepeatedIsProduct(n, poll);
      assert (quotient - n as real) * poll > 0.0;
      assert quotient - n as real > 0.0;
    }
  }

  /** Round `k` lasts at least the polling interval. */
  ghost predicate FullRound(w: Surroundings, poll: Time, k: nat) {
    w.check(k) + poll <= w.check(k + 1)
  }

  /** The wait is over in round `n` with `final`: the deadline has passed, or a read failed, or the read status is
      terminal, whichever comes first. The rounds before it last at least the polling interval each, but for the very
      last of them, which the deadline may cut short. */
  ghost predicate WaitEnds(w: Surroundings, run: RunId, timeout: Time, poll: Time, n: nat,
                           final: Result<Option<RunStatus>, ClientError>)
  {
    var deadline := w.start + timeout;
    && Decides(w, run, deadline, n)
    && (n > 0 ==> Repeated(n - 1, poll) < timeout)
    && (forall k: nat :: k + 1 < n ==> FullRound(w, poll, k))
    && (if deadline <= w.check(n) then final == Ok(None)
        else if w.status(run, n).Err? then final == Err(w.status(run, n).error)
        else final == Ok(Some(w.status(run, n).value)))
  }

  /** `_wait_for_terminal` always returns. */
  method WaitForTerminal(w: Surroundings, run: RunId, timeout: Time, poll: Time)
    returns (final: Result<Option<RunStatus>, ClientError>)
    requires 0.0 < timeout && 0.0 < poll
    requires ClockRules(w, w.start + timeout, poll)
    ensures exists n: nat :: WaitEnds(w, run, timeout, poll, n, final)
    ensures final.Ok? && final.value.Some? ==> final.value.value.Terminal()
  {
    var deadline := w.start + timeout;
    var n := 0;
    ghost var limit := RoundLimit(timeout, poll);
    while true
      invariant forall k: nat :: k < n ==> Undecided(w, run, deadline, k)
      invariant w.check(n) < deadline ==> w.start + Repeated(n, poll) <= w.check(n)
      invariant n > 0 ==> Repeated(n - 1, poll) < timeout
      invariant forall k: nat :: k + 1 < n ==> FullRound(w, poll, k)
      invariant n > 0 && w.check(n) < deadline ==> FullRound(w, poll, n - 1)
      decreases limit - n
    {
      if w.check(n) >= deadline {
        assert WaitEnds(w, run, timeout, poll, n, Ok(None));
        return Ok(None);
      }
      var read := w.status(run, n);
      if read.Err? {
        assert WaitEnds(w, run, timeout, poll, n, Err(read.error));
        return Err(read.error);
      }
      if read.value in {RunPassed, RunFailed, RunCancelled} {
        assert WaitEnds(w, run, timeout, poll, n, Ok(Some(read.value)));
        return Ok(Some(read.value));
      }
      assert RoundRules(w, deadline, poll, n);
      n := n + 1;
    }
  }

  const EXIT_PASSED := 0
  const EXIT_VALIDATION_FAILED := 1
  const EXIT_CLIENT_ERROR := 2
  const EXIT_WAIT_TIMEOUT := 3

  function FirstWithSlug(suites: seq<Suite>, slug: string): (found: Option<Suite>)
    ensures found.None? <==> forall i :: 0 <= i < |suites| ==> suites[i].slug != slug
    ensures found.Some? ==>
      exists i :: 0 <= i < |suites| && suites[i] == found.value && suites[i].slug == slug
                  && forall k :: 0 <= k < i ==> suites[k].slug != slug
  {
    if suites == [] then None
    else if suites[0].slug == slug then Some(suites[0])
    else
      var rest := FirstWithSlug(suites[1..], slug);
      assert rest.Some? ==>
        forall i :: 0 <= i < |suites| - 1 && suites[1..][i] == rest.value ==> suites[i + 1] == rest.value;
      rest
  }

  /** The client could start a run: which one. */
  ghost function Started(c: Command, w: Surroundings): Option<RunId> {
    if w.source.Err? || w.suites.Err? || FirstWithSlug(w.suites.value, c.suite).None? then None
    else
      match w.created(FirstWithSlug(w.suites.value, c.suite).value.id)
      case Err(_) => None
      case Ok(run) => Some(run)
  }

  /** No run is started if and only if the source arguments are refused, the suites cannot be read, none has the slug,
      or the server refuses the run; the run started is that of the first suite with the slug. */
  lemma StartedExactly(c: Command, w: Surroundings, i: nat)
    ensures w.source.Err? || w.suites.Err? ==> Started(c, w) == None
    ensures w.suites.Ok? && (forall k :: 0 <= k < |w.suites.value| ==> w.suites.value[k].slug != c.suite) ==>
      Started(c, w) == None
    ensures w.source.Ok? && w.suites.Ok? && i < |w.suites.value| && w.suites.value[i].slug == c.suite
            && (forall k :: 0 <= k < i ==> w.suites.value[k].slug != c.suite) ==>
      match w.created(w.suites.value[i].id)
      case Err(_) => Started(c, w) == None
      case Ok(run) => Started(c, w) == Some(run)
  {
    if w.suites.Ok? {
      var found := FirstWithSlug(w.suites.value, c.suite);
      if found.Some? && i < |w.suites.value| && w.suites.value[i].slug == c.suite
         && (forall k :: 0 <= k < i ==> w.suites.value[k].slug != c.suite) {
        var k :| 0 <= k < |w.suites.value| && w.suites.value[k] == found.value && w.suites.value[k].slug == c.suite
                 && forall h :: 0 <= h < k ==> w.suites.value[h].slug != c.suite;
        assert k == i;
      }
    }
  }

  /** The documented meaning of the exit codes of a client that waits, when round `n` decides. */
  ghost predicate GateCode(c: Command, w: Surroundings, run: RunId, n: nat, code: int) {
    var deadline := w.start + c.timeout;
    && Decides(w, run, deadline, n)
    && (code == 3 <==> deadline <= w.check(n))
    && (code == 2 <==> w.check(n) < deadline && (w.status(run, n).Err? || w.jobs(run).Err?))
    && (code == 0 <==> w.check(n) < deadline && w.status(run, n) == Ok(RunPassed) && w.jobs(run).Ok?)
    && (code == 1 <==>
          w.check(n) < deadline && w.jobs(run).Ok?
          && (w.status(run, n) == Ok(RunFailed) || w.status(run, n) == Ok(RunCancelled)))
  }

  ghost predicate GateEnds(c: Command, w: Surroundings, run: RunId, code: int) {
    exists n: nat :: GateCode(c, w, run, n, code)
  }

  ghost predicate ExitCode(c: Command, w: Surroundings, code: int) {
    match Started(c, w)
    case None => code == 2
    case Some(run) =>
      if c.wait then GateEnds(c, w, run, code) else code == 0
  }

  /** `run`; any error it raises is turned into an exit code by its caller. */
  method RunCommand(c: Command, w: Surroundings) returns (code: Result<int, ClientError>)
    requires 0.0 < c.timeout && 0.0 < c.poll
    requires ClockRules(w, w.start + c.timeout, c.poll)
    ensures code.Ok? ==> code.value != 2
    ensures ExitCode(c, w, if code.Ok? then code.value else 2)
  {
    if w.source.Err? {
      return Err(w.source.error);
    }
    if w.suites.Err? {
      return Err(w.suites.error);
    }
    var suite := FirstWithSlug(w.suites.value, c.suite);
    if suite.None? {
      return Err(ClientError("Test suite slug was not found"));
    }
    var created := w.created(suite.value.id);
    if created.Err? {
      return Err(created.error);
    }
    if !c.wait {
      return Ok(EXIT_PASSED);
    }
    code := Gate(c, w, created.value);
  }

  /** The part of `run` that follows the start. */
  method Gate(c: Command, w: Surroundings, run: RunId) returns (code: Result<int, ClientError>)
    requires 0.0 < c.timeout && 0.0 < c.poll
    requires ClockRules(w, w.start + c.timeout, c.poll)
    ensures code.Ok? ==> code.value != 2
    ensures GateEnds(c, w, run, if code.Ok? then code.value else 2)
  {
    var final := WaitForTerminal(w, run, c.timeout, c.poll);
    ghost var n: nat :| WaitEnds(w, run, c.timeout, c.poll, n, final);
    var jobs := w.jobs(run);
    if final.Err? {
      code := Err(final.error);
    } else if final.value.None? {
      code := Ok(EXIT_WAIT_TIMEOUT);
    } else if jobs.Err? {
      code := Err(jobs.error);
    } else {
      code := Ok(if final.value.value.RunPassed? then EXIT_PASSED else EXIT_VALIDATION_FAILED);
    }
    assert GateCode(c, w, run, n, if code.Ok? then code.value else 2);
  }

  /** `main` after argument parsing: the exit code of the process. */
  method Invoke(c: Command, w: Surroundings) returns (code: int)
    requires 0.0 < c.timeout && 0.0 < c.poll
    requires ClockRules(w, w.start + c.timeout, c.poll)
    ensures ExitCode(c, w, code)
  {
    var result := RunCommand(c, w);
    code := if result.Ok? then result.value else EXIT_CLIENT_ERROR;
  }
}
