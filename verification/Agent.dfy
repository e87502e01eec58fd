/** The device side: the two execution engines with their idempotency caches. */
module Agent {
  import opened Domain

  /** `definition` is the JSON text of the suite definition. */
  datatype Request = Request(job: JobId, run: RunId, suite: string, definition: string, deadline: Time)

  /** The request without its deadline, as it is serialised. */
  datatype Fingerprint = Fingerprint(job: JobId, run: RunId, suite: string, definition: string)

  function FingerprintOf(r: Request): Fingerprint {
    Fingerprint(r.job, r.run, r.suite, r.definition)
  }

  datatype Outcome = Pass | Fail | Transient | Disconnect {
    /** The call is refused before the job is accepted. */
    predicate Refuses() {
      Transient? || Disconnect?
    }
  }

  /** An accepted execution; its response is determined when it starts. */
  datatype Task = Task(request: Request, outcome: Outcome, started: Time)

  datatype Cached = Cached(fingerprint: Fingerprint, task: Task)

  type Executions = map<JobId, Cached>

  datatype AgentSettings = AgentSettings(unreliable: bool, script: seq<Outcome>, executionTime: Time) {
    predicate Valid() {
      script != [] && 0.0 <= executionTime
    }
  }

  // ---------------------------------------------------------------- the simulator

  /** `attempts` counts the calls per job that reached the script. */
  datatype Engine = Engine(executions: Executions, attempts: map<JobId, nat>)

  datatype Reply = Conflict | Refused | Attached(task: Task)

  /** The script item for the `n`-th call of a job; the last item repeats for ever. */
  function ScriptAt(cfg: AgentSettings, n: nat): Outcome
    requires cfg.Valid()
  {
    if !cfg.unreliable then Pass
    else cfg.script[if n <= |cfg.script| - 1 then n else |cfg.script| - 1]
  }

  function Calls(e: Engine, j: JobId): nat {
    if j in e.attempts then e.attempts[j] else 0
  }

  function Counted(cfg: AgentSettings, e: Engine, j: JobId): map<JobId, nat> {
    if cfg.unreliable then e.attempts[j := Calls(e, j) + 1] else e.attempts
  }

  /** `AgentEngine.execute` up to the point where it awaits the execution. */
  function Serve(cfg: AgentSettings, e: Engine, r: Request, now: Time): (Engine, Reply)
    requires cfg.Valid()
  {
    if r.job in e.executions then
      var cached := e.executions[r.job];
      (e, if cached.fingerprint != FingerprintOf(r) then Conflict else Attached(cached.task))
    else
      var outcome := ScriptAt(cfg, Calls(e, r.job));
      var attempts := Counted(cfg, e, r.job);
      if outcome.Refuses() then (Engine(e.executions, attempts), Refused)
      else
        var task := Task(r, outcome, now);
        (Engine(e.executions[r.job := Cached(FingerprintOf(r), task)], attempts), Attached(task))
  }

  class AgentEngine {
    const cfg: AgentSettings
    var executions: Executions
    var attempts: map<JobId, nat>

    ghost function State(): Engine
      reads this
    {
      Engine(executions, attempts)
    }

    constructor (cfg: AgentSettings)
      ensures this.cfg == cfg && State() == Engine(map[], map[])
    {
      this.cfg, executions, attempts := cfg, map[], map[];
    }

    /** `_next_outcome`. */
    method NextOutcome(j: JobId) returns (outcome: Outcome)
      requires cfg.Valid()
      modifies this`attempts
      ensures outcome == ScriptAt(cfg, Calls(old(State()), j))
      ensures attempts == Counted(cfg, old(State()), j)
    {
      if !cfg.unreliable {
        return Pass;
      }
      var attempt := if j in attempts then attempts[j] else 0;
      attempts := attempts[j := attempt + 1];
      var last := |cfg.script| - 1;
      return cfg.script[if attempt <= last then attempt else last];
    }

    /** `execute`, whose body runs under the engine's lock. */
    method Execute(r: Request, now: Time) returns (reply: Reply)
      requires cfg.Valid()
      modifies this
      ensures (State(), reply) == Serve(cfg, old(State()), r, now)
    {
      if r.job in executions {
        if executions[r.job].fingerprint != FingerprintOf(r) {
          return Conflict;
        }
        return Attached(executions[r.job].task);
      }
      var outcome := NextOutcome(r.job);
      if outcome.Refuses() {
        return Refused;
      }
      var task := Task(r, outcome, now);
      executions := executions[r.job := Cached(FingerprintOf(r), task)];
      return Attached(task);
    }
  }

  // ---------------------------------------------------------------- the Windows host

  datatype HostReply = Unsupported | HostConflict | DeadlineExpired | HostAttached(task: Task)

  /** `HostEngine.execute` for the one suite that the host supports. */
  function ServeHost(slug: string, definition: string, e: Executions, r: Request, now: Time): (Executions, HostReply) {
    if r.suite != slug || r.definition != definition then (e, Unsupported)
    else if r.job in e then
      var cached := e[r.job];
      (e, if cached.fingerprint != FingerprintOf(r) then HostConflict else HostAttached(cached.task))
    else if r.deadline <= now then (e, DeadlineExpired)
    else
      var task := Task(r, Pass, now);
      (e[r.job := Cached(FingerprintOf(r), task)], HostAttached(task))
  }

  class HostEngine {
    const slug: string
    const definition: string
    var executions: Executions

    constructor (slug: string, definition: string)
      ensures this.slug == slug && this.definition == definition && executions == map[]
    {
      this.slug, this.definition, executions := slug, definition, map[];
    }

    method Execute(r: Request, now: Time) returns (reply: HostReply)
      modifies this
      ensures (executions, reply) == ServeHost(slug, definition, old(executions), r, now)
    {
      if r.suite != slug || r.definition != definition {
        return Unsupported;
      }
      if r.job in executions {
        if executions[r.job].fingerprint != FingerprintOf(r) {
          return HostConflict;
        }
        return HostAttached(executions[r.job].task);
      }
      if r.deadline <= now {
        return DeadlineExpired;
      }
      var task := Task(r, Pass, now);
      executions := executions[r.job := Cached(FingerprintOf(r), task)];
      return HostAttached(task);
    }
  }

  // ---------------------------------------------------------------- histories of the simulator

  datatype Arrival = Arrival(request: Request, at: Time)

  /** The engine states and replies of a whole history of requests. */
  ghost predicate History(cfg: AgentSettings, states: seq<Engine>, arrivals: seq<Arrival>, replies: seq<Reply>)
    requires cfg.Valid()
  {
    && |states| == |arrivals| + 1 && |replies| == |arrivals|
    && (forall i :: 0 <= i < |arrivals| ==>
          (states[i + 1], replies[i]) == Serve(cfg, states[i], arrivals[i].request, arrivals[i].at))
  }

  /** Cache entries never change or vanish. */
  lemma {:induction false} CacheIsPermanent(cfg: AgentSettings, states: seq<Engine>, arrivals: seq<Arrival>,
                                            replies: seq<Reply>, i: nat, k: nat, j: JobId)
    requires cfg.Valid() && History(cfg, states, arrivals, replies) && i <= k <= |arrivals| && j in states[i].executions
    ensures j in states[k].executions && states[k].executions[j] == states[i].executions[j]
  {
    if i < k {
      CacheIsPermanent(cfg, states, arrivals, replies, i, k - 1, j);
    }
  }

  /** How many of the first `i` requests were for job `j`. */
  function Earlier(arrivals: seq<Arrival>, i: nat, j: JobId): nat
    requires i <= |arrivals|
  {
    if i == 0 then 0 else Earlier(arrivals, i - 1, j) + if arrivals[i - 1].request.job == j then 1 else 0
  }

  /** As long as a job is not accepted, every request for it counts as a call. */
  lemma {:induction false} CallsAreEarlier(cfg: AgentSettings, states: seq<Engine>, arrivals: seq<Arrival>,
                                           replies: seq<Reply>, i: nat, j: JobId)
    requires cfg.Valid() && cfg.unreliable && History(cfg, states, arrivals, replies) && i <= |arrivals|
    requires states[0] == Engine(map[], map[]) && j !in states[i].executions
    ensures Calls(states[i], j) == Earlier(arrivals, i, j)
  {
    if i > 0 {
      assert j !in states[i - 1].executions;
      CallsAreEarlier(cfg, states, arrivals, replies, i - 1, j);
    }
  }

  /** The request starts an execution with this outcome: it is attached to it and cached. */
  ghost predicate Starts(before: Engine, after: Engine, reply: Reply, arrival: Arrival, outcome: Outcome) {
    var r := arrival.request;
    var task := Task(r, outcome, arrival.at);
    && reply == Attached(task)
    && after.executions ==
       before.executions[r.job := Cached(Fingerprint(r.job, r.run, r.suite, r.definition), task)]
  }

  /** A healthy or slow agent starts every job that it has not accepted yet, to pass. */
  lemma HealthyAnswer(cfg: AgentSettings, states: seq<Engine>, arrivals: seq<Arrival>, replies: seq<Reply>, i: nat)
    requires cfg.Valid() && !cfg.unreliable && History(cfg, states, arrivals, replies) && i < |arrivals|
    requires arrivals[i].request.job !in states[i].executions
    ensures Starts(states[i], states[i + 1], replies[i], arrivals[i], Pass)
    ensures states[i + 1].attempts == states[i].attempts
  {
  }

  /** An unreliable agent goes through its script, one item for each request of a job that it has not accepted yet, and
      stays with the last item: a transient or disconnect item refuses the request and changes no execution, any other
      starts the job with that outcome. */
  lemma ScriptedAnswer(cfg: AgentSettings, states: seq<Engine>, arrivals: seq<Arrival>, replies: seq<Reply>, i: nat)
    requires cfg.Valid() && cfg.unreliable && History(cfg, states, arrivals, replies) && i < |arrivals|
    requires states[0] == Engine(map[], map[]) && arrivals[i].request.job !in states[i].executions
    ensures var n := Earlier(arrivals, i, arrivals[i].request.job);
      var item := if n < |cfg.script| then cfg.script[n] else cfg.script[|cfg.script| - 1];
      if item == Transient || item == Disconnect then
        replies[i] == Refused && states[i + 1].executions == states[i].executions
      else
        Starts(states[i], states[i + 1], replies[i], arrivals[i], item)
  {
    CallsAreEarlier(cfg, states, arrivals, replies, i, arrivals[i].request.job);
    assert (states[i + 1], replies[i]) == Serve(cfg, states[i], arrivals[i].request, arrivals[i].at);
  }

  /** Each job starts at most one execution; every later request equal up to its deadline is attached to that very
      execution, and one with another payload is rejected, both without any effect. */
  lemma AgentIdempotency(cfg: AgentSettings, states: seq<Engine>, arrivals: seq<Arrival>, replies: seq<Reply>, i: nat,
                         k: nat, j: JobId)
    requires cfg.Valid() && History(cfg, states, arrivals, replies) && i < k < |arrivals|
    requires j !in states[i].executions && j in states[i + 1].executions
    ensures arrivals[i].request.job == j && j in states[k].executions
    ensures arrivals[k].request.job == j ==>
      var first, later := arrivals[i].request, arrivals[k].request;
      && states[k + 1] == states[k]
      && replies[k] == (if first.(deadline := later.deadline) == later then replies[i] else Conflict)
      && replies[i].Attached? && replies[i].task.started == arrivals[i].at
  {
    CacheIsPermanent(cfg, states, arrivals, replies, i + 1, k, j);
  }

  // ---------------------------------------------------------------- histories of the Windows host

  ghost predicate HostHistory(slug: string, definition: string, states: seq<Executions>, arrivals: seq<Arrival>,
                              replies: seq<HostReply>)
  {
    && |states| == |arrivals| + 1 && |replies| == |arrivals|
    && (forall i :: 0 <= i < |arrivals| ==>
          (states[i + 1], replies[i]) == ServeHost(slug, definition, states[i], arrivals[i].request, arrivals[i].at))
  }

  lemma {:induction false} HostCacheIsPermanent(slug: string, definition: string, states: seq<Executions>,
                                                arrivals: seq<Arrival>, replies: seq<HostReply>, i: nat, k: nat,
                                                j: JobId)
    requires HostHistory(slug, definition, states, arrivals, replies) && i <= k <= |arrivals| && j in states[i]
    ensures j in states[k] && states[k][j] == states[i][j]
  {
    if i < k {
      HostCacheIsPermanent(slug, definition, states, arrivals, replies, i, k - 1, j);
    }
  }

  /** A request for a job that is not accepted yet starts an execution if and only if suite and definition are the
      supported ones and it arrives before its deadline; otherwise nothing changes, and the reply says which of the two
      was missing. */
  lemma HostStartsExactly(slug: string, definition: string, states: seq<Executions>, arrivals: seq<Arrival>,
                          replies: seq<HostReply>, i: nat)
    requires HostHistory(slug, definition, states, arrivals, replies) && i < |arrivals|
    requires arrivals[i].request.job !in states[i]
    ensures var r, at := arrivals[i].request, arrivals[i].at;
      var supported := r.suite == slug && r.definition == definition;
      && (r.job in states[i + 1] <==> supported && at < r.deadline)
      && (supported && at < r.deadline ==>
            && replies[i] == HostAttached(Task(r, Pass, at))
            && states[i + 1] ==
               states[i][r.job := Cached(Fingerprint(r.job, r.run, r.suite, r.definition), Task(r, Pass, at))])
      && (!(supported && at < r.deadline) ==> states[i + 1] == states[i])
      && (!supported <==> replies[i] == Unsupported)
      && (supported && r.deadline <= at <==> replies[i] == DeadlineExpired)
  {
  }

  /** Once an execution has started, every later supported request equal up to the deadline is attached to it, also
      after that deadline, another payload is a conflict, and an unsupported one is refused as such, all without
      effect. */
  lemma HostIdempotency(slug: string, definition: string, states: seq<Executions>, arrivals: seq<Arrival>,
                        replies: seq<HostReply>, i: nat, k: nat, j: JobId)
    requires HostHistory(slug, definition, states, arrivals, replies) && i < k < |arrivals|
    requires j !in states[i] && j in states[i + 1]
    ensures arrivals[i].request.job == j && arrivals[i].at < arrivals[i].request.deadline
    ensures arrivals[i].request.suite == slug && arrivals[i].request.definition == definition
    ensures j in states[k]
    ensures arrivals[k].request.job == j ==>
      var first, later := arrivals[i].request, arrivals[k].request;
      && states[k + 1] == states[k]
      && replies[k] ==
         if later.suite != slug || later.definition != definition then Unsupported
         else if first.(deadline := later.deadline) == later then HostAttached(Task(first, Pass, arrivals[i].at))
         else HostConflict
  {
    HostCacheIsPermanent(slug, definition, states, arrivals, replies, i + 1, k, j);
  }
}
