/** The whole system as a state machine: database, clock, broker bag and live worker executions.

Each label is one transaction or one event of the environment. Messages may be lost, duplicated and delivered in any
order; a worker may die between its claim and its final write; any publication may fail. */
module Protocol {
  import opened Domain
  import opened Configuration
  import opened JobMachine
  import opened Services
  import opened DatabaseInvariant

  datatype Message = Message(job: JobId, task: TaskId)

  datatype State = State(db: Db, clock: Time, bag: multiset<Message>, live: set<Claimed>)

  datatype Label =
    | Register(device: DeviceId, host: bool, endpoint: string)
    | Beat(device: DeviceId)
    | Sweep
    | Create(request: RunRequest, unlocked: set<DeviceId>, run: RunId, ids: map<DeviceId, JobId>)
    | Publish(message: Message)
    | Drop(message: Message)
    | Duplicate(message: Message)
    | Deliver(message: Message)
    | End(claimed: Claimed, outcome: CallOutcome, elapsed: Time)
    | Die(claimed: Claimed)
    | Recover(rows: seq<JobId>)
    | Advance(to: Time)

  /** The clock never goes back; generated identifiers are fresh; the lease query returns expired rows. */
  ghost predicate Feasible(st: State, l: Label) {
    Refs(st.db) &&
    match l
    case Create(_, _, run, ids) => FreshIds(st.db, run, ids)
    case Drop(m) => m in st.bag
    case Duplicate(m) => m in st.bag
    case Deliver(m) => m in st.bag
    case End(c, _, _) => c in st.live
    case Die(c) => c in st.live
    case Recover(rows) => ExpiredRows(st.db, rows, st.clock)
    case Advance(to) => st.clock <= to
    case _ => true
  }

  /** Two live executions never share a task identifier (see `TaskRule.DeliveryIsGuarded`). */
  ghost predicate Enabled(st: State, l: Label) {
    Feasible(st, l) && (l.Deliver? ==> forall c :: c in st.live ==> c.task != l.message.task)
  }

  /** A transaction that raises is rolled back. */
  ghost function Committed<E>(db: Db, result: Result<Db, E>): Db {
    if result.Ok? then result.value else db
  }

  ghost function Next(s: Settings, st: State, l: Label): State
    requires Feasible(st, l)
  {
    match l
    case Register(d, host, endpoint) => st.(db := RegisterDevice(st.db, d, host, endpoint, st.clock))
    case Beat(d) => st.(db := Committed(st.db, RecordHeartbeat(st.db, d, st.clock)))
    case Sweep => st.(db := MarkStaleDevicesOffline(s, st.db, st.clock))
    case Create(request, unlocked, run, ids) =>
      st.(db := Committed(st.db, CreateRun(s, st.db, request, unlocked, run, ids, st.clock)))
    case Publish(m) => st.(bag := st.bag + multiset{m})
    case Drop(m) => st.(bag := st.bag - multiset{m})
    case Duplicate(m) => st.(bag := st.bag + multiset{m})
    case Deliver(m) =>
      var claimed := ClaimResult(s, st.db, m.job, m.task, st.clock);
      State(ClaimJob(s, st.db, m.job, m.task, st.clock), st.clock, st.bag - multiset{m},
            if claimed.Some? then st.live + {claimed.value} else st.live)
    case End(c, outcome, elapsed) =>
      st.(db := EndAttempt(s, st.db, c, outcome, elapsed, st.clock), live := st.live - {c})
    case Die(c) => st.(live := st.live - {c})
    case Recover(rows) => st.(db := Reconcile(s, st.db, rows, st.clock).0)
    case Advance(to) => st.(clock := to)
  }

  /** A claim number never exceeds the attempts, and an execution owns the running row exactly when its claim is the
      latest one. */
  ghost predicate Linked(jobs: Jobs, c: Claimed) {
    && c.job in jobs && c.attempt <= jobs[c.job].attempts
    && (jobs[c.job].status.Running? ==> (jobs[c.job].worker == Some(c.task) <==> jobs[c.job].attempts == c.attempt))
  }

  /** Live executions are linked to their jobs and have distinct task identifiers. */
  ghost predicate LiveInv(st: State) {
    && (forall c :: c in st.live ==> Linked(st.db.jobs, c))
    && (forall c, e :: c in st.live && e in st.live && c != e ==> c.task != e.task)
  }

  ghost predicate Inv(s: Settings, st: State) {
    s.Valid() && DbInv(s, st.db) && LiveInv(st)
  }

  // ---------------------------------------------------------------- what a step does to a job

  /** The job transaction that a label attempts on job `j`. */
  ghost function ActionOn(s: Settings, st: State, l: Label, j: JobId): Option<Action>
    requires Refs(st.db) && j in st.db.jobs
  {
    match l
    case Deliver(m) => if m.job == j then Some(ClaimAction(s, st.db, j, m.task)) else None
    case End(c, outcome, elapsed) => if c.job == j then Some(OutcomeAction(s, c, outcome, elapsed)) else None
    case Recover(rows) => if j in rows then Some(Expire) else None
    case _ => None
  }

  ghost predicate Moved(s: Settings, st: State, l: Label, j: JobId)
    requires Refs(st.db) && j in st.db.jobs
  {
    var a := ActionOn(s, st, l, j);
    a.Some? && Accepts(a.value, st.db.jobs[j], st.clock)
  }

  /** Jobs are never deleted, and a job row changes only through an accepted job transaction. */
  lemma StepJob(s: Settings, st: State, l: Label, j: JobId)
    requires s.Valid() && Enabled(st, l) && j in st.db.jobs
    ensures j in Next(s, st, l).db.jobs
    ensures Next(s, st, l).db.jobs[j] ==
      if Moved(s, st, l, j)
      then Effect(s, ActionOn(s, st, l, j).value, st.db.jobs[j], st.clock)
      else st.db.jobs[j]
  {
    match l
    case Recover(rows) => ExpireAllRows(s, st.db, rows, st.clock);
    case Create(request, unlocked, run, ids) =>
      if CreateRun(s, st.db, request, unlocked, run, ids, st.clock).Ok? {
        CreateRunAddsRun(s, st.db, request, unlocked, run, ids, st.clock);
      }
    case _ =>
  }

  /** An execution ends its attempt within the attempt budget of the claim it holds. */
  lemma OwnerIsFenced(s: Settings, jobs: Jobs, c: Claimed, outcome: CallOutcome, elapsed: Time, now: Time)
    requires Linked(jobs, c) && Accepts(OutcomeAction(s, c, outcome, elapsed), jobs[c.job], now)
    ensures c.attempt == jobs[c.job].attempts
    ensures Fenced(s, OutcomeAction(s, c, outcome, elapsed), jobs[c.job])
  {
  }

  /** Under the invariant every attempted transaction is fenced. */
  lemma StepFenced(s: Settings, st: State, l: Label, j: JobId)
    requires Inv(s, st) && Enabled(st, l) && j in st.db.jobs && Moved(s, st, l, j)
    ensures Fenced(s, ActionOn(s, st, l, j).value, st.db.jobs[j])
    ensures l.End? ==> l.claimed.attempt == st.db.jobs[j].attempts
  {
    match l
    case End(c, outcome, elapsed) =>
      OwnerIsFenced(s, st.db.jobs, c, outcome, elapsed, st.clock);
    case _ =>
  }

  // ---------------------------------------------------------------- the invariant is inductive

  lemma EffectOwner(s: Settings, a: Action, job: Job, now: Time)
    requires Accepts(a, job, now)
    ensures var job' := Effect(s, a, job, now);
      && job'.attempts == job.attempts + (if a.Claim? then 1 else 0)
      && (a.Claim? ==> job'.status.Running? && job'.worker == Some(a.task))
      && (!a.Claim? ==> !job'.status.Running?)
  {
  }

  /** An execution that survives a step stays linked to its job: whoever claims the job meanwhile uses another task. */
  lemma StepKeepsLinked(s: Settings, st: State, l: Label, c: Claimed)
    requires s.Valid() && Enabled(st, l) && Linked(st.db.jobs, c) && c in st.live
    ensures Linked(Next(s, st, l).db.jobs, c)
  {
    StepJob(s, st, l, c.job);
    if Moved(s, st, l, c.job) {
      EffectOwner(s, ActionOn(s, st, l, c.job).value, st.db.jobs[c.job], st.clock);
    }
  }

  /** The execution born in a step is linked, and all others that live on were alive before. */
  lemma StepBirth(s: Settings, st: State, l: Label, c: Claimed)
    requires s.Valid() && Enabled(st, l) && c in Next(s, st, l).live && c !in st.live
    ensures l.Deliver? && c.task == l.message.task
    ensures Linked(Next(s, st, l).db.jobs, c)
    ensures Next(s, st, l).live == st.live + {c}
  {
    StepJob(s, st, l, c.job);
    EffectOwner(s, ClaimAction(s, st.db, c.job, c.task), st.db.jobs[c.job], st.clock);
  }

  lemma BirthIsFresh(s: Settings, st: State, l: Label, c: Claimed, e: Claimed)
    requires s.Valid() && Enabled(st, l) && c in Next(s, st, l).live && c !in st.live
    requires e in Next(s, st, l).live && e != c
    ensures e in st.live && c.task != e.task
  {
    StepBirth(s, st, l, c);
  }

  lemma StepKeepsLive(s: Settings, st: State, l: Label)
    requires Inv(s, st) && Enabled(st, l)
    ensures LiveInv(Next(s, st, l))
  {
    var st' := Next(s, st, l);
    forall c | c in st'.live
      ensures Linked(st'.db.jobs, c)
    {
      if c in st.live { StepKeepsLinked(s, st, l, c); } else { StepBirth(s, st, l, c); }
    }
    forall c, e | c in st'.live && e in st'.live && c != e
      ensures c.task != e.task
    {
      if c !in st.live { BirthIsFresh(s, st, l, c, e); }
      if e !in st.live { BirthIsFresh(s, st, l, e, c); }
    }
  }

  lemma ClaimKeepsInv(s: Settings, db: Db, m: Message, now: Time)
    requires s.Valid() && DbInv(s, db)
    ensures DbInv(s, ClaimJob(s, db, m.job, m.task, now))
  {
    if m.job in db.jobs { PerformKeepsInv(s, db, ClaimAction(s, db, m.job, m.task), m.job, now); }
  }

  lemma EndKeepsInv(s: Settings, db: Db, c: Claimed, outcome: CallOutcome, elapsed: Time, now: Time)
    requires s.Valid() && DbInv(s, db) && Linked(db.jobs, c)
    ensures DbInv(s, EndAttempt(s, db, c, outcome, elapsed, now))
  {
    if Accepts(OutcomeAction(s, c, outcome, elapsed), db.jobs[c.job], now) {
      OwnerIsFenced(s, db.jobs, c, outcome, elapsed, now);
    }
    PerformKeepsInv(s, db, OutcomeAction(s, c, outcome, elapsed), c.job, now);
  }

  lemma CreateKeepsInv(s: Settings, db: Db, request: RunRequest, unlocked: set<DeviceId>, run: RunId,
                       ids: map<DeviceId, JobId>, now: Time)
    requires DbInv(s, db) && FreshIds(db, run, ids)
    ensures DbInv(s, Committed(db, CreateRun(s, db, request, unlocked, run, ids, now)))
  {
    if CreateRun(s, db, request, unlocked, run, ids, now).Ok? {
      CreateRunKeepsInv(s, db, request, unlocked, run, ids, now);
    }
  }

  lemma StepKeepsDbInv(s: Settings, st: State, l: Label, db': Db)
    requires s.Valid() && DbInv(s, st.db) && Feasible(st, l) && db' == Next(s, st, l).db
    requires l.End? ==> Linked(st.db.jobs, l.claimed)
    ensures DbInv(s, db')
  {
    match l
    case Register(d, host, endpoint) => RegisterKeepsInv(s, st.db, d, host, endpoint, st.clock);
    case Beat(d) => if d in st.db.devices { HeartbeatKeepsInv(s, st.db, d, st.clock); }
    case Sweep => SweepKeepsInv(s, st.db, st.clock);
    case Create(request, unlocked, run, ids) => CreateKeepsInv(s, st.db, request, unlocked, run, ids, st.clock);
    case Deliver(m) => ClaimKeepsInv(s, st.db, m, st.clock);
    case End(c, outcome, elapsed) => EndKeepsInv(s, st.db, c, outcome, elapsed, st.clock);
    case Recover(rows) => ExpireAllKeepsInv(s, st.db, rows, st.clock);
    case _ =>
  }

  /** Every step keeps the invariant. */
  lemma StepKeepsInv(s: Settings, st: State, l: Label)
    requires Inv(s, st) && Enabled(st, l)
    ensures Inv(s, Next(s, st, l))
  {
    StepKeepsLive(s, st, l);
    StepKeepsDbInv(s, st, l, Next(s, st, l).db);
  }

  // ---------------------------------------------------------------- runs of the system

  ghost predicate Initial(st: State) {
    st.db.devices == map[] && st.db.jobs == map[] && st.db.runs == map[] && st.bag == multiset{} && st.live == {}
  }

  /** Step `i` is enabled and leads to the next state. */
  ghost predicate Taken(s: Settings, states: seq<State>, labels: seq<Label>, i: nat)
    requires |states| == |labels| + 1 && i < |labels|
  {
    Enabled(states[i], labels[i]) && states[i + 1] == Next(s, states[i], labels[i])
  }

  ghost predicate Execution(s: Settings, states: seq<State>, labels: seq<Label>) {
    && |states| == |labels| + 1
    && (forall i :: 0 <= i < |labels| ==> Refs(states[i].db))
    && (forall i :: 0 <= i < |labels| ==> Taken(s, states, labels, i))
  }

  /** The invariant holds in every state of every execution that starts in a state where it holds. */
  lemma {:induction false} ExecutionKeepsInv(s: Settings, states: seq<State>, labels: seq<Label>, k: nat)
    requires Execution(s, states, labels) && Inv(s, states[0]) && k <= |labels|
    ensures Inv(s, states[k])
  {
    if k != 0 {
      ExecutionKeepsInv(s, states, labels, k - 1);
      TakenKeepsInv(s, states, labels, k - 1);
    }
  }

  lemma TakenKeepsInv(s: Settings, states: seq<State>, labels: seq<Label>, i: nat)
    requires |states| == |labels| + 1 && i < |labels| && Taken(s, states, labels, i) && Inv(s, states[i])
    ensures Inv(s, states[i + 1])
  {
    StepKeepsInv(s, states[i], labels[i]);
  }

  /** Exclusive reservation over every run of the system: no device ever has two active jobs, a device shown online
      has none, a device shown busy has one, and active jobs never outnumber devices. */
  lemma ExclusiveReservation(s: Settings, states: seq<State>, labels: seq<Label>, k: nat)
    requires s.Valid() && Execution(s, states, labels) && Initial(states[0]) && k <= |labels|
    ensures var db := states[k].db;
      && Exclusive(db.jobs)
      && (forall d :: d in db.devices && db.devices[d].status.Online? ==> !HasActiveJob(db.jobs, d))
      && (forall d :: d in db.devices && db.devices[d].status.Busy? ==> HasActiveJob(db.jobs, d))
      && |ActiveIds(db.jobs)| <= |db.devices.Keys|
  {
    ExecutionKeepsInv(s, states, labels, k);
    ActiveJobsFitDevices(s, states[k].db);
  }
}
