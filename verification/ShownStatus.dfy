/** What the status of a reserved device shows: busy, unless a sweep has found its heartbeat stale and no heartbeat
    has come since. */
module ShownStatus {
  import opened Domain
  import opened Configuration
  import opened JobMachine
  import opened Services
  import opened DatabaseInvariant
  import opened ReconcileOrder
  import opened Protocol

  ghost predicate Fresh(s: Settings, st: State, d: DeviceId)
    requires d in st.db.devices
  {
    HeartbeatIsFresh(st.db.devices[d].heartbeat, st.clock, s.heartbeatTimeout)
  }

  /** The step hides a reservation of `d`, ... */
  ghost predicate Hides(s: Settings, st: State, l: Label, d: DeviceId) {
    l.Sweep? && d in st.db.devices && !Fresh(s, st, d)
  }

  /** ... or shows it again. */
  predicate Shows(l: Label, d: DeviceId) {
    (l.Beat? || l.Register?) && l.device == d
  }

  // ---------------------------------------------------------------- one step

  /** The device row is the same if the device is reserved in both databases. */
  ghost predicate LeavesDevice(db: Db, db': Db, d: DeviceId) {
    d in db.devices && HasActiveJob(db.jobs, d) && HasActiveJob(db'.jobs, d) ==>
      d in db'.devices && db'.devices[d] == db.devices[d]
  }

  lemma TransactionLeavesDevice(s: Settings, db: Db, a: Action, j: JobId, now: Time, d: DeviceId)
    requires Refs(db) && Exclusive(db.jobs) && OnlineFree(db)
    ensures LeavesDevice(db, Perform(s, db, a, j, now), d)
  {
    if j in db.jobs && Accepts(a, db.jobs[j], now) {
      PerformKeepsDevices(s, db, a, j, now);
    }
  }

  lemma ClaimLeavesDevice(s: Settings, db: Db, m: Message, now: Time, d: DeviceId)
    requires Refs(db) && Exclusive(db.jobs) && OnlineFree(db)
    ensures LeavesDevice(db, ClaimJob(s, db, m.job, m.task, now), d)
  {
    if m.job in db.jobs { TransactionLeavesDevice(s, db, ClaimAction(s, db, m.job, m.task), m.job, now, d); }
  }

  lemma RecoveryLeavesDevice(s: Settings, db: Db, rows: seq<JobId>, now: Time, d: DeviceId)
    requires Refs(db) && Exclusive(db.jobs) && RunsOk(db) && ExpiredRows(db, rows, now)
    ensures LeavesDevice(db, Reconcile(s, db, rows, now).0, d)
  {
    if d in db.devices { OnlyExhaustedReleased(s, db, rows, now, d); }
  }

  lemma ReservationLeavesDevice(s: Settings, db: Db, request: RunRequest, unlocked: set<DeviceId>, run: RunId,
                                ids: map<DeviceId, JobId>, now: Time, d: DeviceId)
    requires Refs(db) && OnlineFree(db) && FreshIds(db, run, ids)
    ensures LeavesDevice(db, Committed(db, CreateRun(s, db, request, unlocked, run, ids, now)), d)
  {
    if CreateRun(s, db, request, unlocked, run, ids, now).Ok? {
      CreateRunAddsRun(s, db, request, unlocked, run, ids, now);
    }
  }

  lemma OtherRegistration(db: Db, e: DeviceId, host: bool, endpoint: string, now: Time, d: DeviceId)
    requires e != d
    ensures LeavesDevice(db, RegisterDevice(db, e, host, endpoint, now), d)
  {
  }

  lemma OtherHeartbeat(db: Db, e: DeviceId, now: Time, d: DeviceId)
    requires e != d
    ensures LeavesDevice(db, Committed(db, RecordHeartbeat(db, e, now)), d)
  {
  }

  /** A step leaves the row of a device that stays reserved alone, unless it is a sweep, or a heartbeat or
      registration of that device. */
  lemma StepLeavesDevice(s: Settings, st: State, l: Label, d: DeviceId, db': Db)
    requires Refs(st.db) && Exclusive(st.db.jobs) && OnlineFree(st.db) && RunsOk(st.db)
    requires Feasible(st, l) && !l.Sweep? && !Shows(l, d) && db' == Next(s, st, l).db
    ensures LeavesDevice(st.db, db', d)
  {
    match l
    case Register(e, host, endpoint) => OtherRegistration(st.db, e, host, endpoint, st.clock, d);
    case Beat(e) => OtherHeartbeat(st.db, e, st.clock, d);
    case Deliver(m) => ClaimLeavesDevice(s, st.db, m, st.clock, d);
    case End(c, outcome, elapsed) =>
      TransactionLeavesDevice(s, st.db, OutcomeAction(s, c, outcome, elapsed), c.job, st.clock, d);
    case Recover(rows) => RecoveryLeavesDevice(s, st.db, rows, st.clock, d);
    case Create(request, unlocked, run, ids) =>
      ReservationLeavesDevice(s, st.db, request, unlocked, run, ids, st.clock, d);
    case _ =>
  }

  /** What a step does to the status of a device that stays reserved. */
  lemma StepShown(s: Settings, st: State, l: Label, d: DeviceId)
    requires Inv(s, st) && Enabled(st, l) && d in st.db.devices
    requires HasActiveJob(st.db.jobs, d) && HasActiveJob(Next(s, st, l).db.jobs, d)
    ensures d in Next(s, st, l).db.devices
    ensures Next(s, st, l).db.devices[d].status ==
      if Hides(s, st, l, d) then Offline else if Shows(l, d) then Busy else st.db.devices[d].status
  {
    if l.Sweep? {
      SweepShows(s, st, d);
    } else if Shows(l, d) {
      BeatShows(s, st, l, d);
    } else {
      StepLeavesDevice(s, st, l, d, Next(s, st, l).db);
    }
  }

  lemma SweepShows(s: Settings, st: State, d: DeviceId)
    requires Refs(st.db) && OnlineFree(st.db) && d in st.db.devices && HasActiveJob(st.db.jobs, d)
    ensures Enabled(st, Sweep) && d in Next(s, st, Sweep).db.devices
    ensures Next(s, st, Sweep).db.devices[d].status == if Fresh(s, st, d) then st.db.devices[d].status else Offline
  {
    assert !st.db.devices[d].status.Online?;
  }

  lemma BeatShows(s: Settings, st: State, l: Label, d: DeviceId)
    requires Refs(st.db) && d in st.db.devices && HasActiveJob(st.db.jobs, d) && Shows(l, d)
    ensures Enabled(st, l) && d in Next(s, st, l).db.devices && Next(s, st, l).db.devices[d].status.Busy?
  {
  }

  /** A busy device that keeps an active job stays busy in a step if and only if the step is not a sweep that finds
      its heartbeat stale. */
  lemma BusyUntilSwept(s: Settings, st: State, l: Label, d: DeviceId)
    requires Inv(s, st) && Enabled(st, l) && d in st.db.devices && st.db.devices[d].status.Busy?
    requires HasActiveJob(Next(s, st, l).db.jobs, d)
    ensures d in Next(s, st, l).db.devices
    ensures Next(s, st, l).db.devices[d].status.Busy? <==> !(l.Sweep? && !Fresh(s, st, d))
  {
    StepShown(s, st, l, d);
  }

  // ---------------------------------------------------------------- whole executions

  /** Between steps `i` and `k` some sweep has hidden the reservation and nothing has shown it since. */
  ghost predicate Hidden(s: Settings, states: seq<State>, labels: seq<Label>, i: nat, k: nat, d: DeviceId)
    requires |states| == |labels| + 1 && i <= k <= |labels|
  {
    i < k &&
    (Hides(s, states[k - 1], labels[k - 1], d)
     || (!Shows(labels[k - 1], d) && Hidden(s, states, labels, i, k - 1, d)))
  }

  lemma ShownNext(s: Settings, states: seq<State>, labels: seq<Label>, k: nat, d: DeviceId)
    requires Execution(s, states, labels) && Inv(s, states[0]) && k < |labels| && d in states[k].db.devices
    requires HasActiveJob(states[k].db.jobs, d) && HasActiveJob(states[k + 1].db.jobs, d)
    ensures d in states[k + 1].db.devices
    ensures states[k + 1].db.devices[d].status ==
      if Hides(s, states[k], labels[k], d) then Offline
      else if Shows(labels[k], d) then Busy else states[k].db.devices[d].status
  {
    assert Taken(s, states, labels, k);
    ExecutionKeepsInv(s, states, labels, k);
    StepShown(s, states[k], labels[k], d);
  }

  ghost predicate ReservedFrom(states: seq<State>, i: nat, k: nat, d: DeviceId) {
    forall m :: i <= m <= k && m < |states| ==> HasActiveJob(states[m].db.jobs, d)
  }

  /** Device `d` is offline if it is hidden, else busy. */
  ghost predicate ShownAs(db: Db, d: DeviceId, hidden: bool) {
    d in db.devices && db.devices[d].status == if hidden then Offline else Busy
  }

  lemma ShownAsNext(s: Settings, states: seq<State>, labels: seq<Label>, i: nat, k: nat, d: DeviceId)
    requires Execution(s, states, labels) && Inv(s, states[0]) && i < k <= |labels|
    requires HasActiveJob(states[k - 1].db.jobs, d) && HasActiveJob(states[k].db.jobs, d)
    requires ShownAs(states[k - 1].db, d, Hidden(s, states, labels, i, k - 1, d))
    ensures ShownAs(states[k].db, d, Hidden(s, states, labels, i, k, d))
  {
    ShownNext(s, states, labels, k - 1, d);
  }

  /** As long as a device that was busy stays reserved, its status is exactly this: offline while hidden, else busy. */
  lemma {:induction false} ShownExactly(s: Settings, states: seq<State>, labels: seq<Label>, i: nat, k: nat,
                                        d: DeviceId)
    requires Execution(s, states, labels) && Inv(s, states[0]) && i <= k <= |labels|
    requires d in states[i].db.devices && states[i].db.devices[d].status.Busy?
    requires ReservedFrom(states, i, k, d)
    ensures ShownAs(states[k].db, d, Hidden(s, states, labels, i, k, d))
  {
    if i < k {
      assert HasActiveJob(states[k - 1].db.jobs, d) && HasActiveJob(states[k].db.jobs, d);
      ShownExactly(s, states, labels, i, k - 1, d);
      ShownAsNext(s, states, labels, i, k, d);
    }
  }

  /** A reserved device with a fresh heartbeat is shown busy. */
  ghost predicate FreshShown(s: Settings, st: State) {
    forall d :: d in st.db.devices && HasActiveJob(st.db.jobs, d) && Fresh(s, st, d) ==> st.db.devices[d].status.Busy?
  }

  lemma NewReservation(s: Settings, st: State, l: Label, d: DeviceId)
    requires Inv(s, st) && Enabled(st, l) && !HasActiveJob(st.db.jobs, d) && HasActiveJob(Next(s, st, l).db.jobs, d)
    ensures d in Next(s, st, l).db.devices && Next(s, st, l).db.devices[d].status.Busy?
  {
    var db' := Next(s, st, l).db;
    var j :| j in db'.jobs && db'.jobs[j].device == d && db'.jobs[j].status.Active();
    if j in st.db.jobs {
      StepJob(s, st, l, j);
      assert false;
    } else if l.Create? {
      CreateRunAddsRun(s, st.db, l.request, l.unlocked, l.run, l.ids, st.clock);
    } else if l.Recover? {
      ExpireAllRows(s, st.db, l.rows, st.clock);
    }
  }

  lemma FreshBefore(s: Settings, st: State, l: Label, d: DeviceId)
    requires Inv(s, st) && Enabled(st, l) && d in st.db.devices && !l.Sweep? && !Shows(l, d)
    requires HasActiveJob(st.db.jobs, d) && HasActiveJob(Next(s, st, l).db.jobs, d)
    ensures d in Next(s, st, l).db.devices && (Fresh(s, Next(s, st, l), d) ==> Fresh(s, st, d))
  {
    StepLeavesDevice(s, st, l, d, Next(s, st, l).db);
  }

  lemma StepKeepsFreshShown(s: Settings, st: State, l: Label)
    requires Inv(s, st) && Enabled(st, l) && FreshShown(s, st)
    ensures FreshShown(s, Next(s, st, l))
  {
    var st' := Next(s, st, l);
    forall d | d in st'.db.devices && HasActiveJob(st'.db.jobs, d) && Fresh(s, st', d)
      ensures st'.db.devices[d].status.Busy?
    {
      if !HasActiveJob(st.db.jobs, d) {
        NewReservation(s, st, l, d);
      } else {
        StepShown(s, st, l, d);
        if !l.Sweep? && !Shows(l, d) { FreshBefore(s, st, l, d); }
      }
    }
  }

  lemma {:induction false} ExecutionKeepsFreshShown(s: Settings, states: seq<State>, labels: seq<Label>, k: nat)
    requires Execution(s, states, labels) && Inv(s, states[0]) && FreshShown(s, states[0]) && k <= |labels|
    ensures FreshShown(s, states[k])
  {
    if k != 0 {
      ExecutionKeepsFreshShown(s, states, labels, k - 1);
      ExecutionKeepsInv(s, states, labels, k - 1);
      assert Taken(s, states, labels, k - 1);
      StepKeepsFreshShown(s, states[k - 1], labels[k - 1]);
    }
  }

  /** In every reachable state a reserved device is busy, or offline with a heartbeat that is not fresh. */
  lemma ReservedShown(s: Settings, states: seq<State>, labels: seq<Label>, k: nat, d: DeviceId)
    requires s.Valid() && Execution(s, states, labels) && Initial(states[0]) && k <= |labels|
    requires HasActiveJob(states[k].db.jobs, d)
    ensures d in states[k].db.devices
    ensures var status := states[k].db.devices[d].status;
      status.Busy? || (status.Offline? && !Fresh(s, states[k], d))
  {
    ExecutionKeepsInv(s, states, labels, k);
    ExecutionKeepsFreshShown(s, states, labels, k);
    assert OnlineFree(states[k].db);
  }

  // ---------------------------------------------------------------- a reserved device can be shown offline

  /** A sweep of a state with a reserved busy device whose heartbeat is not fresh shows it offline. */
  lemma SweepHidesReservation(s: Settings, st: State, d: DeviceId)
    requires Inv(s, st) && d in st.db.devices && st.db.devices[d].status.Busy? && !Fresh(s, st, d)
    ensures var st' := Next(s, st, Sweep);
      d in st'.db.devices && st'.db.devices[d].status.Offline? && HasActiveJob(st'.db.jobs, d)
  {
    assert HasActiveJob(st.db.jobs, d);
  }

  const FIRST := Register(0, false, "")

  function FirstDevice(status: DeviceStatus): Device {
    Device(false, "", status, Some(0.0))
  }

  function FirstRun(suite: SuiteId): Label {
    Create(RunRequest(suite, None), {0}, 0, map[0 := 0])
  }

  lemma FirstReservation(s: Settings, suite: SuiteId)
    requires s.Valid()
    ensures var registered := Db({suite}, map[0 := FirstDevice(Online)], map[], map[]);
      var result := CreateRun(s, registered, RunRequest(suite, None), {0}, 0, map[0 := 0], 0.0);
      && RegisterDevice(Db({suite}, map[], map[], map[]), 0, false, "", 0.0) == registered
      && FreshIds(registered, 0, map[0 := 0])
      && result.Ok? && result.value.jobs == map[0 := NewJob(0, 0)]
      && result.value.devices == map[0 := FirstDevice(Busy)] && 0 in result.value.runs
  {
    var registered := Db({suite}, map[0 := FirstDevice(Online)], map[], map[]);
    assert Selected(s, registered, RunRequest(suite, None), {0}, 0.0) == {0};
  }

  ghost function Empty(suite: SuiteId): State {
    State(Db({suite}, map[], map[], map[]), 0.0, multiset{}, {})
  }

  lemma FirstStates(s: Settings, suite: SuiteId) returns (reserved: State)
    requires s.Valid()
    ensures Enabled(Empty(suite), FIRST) && Enabled(Next(s, Empty(suite), FIRST), FirstRun(suite))
    ensures reserved == Next(s, Next(s, Empty(suite), FIRST), FirstRun(suite))
    ensures reserved.clock == 0.0 && reserved.db.jobs == map[0 := NewJob(0, 0)]
    ensures reserved.db.devices == map[0 := FirstDevice(Busy)] && Refs(reserved.db)
  {
    FirstReservation(s, suite);
    reserved := Next(s, Next(s, Empty(suite), FIRST), FirstRun(suite));
  }

  lemma LaterStates(s: Settings, reserved: State) returns (waiting: State, swept: State)
    requires s.Valid() && reserved.clock == 0.0 && reserved.db.jobs == map[0 := NewJob(0, 0)]
    requires reserved.db.devices == map[0 := FirstDevice(Busy)] && Refs(reserved.db)
    ensures Enabled(reserved, Advance(s.heartbeatTimeout)) && waiting == Next(s, reserved, Advance(s.heartbeatTimeout))
    ensures Enabled(waiting, Sweep) && swept == Next(s, waiting, Sweep)
    ensures 0 in swept.db.devices && swept.db.devices[0].status.Offline? && HasActiveJob(swept.db.jobs, 0)
  {
    waiting := Next(s, reserved, Advance(s.heartbeatTimeout));
    swept := Next(s, waiting, Sweep);
    assert swept.db.jobs[0].device == 0;
  }

  /** It happens in an execution from the empty system: register, reserve, wait for the heartbeat timeout, sweep. */
  lemma ReservedCanBeOffline(s: Settings, suite: SuiteId) returns (states: seq<State>, labels: seq<Label>)
    requires s.Valid()
    ensures Execution(s, states, labels) && Initial(states[0])
    ensures var db := states[|labels|].db;
      0 in db.devices && db.devices[0].status.Offline? && HasActiveJob(db.jobs, 0)
  {
    var reserved := FirstStates(s, suite);
    var waiting, swept := LaterStates(s, reserved);
    states := [Empty(suite), Next(s, Empty(suite), FIRST), reserved, waiting, swept];
    labels := [FIRST, FirstRun(suite), Advance(s.heartbeatTimeout), Sweep];
  }
}
