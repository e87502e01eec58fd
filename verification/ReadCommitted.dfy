/** The same services as interleaved transactions under READ COMMITTED.

Every statement of a transaction is one step: it sees the committed database and the transaction's own writes, and
takes row locks that are held to the end. Other transactions may run between any two steps. A transaction may abort
at any point (an exception, a deadlock, a lost worker). */
module ReadCommitted {
  import opened Domain
  import opened Identifiers
  import opened Configuration
  import opened JobMachine
  import opened Aggregation
  import opened Services
  import opened DatabaseInvariant

  type TxId = nat

  /** Where a job transaction stands between two statements: at a loop boundary; with the job row written; with the
      device row loaded (without a lock); with the device flushed; with the run row locked. */
  datatype Pc = Boundary | Written | Loaded(device: Device) | Flushed | RunLocked

  datatype Tx =
    | JobTx(a: Action, now: Time, done: seq<JobId>, todo: seq<JobId>, pc: Pc,
            jobW: Jobs, runW: Runs, devW: map<DeviceId, DeviceStatus>, runs: set<RunId>)
    | BeatTx(device: DeviceId, row: Device, seen: Option<DeviceStatus>)
    | CreateTx(request: RunRequest, chosen: set<DeviceId>, at: Time)
    | SweepTx(stale: set<DeviceId>)

  /** Committed rows and running transactions. */
  datatype Sys = Sys(db: Db, txs: map<TxId, Tx>)

  // ---------------------------------------------------------------- row locks

  function JobLocks(tx: Tx): set<JobId> {
    if tx.JobTx? then Elements(tx.done + tx.todo) else {}
  }

  function RunLocks(tx: Tx): set<RunId> {
    if tx.JobTx? then tx.runs else {}
  }

  function DeviceLocks(tx: Tx): set<DeviceId> {
    match tx
    case JobTx(_, _, _, _, _, _, _, devW, _) => devW.Keys
    case BeatTx(d, _, _) => {d}
    case CreateTx(_, chosen, _) => chosen
    case SweepTx(stale) => stale
  }

  ghost predicate Apart(a: Tx, b: Tx) {
    JobLocks(a) !! JobLocks(b) && RunLocks(a) !! RunLocks(b) && DeviceLocks(a) !! DeviceLocks(b)
  }

  ghost predicate LocksApart(txs: map<TxId, Tx>) {
    forall t, u :: t in txs && u in txs && t != u ==> Apart(txs[t], txs[u])
  }

  // ---------------------------------------------------------------- what a job transaction writes

  ghost predicate AllAccepted(jobs: Jobs, a: Action, now: Time, ids: seq<JobId>) {
    forall j :: j in ids ==> j in jobs && Accepts(a, jobs[j], now)
  }

  ghost function JobWrites(s: Settings, jobs: Jobs, a: Action, now: Time, ids: seq<JobId>): Jobs
    requires AllAccepted(jobs, a, now, ids)
  {
    map j | j in ids :: Effect(s, a, jobs[j], now)
  }

  /** The run rows, each aggregated over what was visible right after the write of one job. */
  ghost function RunWrites(s: Settings, db: Db, a: Action, now: Time, ids: seq<JobId>): (w: Runs)
    requires Refs(db) && AllAccepted(db.jobs, a, now, ids)
    ensures w.Keys <= db.runs.Keys
    ensures forall r :: r in w ==> exists j :: j in ids && db.jobs[j].run == r
    decreases |ids|
  {
    if ids == [] then map[]
    else
      var prefix, r := ids[..|ids| - 1], db.jobs[ids[|ids| - 1]].run;
      assert ids[|ids| - 1] in ids && forall j :: j in prefix ==> j in ids;
      var before := RunWrites(s, db, a, now, prefix);
      before[r := RecomputeRow((db.runs + before)[r], db.jobs + JobWrites(s, db.jobs, a, now, ids), r, now)]
  }

  // ---------------------------------------------------------------- steps

  datatype Step =
    | BeginJob(t: TxId, a: Action, j: JobId, now: Time)
    | BeginReconcile(t: TxId, rows: seq<JobId>, now: Time)
    | WriteJob(t: TxId)
    | LoadDevice(t: TxId)
    | FlushDevice(t: TxId)
    | LockRun(t: TxId)
    | AggregateRun(t: TxId)
    | BeginBeat(t: TxId, device: DeviceId, row: Device)
    | ReadActive(t: TxId)
    | BeginCreate(t: TxId, request: RunRequest, unlocked: set<DeviceId>, now: Time)
    | BeginSweep(t: TxId, stale: set<DeviceId>, now: Time)
    | InsertDevice(device: DeviceId, row: Device)
    | Commit(t: TxId)
    | CommitCreate(t: TxId, run: RunId, ids: map<DeviceId, JobId>)
    | Abort(t: TxId)

  ghost predicate JobFree(sys: Sys, j: JobId) {
    forall u :: u in sys.txs ==> j !in JobLocks(sys.txs[u])
  }

  ghost predicate RunFreeFor(sys: Sys, t: TxId, r: RunId) {
    forall u :: u in sys.txs && u != t ==> r !in RunLocks(sys.txs[u])
  }

  ghost predicate DeviceFreeFor(sys: Sys, t: TxId, d: DeviceId) {
    forall u :: u in sys.txs && u != t ==> d !in DeviceLocks(sys.txs[u])
  }

  /** Transaction `t` is a job transaction with an open row. */
  predicate AtOpenRow(sys: Sys, t: TxId) {
    t in sys.txs && sys.txs[t].JobTx? && sys.txs[t].todo != [] && sys.txs[t].todo[0] in sys.db.jobs
  }

  ghost predicate Ends(sys: Sys, t: TxId)
    requires AtOpenRow(sys, t)
  {
    var j := sys.txs[t].todo[0];
    j in sys.txs[t].jobW && sys.txs[t].jobW[j].status.Terminal()
  }

  /** The status `release_device` computes from the row it loaded. */
  function ReleaseStatus(s: Settings, device: Device, now: Time): DeviceStatus {
    Released(s, device, now).status
  }

  ghost predicate Enabled(s: Settings, sys: Sys, l: Step) {
    match l
    // SELECT ... FOR UPDATE waits for the row lock; a refused guard ends the transaction without a write
    case BeginJob(t, a, j, now) =>
      t !in sys.txs && j in sys.db.jobs && JobFree(sys, j) && Accepts(a, sys.db.jobs[j], now) && !a.Expire?
    // ... SKIP LOCKED
    case BeginReconcile(t, rows, now) =>
      t !in sys.txs && ExpiredRows(sys.db, rows, now) && forall j :: j in rows ==> JobFree(sys, j)
    case WriteJob(t) =>
      && AtOpenRow(sys, t) && sys.txs[t].pc.Boundary?
      && Accepts(sys.txs[t].a, sys.db.jobs[sys.txs[t].todo[0]], sys.txs[t].now)
    case LoadDevice(t) =>
      && AtOpenRow(sys, t) && sys.txs[t].pc.Written? && Ends(sys, t)
      && sys.db.jobs[sys.txs[t].todo[0]].device in sys.db.devices
    // the mapper emits an UPDATE, which takes the row lock, only if the attribute changed
    case FlushDevice(t) =>
      && AtOpenRow(sys, t) && sys.txs[t].pc.Loaded?
      && (ReleaseStatus(s, sys.txs[t].pc.device, sys.txs[t].now) != sys.txs[t].pc.device.status ==>
            DeviceFreeFor(sys, t, sys.db.jobs[sys.txs[t].todo[0]].device))
    case LockRun(t) =>
      && AtOpenRow(sys, t) && (sys.txs[t].pc.Flushed? || (sys.txs[t].pc.Written? && !Ends(sys, t)))
      && RunFreeFor(sys, t, sys.db.jobs[sys.txs[t].todo[0]].run)
    case AggregateRun(t) =>
      && AtOpenRow(sys, t) && sys.txs[t].pc.RunLocked?
      && sys.db.jobs[sys.txs[t].todo[0]].run in sys.db.runs + sys.txs[t].runW
    case BeginBeat(t, d, row) => t !in sys.txs && d in sys.db.devices && DeviceFreeFor(sys, t, d)
    case ReadActive(t) => t in sys.txs && sys.txs[t].BeatTx?
    case BeginCreate(t, request, unlocked, now) =>
      var chosen := Selected(s, sys.db, request, unlocked, now);
      && t !in sys.txs && request.suite in sys.db.suites
      && (request.devices.Some? ==> |chosen| == |request.devices.value|) && chosen != {}
      && forall d :: d in unlocked ==> DeviceFreeFor(sys, t, d)
    case BeginSweep(t, stale, now) =>
      && t !in sys.txs
      && forall d :: d in stale ==> d in sys.db.devices && Stale(s, sys.db.devices[d], now) && DeviceFreeFor(sys, t, d)
    case InsertDevice(d, row) => d !in sys.db.devices && row.status.Online?
    case Commit(t) =>
      && t in sys.txs && !sys.txs[t].CreateTx?
      && (sys.txs[t].JobTx? ==> sys.txs[t].pc.Boundary? && sys.txs[t].todo == [])
      && (sys.txs[t].BeatTx? ==> sys.txs[t].seen.Some?)
    case CommitCreate(t, run, ids) =>
      t in sys.txs && sys.txs[t].CreateTx? && FreshIds(sys.db, run, ids) && sys.txs[t].chosen <= ids.Keys
    case Abort(t) => t in sys.txs
  }

  ghost function With(sys: Sys, t: TxId, tx: Tx): Sys {
    sys.(txs := sys.txs[t := tx])
  }

  ghost function CommittedDb(db: Db, tx: Tx): Db
    requires !tx.CreateTx?
  {
    match tx
    case JobTx(_, _, _, _, _, jobW, runW, devW, _) =>
      Db(db.suites,
         map d | d in db.devices :: if d in devW then db.devices[d].(status := devW[d]) else db.devices[d],
         db.jobs + jobW, db.runs + runW)
    case BeatTx(d, row, seen) =>
      db.(devices := db.devices[d := if seen.Some? then row.(status := seen.value) else row])
    case SweepTx(stale) =>
      db.(devices := map d | d in db.devices ::
            if d in stale then db.devices[d].(status := Offline) else db.devices[d])
  }

  ghost function CreatedDb(db: Db, tx: Tx, run: RunId, ids: map<DeviceId, JobId>): Db
    requires tx.CreateTx? && FreshIds(db, run, ids) && tx.chosen <= ids.Keys
  {
    Db(db.suites, Reserved(db.devices, tx.chosen), db.jobs + NewJobs(tx.chosen, run, ids),
       db.runs[run := TestRun(tx.request.suite, RunQueued, None, None)])
  }

  ghost function Apply(s: Settings, sys: Sys, l: Step): Sys
    requires Enabled(s, sys, l)
  {
    match l
    case BeginJob(t, a, j, now) => With(sys, t, JobTx(a, now, [], [j], Boundary, map[], map[], map[], {}))
    case BeginReconcile(t, rows, now) => With(sys, t, JobTx(Expire, now, [], rows, Boundary, map[], map[], map[], {}))
    case WriteJob(t) =>
      var tx := sys.txs[t];
      var j := tx.todo[0];
      With(sys, t, tx.(jobW := tx.jobW[j := Effect(s, tx.a, sys.db.jobs[j], tx.now)], pc := Written))
    case LoadDevice(t) =>
      var tx := sys.txs[t];
      With(sys, t, tx.(pc := Loaded(sys.db.devices[sys.db.jobs[tx.todo[0]].device])))
    case FlushDevice(t) =>
      var tx := sys.txs[t];
      var status := ReleaseStatus(s, tx.pc.device, tx.now);
      With(sys, t, tx.(pc := Flushed,
                       devW := if status == tx.pc.device.status then tx.devW
                               else tx.devW[sys.db.jobs[tx.todo[0]].device := status]))
    case LockRun(t) =>
      var tx := sys.txs[t];
      With(sys, t, tx.(pc := RunLocked, runs := tx.runs + {sys.db.jobs[tx.todo[0]].run}))
    case AggregateRun(t) =>
      var tx := sys.txs[t];
      var r := sys.db.jobs[tx.todo[0]].run;
      var row := RecomputeRow((sys.db.runs + tx.runW)[r], sys.db.jobs + tx.jobW, r, tx.now);
      With(sys, t, tx.(pc := Boundary, runW := tx.runW[r := row], done := tx.done + [tx.todo[0]], todo := tx.todo[1..]))
    case BeginBeat(t, d, row) => With(sys, t, BeatTx(d, row, None))
    case ReadActive(t) => With(sys, t, sys.txs[t].(seen := Some(SeenStatus(sys.db.jobs, sys.txs[t].device))))
    case BeginCreate(t, request, unlocked, now) =>
      With(sys, t, CreateTx(request, Selected(s, sys.db, request, unlocked, now), now))
    case BeginSweep(t, stale, now) => With(sys, t, SweepTx(stale))
    case InsertDevice(d, row) => sys.(db := sys.db.(devices := sys.db.devices[d := row]))
    case Commit(t) => Sys(CommittedDb(sys.db, sys.txs[t]), sys.txs - {t})
    case CommitCreate(t, run, ids) => Sys(CreatedDb(sys.db, sys.txs[t], run, ids), sys.txs - {t})
    case Abort(t) => sys.(txs := sys.txs - {t})
  }

  // ---------------------------------------------------------------- the invariant

  /** What READ COMMITTED keeps of the database invariant: `Busy` without an active job can occur here. */
  ghost predicate CoreInv(db: Db) {
    Refs(db) && Exclusive(db.jobs) && OnlineFree(db) && RunsOk(db)
  }

  /** The rows of a job transaction: locked, accepted, and written exactly as far as it has come. */
  ghost predicate JobTxInv(s: Settings, db: Db, tx: Tx)
    requires tx.JobTx? && Refs(db)
  {
    && NoDuplicates(tx.done + tx.todo)
    && AllAccepted(db.jobs, tx.a, tx.now, tx.done + tx.todo)
    && AllAccepted(db.jobs, tx.a, tx.now, tx.done)
    && (tx.pc.Boundary? || tx.todo != [])
    && tx.jobW == (if tx.pc.Boundary? then JobWrites(s, db.jobs, tx.a, tx.now, tx.done)
                   else JobWrites(s, db.jobs, tx.a, tx.now, tx.done)
                          [tx.todo[0] := Effect(s, tx.a, db.jobs[tx.todo[0]], tx.now)])
    && tx.runW == RunWrites(s, db, tx.a, tx.now, tx.done)
    && (forall j :: j in tx.done ==> db.jobs[j].run in tx.runs)
    && tx.runW.Keys <= tx.runs <= db.runs.Keys
    && (tx.pc.Loaded? || tx.pc.Flushed? ==> tx.jobW[tx.todo[0]].status.Terminal())
    && (tx.pc.RunLocked? ==> db.jobs[tx.todo[0]].run in tx.runs)
    && (forall d :: d in tx.devW ==> !tx.devW[d].Busy?)
    && (forall d :: d in tx.devW ==> exists j :: j in tx.jobW && tx.jobW[j].device == d && tx.jobW[j].status.Terminal())
  }

  ghost predicate TxInv(s: Settings, db: Db, tx: Tx)
    requires Refs(db)
  {
    match tx
    case JobTx(_, _, _, _, _, _, _, _, _) => JobTxInv(s, db, tx)
    case BeatTx(d, _, seen) =>
      d in db.devices && (seen.Some? ==> !seen.value.Offline? && (seen.value.Online? ==> !HasActiveJob(db.jobs, d)))
    case CreateTx(request, chosen, at) =>
      && request.suite in db.suites && chosen != {} && Selected(s, db, request, chosen, at) == chosen
      && (request.devices.Some? ==> |chosen| == |request.devices.value|)
    case SweepTx(stale) => stale <= db.devices.Keys
  }

  ghost predicate SysInv(s: Settings, sys: Sys) {
    s.Valid() && CoreInv(sys.db) && LocksApart(sys.txs) && forall t :: t in sys.txs ==> TxInv(s, sys.db, sys.txs[t])
  }
}
