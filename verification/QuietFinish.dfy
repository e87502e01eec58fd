/** When a busy device can be left without an active job: exactly when a transaction that ends a job, a worker's or the
    reconciler's, finds its device offline with a stale heartbeat, so that the release changes nothing and writes
    nothing. */
module QuietFinish {
  import opened Domain
  import opened Configuration
  import opened JobMachine
  import opened Aggregation
  import opened Services
  import opened DatabaseInvariant
  import opened ReconcileOrder
  import opened ReadCommitted
  import opened RowLocks
  import opened Commits
  import opened Interleaving
  import opened BusyDevices

  // ---------------------------------------------------------------- without a quiet load

  ghost predicate Unreachable(s: Settings, device: Device, now: Time) {
    device.status.Offline? && !HeartbeatIsFresh(device.heartbeat, now, s.heartbeatTimeout)
  }

  /** A transaction that ends a job loads the row of a device that is offline with a stale heartbeat. */
  ghost predicate QuietLoad(s: Settings, sys: Sys, l: Step) {
    && l.LoadDevice? && AtOpenRow(sys, l.t)
    && var d := sys.db.jobs[sys.txs[l.t].todo[0]].device;
       d in sys.db.devices && Unreachable(s, sys.db.devices[d], sys.txs[l.t].now)
  }

  /** The transaction writes the device of each job it ends: it has loaded a row that the release will change, and
      has updated the devices of all jobs it has passed. */
  ghost predicate Loud(s: Settings, tx: Tx)
    requires tx.JobTx?
  {
    && (tx.pc.Loaded? ==> ReleaseStatus(s, tx.pc.device, tx.now) != tx.pc.device.status)
    && (forall j :: j in tx.jobW && tx.jobW[j].status.Terminal() ==>
          tx.jobW[j].device in tx.devW || ((tx.pc.Written? || tx.pc.Loaded?) && tx.todo != [] && j == tx.todo[0]))
  }

  ghost predicate LoudTx(s: Settings, db: Db, tx: Tx) {
    && (tx.JobTx? ==> Loud(s, tx))
    && (tx.BeatTx? && tx.seen == Some(Busy) ==> HasActiveJob(db.jobs, tx.device))
  }

  ghost predicate LoudSys(s: Settings, sys: Sys) {
    BusyHeld(sys.db) && forall t :: t in sys.txs ==> LoudTx(s, sys.db, sys.txs[t])
  }

  lemma LoadIsLoud(s: Settings, sys: Sys, t: TxId)
    requires Refs(sys.db) && OnlineFree(sys.db) && Enabled(s, sys, LoadDevice(t)) && !QuietLoad(s, sys, LoadDevice(t))
    requires JobTxInv(s, sys.db, sys.txs[t]) && Loud(s, sys.txs[t])
    ensures Loud(s, Apply(s, sys, LoadDevice(t)).txs[t])
  {
    OpenRow(s, sys.db, sys.txs[t]);
  }

  lemma FlushIsLoud(s: Settings, sys: Sys, t: TxId)
    requires Refs(sys.db) && Enabled(s, sys, FlushDevice(t)) && JobTxInv(s, sys.db, sys.txs[t]) && Loud(s, sys.txs[t])
    ensures Loud(s, Apply(s, sys, FlushDevice(t)).txs[t])
  {
    OpenRow(s, sys.db, sys.txs[t]);
  }

  /** A statement of a transaction that is still open. */
  lemma LocalIsLoud(s: Settings, sys: Sys, l: Step)
    requires Refs(sys.db) && OnlineFree(sys.db) && Enabled(s, sys, l) && !QuietLoad(s, sys, l)
    requires l.WriteJob? || l.LoadDevice? || l.FlushDevice? || l.LockRun? || l.AggregateRun? || l.ReadActive?
    requires TxInv(s, sys.db, sys.txs[l.t]) && LoudTx(s, sys.db, sys.txs[l.t])
    ensures LoudTx(s, sys.db, Apply(s, sys, l).txs[l.t])
  {
    match l {
      case LoadDevice(t) => LoadIsLoud(s, sys, t);
      case FlushDevice(t) => FlushIsLoud(s, sys, t);
      case _ =>
    }
  }

  lemma BeginIsLoud(s: Settings, sys: Sys, l: Step)
    requires Enabled(s, sys, l)
    requires l.BeginJob? || l.BeginReconcile? || l.BeginBeat? || l.BeginCreate? || l.BeginSweep?
    ensures LoudTx(s, sys.db, Apply(s, sys, l).txs[l.t])
  {
  }

  /** While a heartbeat holds its device, no loud transaction ends the job it has seen. */
  lemma SeenJobSurvives(s: Settings, db: Db, tx: Tx, beat: Tx)
    requires tx.JobTx? && Refs(db) && JobTxInv(s, db, tx) && tx.pc.Boundary? && tx.todo == [] && Loud(s, tx)
    requires beat.BeatTx? && Apart(tx, beat) && HasActiveJob(db.jobs, beat.device)
    ensures HasActiveJob(CommittedDb(db, tx).jobs, beat.device)
  {
    FinishedTx(s, db, tx);
    var j :| j in db.jobs && db.jobs[j].device == beat.device && db.jobs[j].status.Active();
    var jobs' := CommittedDb(db, tx).jobs;
    assert beat.device in DeviceLocks(beat) && beat.device !in tx.devW;
    assert j in jobs' && jobs'[j].device == beat.device && jobs'[j].status.Active();
  }

  lemma CommitIsCareful(s: Settings, sys: Sys, t: TxId)
    requires Enabled(s, sys, Commit(t)) && LoudTx(s, sys.db, sys.txs[t])
    ensures Careful(sys, Commit(t))
  {
  }

  /** Any change of the committed rows but the commit of a job transaction leaves active jobs active. */
  lemma OthersStayLoud(s: Settings, sys: Sys, l: Step, u: TxId)
    requires SysInv(s, sys) && Enabled(s, sys, l) && (l.Commit? || l.CommitCreate? || l.InsertDevice? || l.Abort?)
    requires u in sys.txs && u in Apply(s, sys, l).txs && LoudSys(s, sys)
    ensures LoudTx(s, Apply(s, sys, l).db, sys.txs[u])
  {
    var other, db' := sys.txs[u], Apply(s, sys, l).db;
    assert LoudTx(s, sys.db, other);
    if other.BeatTx? && other.seen == Some(Busy) {
      if l.Commit? && sys.txs[l.t].JobTx? {
        assert TxInv(s, sys.db, sys.txs[l.t]) && LoudTx(s, sys.db, sys.txs[l.t]) && Apart(sys.txs[l.t], other);
        SeenJobSurvives(s, sys.db, sys.txs[l.t], other);
      } else if l.CommitCreate? {
        assert TxInv(s, sys.db, sys.txs[l.t]);
        CreateCommitAdds(s, sys.db, sys.txs[l.t], l.run, l.ids);
        var j :| j in sys.db.jobs && sys.db.jobs[j].device == other.device && sys.db.jobs[j].status.Active();
        assert j in db'.jobs && db'.jobs[j] == sys.db.jobs[j];
      }
    }
  }

  lemma LoudStep(s: Settings, sys: Sys, l: Step)
    requires SysInv(s, sys) && Enabled(s, sys, l) && LoudSys(s, sys) && !QuietLoad(s, sys, l)
    ensures LoudSys(s, Apply(s, sys, l))
  {
    var sys' := Apply(s, sys, l);
    if l.Commit? { CommitIsCareful(s, sys, l.t); }
    BusyHeldExactly(s, sys, l);
    forall u | u in sys'.txs ensures LoudTx(s, sys'.db, sys'.txs[u]) {
      if l.Commit? || l.CommitCreate? || l.InsertDevice? || l.Abort? {
        OthersStayLoud(s, sys, l, u);
      } else if u == l.t {
        if l.BeginJob? || l.BeginReconcile? || l.BeginBeat? || l.BeginCreate? || l.BeginSweep? {
          BeginIsLoud(s, sys, l);
        } else {
          assert TxInv(s, sys.db, sys.txs[u]);
          LocalIsLoud(s, sys, l);
        }
      }
    }
  }

  /** If no transaction that ends a job ever finds its device offline with a stale heartbeat, a busy device has an
      active job at every moment of the schedule. */
  lemma {:induction false} LoudSchedule(s: Settings, states: seq<Sys>, steps: seq<Step>, n: nat)
    requires Schedule(s, states, steps) && SysInv(s, states[0]) && LoudSys(s, states[0]) && n <= |steps|
    requires forall k :: 0 <= k < |steps| ==> !QuietLoad(s, states[k], steps[k])
    ensures LoudSys(s, states[n]) && BusyHeld(states[n].db)
  {
    if n > 0 {
      LoudSchedule(s, states, steps, n - 1);
      ScheduleKeepsSysInv(s, states, steps, n - 1);
      assert Taken(s, states, steps, n - 1);
      LoudStep(s, states[n - 1], steps[n - 1]);
    }
  }

  // ---------------------------------------------------------------- with one

  /** A schedule that leads from one state to another; its last step is `last`. */
  ghost predicate Leads(s: Settings, states: seq<Sys>, steps: seq<Step>, from: Sys, last: Step, to: Sys) {
    && Schedule(s, states, steps) && states[0] == from && states[|steps|] == to
    && steps != [] && steps[|steps| - 1] == last
  }

  lemma One(s: Settings, from: Sys, l: Step, to: Sys) returns (states: seq<Sys>, steps: seq<Step>)
    requires Enabled(s, from, l) && Apply(s, from, l) == to
    ensures Leads(s, states, steps, from, l, to)
  {
    states, steps := [from, to], [l];
  }

  lemma Then(s: Settings, states: seq<Sys>, steps: seq<Step>, from: Sys, mid: Sys, last: Step, more: seq<Sys>,
             further: seq<Step>, last': Step, to: Sys)
    returns (states': seq<Sys>, steps': seq<Step>)
    requires Leads(s, states, steps, from, last, mid) && Leads(s, more, further, mid, last', to)
    ensures Leads(s, states', steps', from, last', to)
  {
    states', steps' := states + more[1..], steps + further;
    assert forall i :: |steps| <= i <= |steps'| ==> states'[i] == more[i - |steps|];
    forall i | 0 <= i < |steps'| ensures Taken(s, states', steps', i) {
      if i < |steps| { assert Taken(s, states, steps, i); } else { assert Taken(s, more, further, i - |steps|); }
    }
  }

  lemma ThenOne(s: Settings, states: seq<Sys>, steps: seq<Step>, from: Sys, mid: Sys, last: Step, l: Step, to: Sys)
    returns (states': seq<Sys>, steps': seq<Step>)
    requires Leads(s, states, steps, from, last, mid) && Enabled(s, mid, l) && Apply(s, mid, l) == to
    ensures Leads(s, states', steps', from, l, to)
  {
    var more, further := One(s, mid, l, to);
    states', steps' := Then(s, states, steps, from, mid, last, more, further, l, to);
  }

  /** The transaction that ends job `j`, here called the worker's, from its first statement to its commit, if it writes
      no device. */
  datatype Worker = Worker(locked: Tx, written: Tx, loaded: Tx, flushed: Tx, waiting: Tx, done: Tx)

  ghost function QuietWorker(s: Settings, db: Db, a: Action, j: JobId, now: Time): Worker
    requires Refs(db) && j in db.jobs && Accepts(a, db.jobs[j], now)
  {
    var job', r := Effect(s, a, db.jobs[j], now), db.jobs[j].run;
    var locked := JobTx(a, now, [], [j], Boundary, map[], map[], map[], {});
    var written := locked.(jobW := map[j := job'], pc := Written);
    var loaded := written.(pc := Loaded(db.devices[db.jobs[j].device]));
    var flushed := loaded.(pc := Flushed);
    var waiting := flushed.(pc := RunLocked, runs := {r});
    var row := RecomputeRow(db.runs[r], db.jobs + map[j := job'], r, now);
    Worker(locked, written, loaded, flushed, waiting,
           waiting.(pc := Boundary, done := [j], todo := [], runW := map[r := row]))
  }

  /** The transaction ends the job: a worker's final write, or the reconciler's expiry after the last attempt. */
  ghost predicate EndsJob(s: Settings, a: Action, job: Job, now: Time) {
    Accepts(a, job, now) && Effect(s, a, job, now).status.Terminal()
  }

  lemma EndsJobExactly(s: Settings, a: Action, job: Job, now: Time)
    requires Accepts(a, job, now)
    ensures EndsJob(s, a, job, now) <==> a.Finish? || (a.Expire? && job.attempts >= s.maxAttempts)
  {
  }

  function FirstStep(a: Action, j: JobId, now: Time): Step {
    if a.Expire? then BeginReconcile(1, [j], now) else BeginJob(1, a, j, now)
  }

  lemma WorkerLoads(s: Settings, db: Db, a: Action, j: JobId, now: Time)
    returns (states: seq<Sys>, steps: seq<Step>)
    requires Refs(db) && j in db.jobs && EndsJob(s, a, db.jobs[j], now)
    ensures Leads(s, states, steps, Sys(db, map[]), LoadDevice(1),
        Sys(db, map[1 := QuietWorker(s, db, a, j, now).loaded]))
  {
    var w := QuietWorker(s, db, a, j, now);
    var start, locked := Sys(db, map[]), Sys(db, map[1 := w.locked]);
    var written, loaded := Sys(db, map[1 := w.written]), Sys(db, map[1 := w.loaded]);
    states, steps := One(s, start, FirstStep(a, j, now), locked);
    states, steps := ThenOne(s, states, steps, start, locked, FirstStep(a, j, now), WriteJob(1), written);
    states, steps := ThenOne(s, states, steps, start, written, WriteJob(1), LoadDevice(1), loaded);
  }

  /** A heartbeat transaction sees the job as active while the worker still holds its update back. */
  lemma HeartbeatSees(s: Settings, db: Db, worker: Tx, d: DeviceId, row: Device)
    returns (states: seq<Sys>, steps: seq<Step>)
    requires d in db.devices && HasActiveJob(db.jobs, d) && worker.JobTx? && worker.devW == map[]
    ensures Leads(s, states, steps, Sys(db, map[1 := worker]), ReadActive(2),
                  Sys(db, map[1 := worker, 2 := BeatTx(d, row, Some(Busy))]))
  {
    var from, locked := Sys(db, map[1 := worker]), Sys(db, map[1 := worker, 2 := BeatTx(d, row, None)]);
    var seen := Sys(db, map[1 := worker, 2 := BeatTx(d, row, Some(Busy))]);
    states, steps := One(s, from, BeginBeat(2, d, row), locked);
    states, steps := ThenOne(s, states, steps, from, locked, BeginBeat(2, d, row), ReadActive(2), seen);
  }

  ghost function Beaten(db: Db, d: DeviceId, row: Device): Db {
    db.(devices := db.devices[d := row.(status := Busy)])
  }

  lemma HeartbeatCommits(s: Settings, db: Db, d: DeviceId, row: Device, rest: map<TxId, Tx>)
    returns (states: seq<Sys>, steps: seq<Step>)
    requires 2 !in rest
    ensures Leads(s, states, steps, Sys(db, rest[2 := BeatTx(d, row, Some(Busy))]), Commit(2),
        Sys(Beaten(db, d, row), rest))
  {
    assert rest[2 := BeatTx(d, row, Some(Busy))] - {2} == rest;
    states, steps := One(s, Sys(db, rest[2 := BeatTx(d, row, Some(Busy))]), Commit(2), Sys(Beaten(db, d, row), rest));
  }

  lemma AggregateApplied(s: Settings, db: Db, w: Worker, j: JobId, rest: map<TxId, Tx>, now: Time, a: Action, db0: Db)
    requires Refs(db) && Refs(db0) && db.jobs == db0.jobs && db.runs == db0.runs
    requires j in db.jobs && Accepts(a, db.jobs[j], now) && w == QuietWorker(s, db0, a, j, now)
    ensures Enabled(s, Sys(db, rest[1 := w.waiting]), AggregateRun(1))
    ensures Apply(s, Sys(db, rest[1 := w.waiting]), AggregateRun(1)) == Sys(db, rest[1 := w.done])
  {
    assert w.waiting.done + [j] == [j] && w.waiting.todo[1..] == [];
  }

  /** The worker finds the device attribute unchanged, writes no device row and waits for the run's lock, whether or
      not a heartbeat is open. */
  lemma WorkerFlushes(s: Settings, db: Db, db0: Db, a: Action, j: JobId, now: Time, rest: map<TxId, Tx>)
    returns (states: seq<Sys>, steps: seq<Step>)
    requires Refs(db) && Refs(db0) && db.jobs == db0.jobs && db.runs == db0.runs
    requires j in db.jobs && EndsJob(s, a, db.jobs[j], now)
        && Unreachable(s, db0.devices[db.jobs[j].device], now)
    requires forall t :: t in rest ==> rest[t].BeatTx?
    ensures var w := QuietWorker(s, db0, a, j, now);
      Leads(s, states, steps, Sys(db, rest[1 := w.loaded]), LockRun(1), Sys(db, rest[1 := w.waiting]))
  {
    var w := QuietWorker(s, db0, a, j, now);
    var loaded, flushed := Sys(db, rest[1 := w.loaded]), Sys(db, rest[1 := w.flushed]);
    var waiting := Sys(db, rest[1 := w.waiting]);
    assert w.flushed.runs + {db.jobs[j].run} == w.waiting.runs;
    states, steps := One(s, loaded, FlushDevice(1), flushed);
    states, steps := ThenOne(s, states, steps, loaded, flushed, FlushDevice(1), LockRun(1), waiting);
  }

  lemma WorkerCommits(s: Settings, db: Db, db0: Db, a: Action, j: JobId, now: Time, rest: map<TxId, Tx>)
    returns (states: seq<Sys>, steps: seq<Step>)
    requires Refs(db) && Refs(db0) && db.jobs == db0.jobs && db.runs == db0.runs
    requires j in db.jobs && EndsJob(s, a, db.jobs[j], now)
    requires 1 !in rest
    ensures var w := QuietWorker(s, db0, a, j, now);
      Leads(s, states, steps, Sys(db, rest[1 := w.waiting]), Commit(1), Sys(CommittedDb(db, w.done), rest))
  {
    var w := QuietWorker(s, db0, a, j, now);
    var waiting, done := Sys(db, rest[1 := w.waiting]), Sys(db, rest[1 := w.done]);
    AggregateApplied(s, db, w, j, rest, now, a, db0);
    states, steps := One(s, waiting, AggregateRun(1), done);
    assert rest[1 := w.done] - {1} == rest;
    states, steps := ThenOne(s, states, steps, waiting, done, AggregateRun(1), Commit(1),
        Sys(CommittedDb(db, w.done), rest));
  }

  lemma WorkerFinishesQuietly(s: Settings, db: Db, db0: Db, a: Action, j: JobId, now: Time, rest: map<TxId, Tx>)
    returns (states: seq<Sys>, steps: seq<Step>)
    requires Refs(db) && Refs(db0) && db.jobs == db0.jobs && db.runs == db0.runs
    requires j in db.jobs && EndsJob(s, a, db.jobs[j], now)
        && Unreachable(s, db0.devices[db.jobs[j].device], now)
    requires 1 !in rest && forall t :: t in rest ==> rest[t].BeatTx?
    ensures var w := QuietWorker(s, db0, a, j, now);
      Leads(s, states, steps, Sys(db, rest[1 := w.loaded]), Commit(1), Sys(CommittedDb(db, w.done), rest))
  {
    var w := QuietWorker(s, db0, a, j, now);
    var more, further;
    states, steps := WorkerFlushes(s, db, db0, a, j, now, rest);
    more, further := WorkerCommits(s, db, db0, a, j, now, rest);
    states, steps := Then(s, states, steps, Sys(db, rest[1 := w.loaded]), Sys(db, rest[1 := w.waiting]), LockRun(1),
                          more, further, Commit(1), Sys(CommittedDb(db, w.done), rest));
  }

  /** Device `d` is shown busy although no job holds it. */
  ghost predicate BusyIdle(db: Db, d: DeviceId) {
    d in db.devices && db.devices[d].status.Busy? && !HasActiveJob(db.jobs, d)
  }

  /** In either order of the two commits the device is busy and idle at the end. */
  lemma IdleAfterBoth(s: Settings, db: Db, a: Action, j: JobId, now: Time, row: Device)
    requires Refs(db) && Exclusive(db.jobs) && j in db.jobs && EndsJob(s, a, db.jobs[j], now)
    ensures var w, d := QuietWorker(s, db, a, j, now), db.jobs[j].device;
      BusyIdle(CommittedDb(Beaten(db, d, row), w.done), d) && BusyIdle(Beaten(CommittedDb(db, w.done), d, row), d)
  {
    var d, jobs' := db.jobs[j].device, db.jobs[j := Effect(s, a, db.jobs[j], now)];
    Vacated(db.jobs, jobs', j);
    var w := QuietWorker(s, db, a, j, now);
    assert CommittedDb(Beaten(db, d, row), w.done).jobs == jobs'
        && Beaten(CommittedDb(db, w.done), d, row).jobs == jobs';
  }

  /** The worker commits after the heartbeat. */
  lemma WorkerCommitsLast(s: Settings, db: Db, a: Action, j: JobId, now: Time, row: Device)
    returns (states: seq<Sys>, steps: seq<Step>)
    requires Refs(db) && j in db.jobs && EndsJob(s, a, db.jobs[j], now)
    requires Unreachable(s, db.devices[db.jobs[j].device], now)
    ensures var w := QuietWorker(s, db, a, j, now);
      Leads(s, states, steps, Sys(db, map[]), Commit(1),
            Sys(CommittedDb(Beaten(db, db.jobs[j].device, row), w.done), map[]))
  {
    var w, d := QuietWorker(s, db, a, j, now), db.jobs[j].device;
    var start, loaded := Sys(db, map[]), Sys(db, map[1 := w.loaded]);
    var seen := Sys(db, map[1 := w.loaded, 2 := BeatTx(d, row, Some(Busy))]);
    var beaten := Sys(Beaten(db, d, row), map[1 := w.loaded]);
    var more, further;
    states, steps := WorkerLoads(s, db, a, j, now);
    more, further := HeartbeatSees(s, db, w.loaded, d, row);
    states, steps := Then(s, states, steps, start, loaded, LoadDevice(1), more, further, ReadActive(2), seen);
    more, further := HeartbeatCommits(s, db, d, row, map[1 := w.loaded]);
    states, steps := Then(s, states, steps, start, seen, ReadActive(2), more, further, Commit(2), beaten);
    more, further := WorkerFinishesQuietly(s, Beaten(db, d, row), db, a, j, now, map[]);
    states, steps := Then(s, states, steps, start, beaten, Commit(2), more, further, Commit(1),
                          Sys(CommittedDb(Beaten(db, d, row), w.done), map[]));
  }

  lemma TwoOpen(worker: Tx, beat: Tx)
    ensures map[1 := worker, 2 := beat] == map[2 := beat][1 := worker]
    ensures map[2 := beat] == map[][2 := beat]
  {
  }

  /** The heartbeat commits after the worker, with the status it has seen before. */
  lemma HeartbeatCommitsLast(s: Settings, db: Db, a: Action, j: JobId, now: Time, row: Device)
    returns (states: seq<Sys>, steps: seq<Step>)
    requires Refs(db) && j in db.jobs && EndsJob(s, a, db.jobs[j], now)
    requires Unreachable(s, db.devices[db.jobs[j].device], now)
    ensures var w := QuietWorker(s, db, a, j, now);
      Leads(s, states, steps, Sys(db, map[]), Commit(2),
            Sys(Beaten(CommittedDb(db, w.done), db.jobs[j].device, row), map[]))
  {
    var w, d := QuietWorker(s, db, a, j, now), db.jobs[j].device;
    var beat := BeatTx(d, row, Some(Busy));
    var start, loaded := Sys(db, map[]), Sys(db, map[1 := w.loaded]);
    var seen, ended := Sys(db, map[1 := w.loaded, 2 := beat]), Sys(CommittedDb(db, w.done), map[2 := beat]);
    var more, further;
    states, steps := WorkerLoads(s, db, a, j, now);
    more, further := HeartbeatSees(s, db, w.loaded, d, row);
    states, steps := Then(s, states, steps, start, loaded, LoadDevice(1), more, further, ReadActive(2), seen);
    TwoOpen(w.loaded, beat);
    more, further := WorkerFinishesQuietly(s, db, db, a, j, now, map[2 := beat]);
    states, steps := Then(s, states, steps, start, seen, ReadActive(2), more, further, Commit(1), ended);
    more, further := HeartbeatCommits(s, CommittedDb(db, w.done), d, row, map[]);
    states, steps := Then(s, states, steps, start, ended, Commit(1), more, further, Commit(2),
                          Sys(Beaten(CommittedDb(db, w.done), d, row), map[]));
  }

  /** From every database with a running job whose device is offline with a stale heartbeat, a heartbeat between the
      worker's unlocked read of the device and the later of the two commits leaves the device busy although its only
      job has ended: the worker read `Offline`, computes `Offline` and therefore writes nothing, and the heartbeat
      still sees the job. It happens in either order of the two commits. The next heartbeat repairs the row. */
  lemma BusyCanOutliveItsJob(s: Settings, db: Db, a: Action, j: JobId, now: Time, row: Device)
    returns (states: seq<Sys>, steps: seq<Step>, last: Db, states': seq<Sys>, steps': seq<Step>, last': Db)
    requires Refs(db) && Exclusive(db.jobs) && j in db.jobs && EndsJob(s, a, db.jobs[j], now)
    requires Unreachable(s, db.devices[db.jobs[j].device], now)
    ensures Leads(s, states, steps, Sys(db, map[]), Commit(1), Sys(last, map[])) && BusyIdle(last, db.jobs[j].device)
    ensures Leads(s, states', steps', Sys(db, map[]), Commit(2), Sys(last', map[]))
        && BusyIdle(last', db.jobs[j].device)
  {
    var w, d := QuietWorker(s, db, a, j, now), db.jobs[j].device;
    IdleAfterBoth(s, db, a, j, now, row);
    last, last' := CommittedDb(Beaten(db, d, row), w.done), Beaten(CommittedDb(db, w.done), d, row);
    states, steps := WorkerCommitsLast(s, db, a, j, now, row);
    states', steps' := HeartbeatCommitsLast(s, db, a, j, now, row);
  }
}
