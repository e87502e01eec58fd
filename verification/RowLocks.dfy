/** What the row locks of a transaction protect, and why its own statements keep the invariant. */
module RowLocks {
  import opened Domain
  import opened Identifiers
  import opened Configuration
  import opened JobMachine
  import opened Aggregation
  import opened Services
  import opened ReadCommitted
  import opened PendingWrites

  // ---------------------------------------------------------------- what locks protect

  /** Nothing that `tx` has locked, and no job of a run it has locked, differs between two committed databases. */
  ghost predicate Frozen(db: Db, db': Db, tx: Tx)
    requires tx.JobTx?
  {
    && (forall j :: j in tx.done + tx.todo && j in db.jobs ==> j in db'.jobs && db'.jobs[j] == db.jobs[j])
    && (forall r :: r in tx.runs && r in db.runs ==>
          r in db'.runs && db'.runs[r] == db.runs[r] && SameRun(db.jobs, db'.jobs, r))
  }

  lemma OverlaySameRun(jobs: Jobs, jobs': Jobs, w: Jobs, r: RunId)
    requires SameRun(jobs, jobs', r)
    ensures SameRun(jobs + w, jobs' + w, r)
  {
    forall j
      ensures InRun(jobs + w, j, r) <==> InRun(jobs' + w, j, r)
      ensures InRun(jobs + w, j, r) ==> (jobs + w)[j] == (jobs' + w)[j]
    {
      if j !in w {
        assert InRun(jobs + w, j, r) <==> InRun(jobs, j, r);
        assert InRun(jobs' + w, j, r) <==> InRun(jobs', j, r);
      }
    }
  }

  ghost predicate RowsFrozen(db: Db, db': Db, ids: seq<JobId>) {
    forall j :: j in ids && j in db.jobs ==>
      && j in db'.jobs && db'.jobs[j] == db.jobs[j]
      && (db.jobs[j].run in db.runs ==>
            && db.jobs[j].run in db'.runs && db'.runs[db.jobs[j].run] == db.runs[db.jobs[j].run]
            && SameRun(db.jobs, db'.jobs, db.jobs[j].run))
  }

  lemma RowsFrozenFacts(db: Db, db': Db, a: Action, now: Time, ids: seq<JobId>)
    requires Refs(db) && AllAccepted(db.jobs, a, now, ids) && RowsFrozen(db, db', ids)
    ensures AllAccepted(db'.jobs, a, now, ids)
    ensures forall s :: JobWrites(s, db.jobs, a, now, ids) == JobWrites(s, db'.jobs, a, now, ids)
  {
  }

  lemma FrozenRow(db: Db, db': Db, w: Jobs, before: Runs, j: JobId, now: Time)
    requires Refs(db) && Refs(db') && j in db.jobs && j in db'.jobs && db'.jobs[j] == db.jobs[j]
    requires db'.runs[db.jobs[j].run] == db.runs[db.jobs[j].run] && SameRun(db.jobs, db'.jobs, db.jobs[j].run)
    ensures var r := db.jobs[j].run;
      RecomputeRow((db.runs + before)[r], db.jobs + w, r, now) ==
          RecomputeRow((db'.runs + before)[r], db'.jobs + w, r, now)
  {
    var r := db.jobs[j].run;
    OverlaySameRun(db.jobs, db'.jobs, w, r);
    AggregationFrame(db.jobs + w, db'.jobs + w, r, (db.runs + before)[r], now);
  }

  /** The pending run rows stay right while others commit: nobody can change a sibling without the run's lock. */
  lemma {:induction false} RunWritesFrame(s: Settings, db: Db, db': Db, a: Action, now: Time, ids: seq<JobId>)
    requires Refs(db) && Refs(db') && AllAccepted(db.jobs, a, now, ids) && RowsFrozen(db, db', ids)
    ensures AllAccepted(db'.jobs, a, now, ids)
    ensures RunWrites(s, db, a, now, ids) == RunWrites(s, db', a, now, ids)
    decreases |ids|
  {
    RowsFrozenFacts(db, db', a, now, ids);
    if ids != [] {
      var prefix, last := ids[..|ids| - 1], ids[|ids| - 1];
      assert ids == prefix + [last];
      assert last in ids && forall j :: j in prefix ==> j in ids;
      RunWritesFrame(s, db, db', a, now, prefix);
      FrozenRow(db, db', JobWrites(s, db.jobs, a, now, ids), RunWrites(s, db, a, now, prefix), last, now);
      RunWritesSnoc(s, db, a, now, prefix, last);
      RunWritesSnoc(s, db', a, now, prefix, last);
    }
  }

  lemma FrozenRows(s: Settings, db: Db, db': Db, tx: Tx)
    requires tx.JobTx? && Refs(db) && JobTxInv(s, db, tx) && Frozen(db, db', tx)
    ensures RowsFrozen(db, db', tx.done)
    ensures tx.todo != [] ==>
      tx.todo[0] in db.jobs && tx.todo[0] in db'.jobs && db'.jobs[tx.todo[0]] == db.jobs[tx.todo[0]]
    ensures AllAccepted(db'.jobs, tx.a, tx.now, tx.done + tx.todo)
  {
    assert forall j :: j in tx.done ==> j in tx.done + tx.todo;
    assert tx.todo != [] ==> tx.todo[0] in tx.done + tx.todo;
  }

  lemma JobTxKept(s: Settings, db: Db, db': Db, tx: Tx)
    requires tx.JobTx? && Refs(db) && Refs(db') && JobTxInv(s, db, tx) && Frozen(db, db', tx)
    ensures JobTxInv(s, db', tx)
  {
    FrozenRows(s, db, db', tx);
    RunWritesFrame(s, db, db', tx.a, tx.now, tx.done);
    RowsFrozenFacts(db, db', tx.a, tx.now, tx.done);
  }

  /** A commit that respects the locks of `tx`. */
  ghost predicate Respects(db: Db, db': Db, tx: Tx) {
    db'.suites == db.suites &&
    match tx
    case JobTx(_, _, _, _, _, _, _, _, _) => Frozen(db, db', tx)
    case BeatTx(d, _, _) => d in db'.devices && (HasActiveJob(db'.jobs, d) ==> HasActiveJob(db.jobs, d))
    case CreateTx(_, chosen, _) => forall d :: d in chosen && d in db.devices ==>
        d in db'.devices && db'.devices[d] == db.devices[d]
    case SweepTx(stale) => stale <= db'.devices.Keys
  }

  lemma RespectedKept(s: Settings, db: Db, db': Db, tx: Tx)
    requires Refs(db) && Refs(db') && TxInv(s, db, tx) && Respects(db, db', tx)
    ensures TxInv(s, db', tx)
  {
    match tx
    case JobTx(_, _, _, _, _, _, _, _, _) => JobTxKept(s, db, db', tx);
    case CreateTx(request, chosen, at) =>
      assert forall d :: d in chosen ==> d in Selected(s, db, request, chosen, at);
      assert Selected(s, db', request, chosen, at) == chosen;
    case _ =>
  }

  // ---------------------------------------------------------------- steps inside a transaction

  lemma OpenRow(s: Settings, db: Db, tx: Tx)
    requires tx.JobTx? && Refs(db) && JobTxInv(s, db, tx) && tx.todo != []
    ensures var j := tx.todo[0];
      && j in db.jobs && Accepts(tx.a, db.jobs[j], tx.now) && j !in tx.done
      && AllAccepted(db.jobs, tx.a, tx.now, tx.done + [j])
      && JobWrites(s, db.jobs, tx.a, tx.now, tx.done + [j]) ==
           JobWrites(s, db.jobs, tx.a, tx.now, tx.done)[j := Effect(s, tx.a, db.jobs[j], tx.now)]
  {
    var all, n := tx.done + tx.todo, |tx.done|;
    var j := tx.todo[0];
    assert all[n] == j && j in all;
    assert forall i :: 0 <= i < n ==> all[i] == tx.done[i];
    JobWritesSnoc(s, db.jobs, tx.a, tx.now, tx.done, j);
  }

  lemma WriteKeeps(s: Settings, sys: Sys, t: TxId)
    requires Refs(sys.db) && Enabled(s, sys, WriteJob(t)) && JobTxInv(s, sys.db, sys.txs[t])
    ensures JobTxInv(s, sys.db, Apply(s, sys, WriteJob(t)).txs[t])
    ensures Apply(s, sys, WriteJob(t)).txs[t].done == sys.txs[t].done
    ensures Apply(s, sys, WriteJob(t)).txs[t].todo == sys.txs[t].todo
  {
    var tx, tx' := sys.txs[t], Apply(s, sys, WriteJob(t)).txs[t];
    OpenRow(s, sys.db, tx);
    forall d | d in tx'.devW
      ensures exists j :: j in tx'.jobW && tx'.jobW[j].device == d && tx'.jobW[j].status.Terminal()
    {
      var j :| j in tx.jobW && tx.jobW[j].device == d && tx.jobW[j].status.Terminal();
      assert j in tx'.jobW && tx'.jobW[j] == tx.jobW[j];
    }
  }

  lemma FlushKeeps(s: Settings, sys: Sys, t: TxId)
    requires Refs(sys.db) && Enabled(s, sys, FlushDevice(t)) && JobTxInv(s, sys.db, sys.txs[t])
    ensures JobTxInv(s, sys.db, Apply(s, sys, FlushDevice(t)).txs[t])
  {
    var tx, tx' := sys.txs[t], Apply(s, sys, FlushDevice(t)).txs[t];
    var j := tx.todo[0];
    OpenRow(s, sys.db, tx);
    assert j in tx'.jobW && tx'.jobW[j].device == sys.db.jobs[j].device && tx'.jobW[j].status.Terminal();
  }

  lemma AggregateMovesOn(s: Settings, sys: Sys, t: TxId)
    requires Refs(sys.db) && Enabled(s, sys, AggregateRun(t))
    ensures var tx, tx' := sys.txs[t], Apply(s, sys, AggregateRun(t)).txs[t];
      && tx'.done == tx.done + [tx.todo[0]]
      && tx'.done + tx'.todo == tx.done + tx.todo && tx'.runs == tx.runs && tx'.devW == tx.devW
  {
  }

  lemma AggregateKeeps(s: Settings, sys: Sys, t: TxId)
    requires Refs(sys.db) && Enabled(s, sys, AggregateRun(t)) && JobTxInv(s, sys.db, sys.txs[t])
    ensures JobTxInv(s, sys.db, Apply(s, sys, AggregateRun(t)).txs[t])
    ensures var tx, tx' := sys.txs[t], Apply(s, sys, AggregateRun(t)).txs[t];
      tx'.done + tx'.todo == tx.done + tx.todo && tx'.runs == tx.runs && tx'.devW == tx.devW
  {
    var tx, tx' := sys.txs[t], Apply(s, sys, AggregateRun(t)).txs[t];
    var j := tx.todo[0];
    AggregateMovesOn(s, sys, t);
    OpenRow(s, sys.db, tx);
    RunWritesSnoc(s, sys.db, tx.a, tx.now, tx.done, j);
    assert tx'.runW == RunWrites(s, sys.db, tx.a, tx.now, tx'.done);
    forall k | k in tx'.done ensures sys.db.jobs[k].run in tx'.runs {
      if k != j { assert k in tx.done; }
    }
  }

  lemma BeginKeeps(s: Settings, db: Db, a: Action, ids: seq<JobId>, now: Time)
    requires Refs(db) && NoDuplicates(ids) && AllAccepted(db.jobs, a, now, ids)
    ensures JobTxInv(s, db, JobTx(a, now, [], ids, Boundary, map[], map[], map[], {}))
  {
    assert [] + ids == ids;
  }

  /** A transaction that starts or goes on, acquiring only free locks, keeps the invariant of the system. */
  lemma WithKeeps(s: Settings, sys: Sys, t: TxId, tx: Tx)
    requires SysInv(s, sys) && TxInv(s, sys.db, tx)
    requires forall u :: u in sys.txs && u != t ==> Apart(tx, sys.txs[u])
    ensures SysInv(s, With(sys, t, tx))
  {
  }

  /** The transaction takes no further lock but, at most, the free ones `runs` and `devices`. */
  lemma ContinueKeeps(s: Settings, sys: Sys, t: TxId, tx: Tx, runs: set<RunId>, devices: set<DeviceId>)
    requires SysInv(s, sys) && t in sys.txs && TxInv(s, sys.db, tx)
    requires JobLocks(tx) == JobLocks(sys.txs[t])
    requires RunLocks(tx) == RunLocks(sys.txs[t]) + runs && DeviceLocks(tx) == DeviceLocks(sys.txs[t]) + devices
    requires forall r :: r in runs ==> RunFreeFor(sys, t, r)
    requires forall d :: d in devices ==> DeviceFreeFor(sys, t, d)
    ensures SysInv(s, With(sys, t, tx))
  {
    forall u | u in sys.txs && u != t ensures Apart(tx, sys.txs[u]) {
      assert Apart(sys.txs[t], sys.txs[u]);
      forall r | r in runs ensures r !in RunLocks(sys.txs[u]) { assert RunFreeFor(sys, t, r); }
      forall d | d in devices ensures d !in DeviceLocks(sys.txs[u]) { assert DeviceFreeFor(sys, t, d); }
    }
    WithKeeps(s, sys, t, tx);
  }

  lemma LocalTxKeeps(s: Settings, sys: Sys, l: Step)
    requires l.WriteJob? || l.LoadDevice? || l.LockRun? || l.AggregateRun? || l.ReadActive?
    requires Refs(sys.db) && Enabled(s, sys, l) && l.t in sys.txs && TxInv(s, sys.db, sys.txs[l.t])
    ensures TxInv(s, sys.db, Apply(s, sys, l).txs[l.t])
  {
    match l {
      case WriteJob(t) => WriteKeeps(s, sys, t);
      case LoadDevice(t) => OpenRow(s, sys.db, sys.txs[t]);
      case LockRun(t) => OpenRow(s, sys.db, sys.txs[t]);
      case AggregateRun(t) => AggregateKeeps(s, sys, t);
      case ReadActive(t) =>
    }
  }

  /** The device locks a local step acquires. */
  ghost function Acquired(s: Settings, sys: Sys, l: Step): set<DeviceId>
    requires Enabled(s, sys, l)
  {
    if l.FlushDevice? && ReleaseStatus(s, sys.txs[l.t].pc.device, sys.txs[l.t].now) != sys.txs[l.t].pc.device.status
    then {sys.db.jobs[sys.txs[l.t].todo[0]].device} else {}
  }

  lemma LocalLocks(s: Settings, sys: Sys, l: Step)
    requires Enabled(s, sys, l)
    requires l.WriteJob? || l.LoadDevice? || l.FlushDevice? || l.LockRun? || l.AggregateRun? || l.ReadActive?
    ensures var tx, tx' := sys.txs[l.t], Apply(s, sys, l).txs[l.t];
      && JobLocks(tx') == JobLocks(tx)
      && RunLocks(tx') == RunLocks(tx) + (if l.LockRun? then {sys.db.jobs[tx.todo[0]].run} else {})
      && DeviceLocks(tx') == DeviceLocks(tx) + Acquired(s, sys, l)
  {
    if l.AggregateRun? {
      var tx, tx' := sys.txs[l.t], Apply(s, sys, l).txs[l.t];
      assert tx'.done + tx'.todo == tx.done + tx.todo;
    }
  }

  lemma LocalStepKeeps(s: Settings, sys: Sys, l: Step)
    requires SysInv(s, sys) && Enabled(s, sys, l)
    requires l.WriteJob? || l.LoadDevice? || l.FlushDevice? || l.LockRun? || l.AggregateRun? || l.ReadActive?
    ensures SysInv(s, Apply(s, sys, l))
  {
    assert TxInv(s, sys.db, sys.txs[l.t]);
    LocalLocks(s, sys, l);
    if l.FlushDevice? { FlushKeeps(s, sys, l.t); } else { LocalTxKeeps(s, sys, l); }
    ContinueKeeps(s, sys, l.t, Apply(s, sys, l).txs[l.t],
                  if l.LockRun? then {sys.db.jobs[sys.txs[l.t].todo[0]].run} else {}, Acquired(s, sys, l));
  }

  lemma BeginTxKeeps(s: Settings, sys: Sys, l: Step)
    requires Refs(sys.db) && Enabled(s, sys, l)
    requires l.BeginJob? || l.BeginReconcile? || l.BeginBeat? || l.BeginCreate? || l.BeginSweep?
    ensures TxInv(s, sys.db, Apply(s, sys, l).txs[l.t])
    ensures Apply(s, sys, l) == With(sys, l.t, Apply(s, sys, l).txs[l.t])
  {
    match l {
      case BeginJob(t, a, j, now) => BeginKeeps(s, sys.db, a, [j], now);
      case BeginReconcile(t, rows, now) => BeginKeeps(s, sys.db, Expire, rows, now);
      case BeginCreate(t, request, unlocked, now) =>
        var chosen := Selected(s, sys.db, request, unlocked, now);
        assert Selected(s, sys.db, request, chosen, now) == chosen;
      case _ =>
    }
  }

  lemma BeginLocks(s: Settings, sys: Sys, l: Step, u: TxId)
    requires l.BeginJob? || l.BeginReconcile? || l.BeginBeat? || l.BeginCreate? || l.BeginSweep?
    requires Enabled(s, sys, l) && u in sys.txs && u != l.t
    ensures Apart(Apply(s, sys, l).txs[l.t], sys.txs[u])
  {
    var tx' := Apply(s, sys, l).txs[l.t];
    match l {
      case BeginReconcile(t, rows, now) =>
        assert [] + rows == rows;
        forall j | j in JobLocks(tx') ensures j !in JobLocks(sys.txs[u]) { assert JobFree(sys, j); }
      case BeginCreate(t, request, unlocked, now) =>
        forall d | d in DeviceLocks(tx') ensures d !in DeviceLocks(sys.txs[u]) { assert DeviceFreeFor(sys, t, d); }
      case BeginSweep(t, stale, now) =>
        forall d | d in DeviceLocks(tx') ensures d !in DeviceLocks(sys.txs[u]) { assert DeviceFreeFor(sys, t, d); }
      case _ =>
    }
  }

  lemma BeginStepKeeps(s: Settings, sys: Sys, l: Step)
    requires SysInv(s, sys) && Enabled(s, sys, l)
    requires l.BeginJob? || l.BeginReconcile? || l.BeginBeat? || l.BeginCreate? || l.BeginSweep?
    ensures SysInv(s, Apply(s, sys, l))
  {
    BeginTxKeeps(s, sys, l);
    forall u | u in sys.txs && u != l.t ensures Apart(Apply(s, sys, l).txs[l.t], sys.txs[u]) {
      BeginLocks(s, sys, l, u);
    }
    WithKeeps(s, sys, l.t, Apply(s, sys, l).txs[l.t]);
  }
}
