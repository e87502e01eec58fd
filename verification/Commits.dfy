/** A commit is the atomic step of the service, and it respects every transaction still running. */
module Commits {
  import opened Domain
  import opened Identifiers
  import opened Configuration
  import opened JobMachine
  import opened Aggregation
  import opened Services
  import opened DatabaseInvariant
  import opened ReadCommitted
  import opened PendingWrites
  import opened RowLocks

  /** What a finished job transaction holds. */
  lemma FinishedTx(s: Settings, db: Db, tx: Tx)
    requires tx.JobTx? && Refs(db) && JobTxInv(s, db, tx) && tx.pc.Boundary? && tx.todo == []
    ensures AllAccepted(db.jobs, tx.a, tx.now, tx.done) && NoDuplicates(tx.done)
    ensures tx.jobW == JobWrites(s, db.jobs, tx.a, tx.now, tx.done)
    ensures JobLocks(tx) == tx.jobW.Keys
    ensures forall j :: j in tx.jobW ==>
      && j in db.jobs && db.jobs[j].status.Active() && db.jobs[j].run in tx.runs
      && tx.jobW[j].run == db.jobs[j].run && tx.jobW[j].device == db.jobs[j].device
  {
    assert tx.done + tx.todo == tx.done;
    forall j | j in tx.jobW
      ensures db.jobs[j].status.Active() && tx.jobW[j].run == db.jobs[j].run && tx.jobW[j].device == db.jobs[j].device
    {
    }
  }

  /** The commit of a job transaction is the atomic transaction of `Services` on the job and run rows committed at
      that moment: aggregation under the run lock loses no concurrent finisher. */
  lemma CommitRefinesAtomicStep(s: Settings, db: Db, tx: Tx)
    requires tx.JobTx? && Refs(db) && JobTxInv(s, db, tx) && tx.pc.Boundary? && tx.todo == []
    ensures var db', atomic := CommittedDb(db, tx), PerformAll(s, db, tx.a, tx.done, tx.now);
      db'.jobs == atomic.jobs && db'.runs == atomic.runs
    ensures tx.a.Expire? ==> PerformAll(s, db, tx.a, tx.done, tx.now) == ExpireAll(s, db, tx.done, tx.now)
    ensures |tx.done| == 1 ==> PerformAll(s, db, tx.a, tx.done, tx.now) == Perform(s, db, tx.a, tx.done[0], tx.now)
  {
    FinishedTx(s, db, tx);
    WritesArePerformed(s, db, tx.a, tx.done, tx.now);
    PerformAllIsExpireAll(s, db, tx.done, tx.now);
    PerformAllOne(s, db, tx.a, tx.done, tx.now);
  }

  lemma {:induction false} PerformAllIsExpireAll(s: Settings, db: Db, ids: seq<JobId>, now: Time)
    requires Refs(db)
    ensures PerformAll(s, db, Expire, ids, now) == ExpireAll(s, db, ids, now)
    decreases |ids|
  {
    if ids != [] { PerformAllIsExpireAll(s, db, ids[..|ids| - 1], now); }
  }

  lemma PerformAllOne(s: Settings, db: Db, a: Action, ids: seq<JobId>, now: Time)
    requires Refs(db)
    ensures |ids| == 1 ==> PerformAll(s, db, a, ids, now) == Perform(s, db, a, ids[0], now)
  {
    if |ids| == 1 { assert PerformAll(s, db, a, ids[..0], now) == db; }
  }

  /** A released device was held by a job that this transaction has ended. */
  lemma ReleasedJobEnds(s: Settings, db: Db, tx: Tx, j: JobId)
    requires tx.JobTx? && Refs(db) && JobTxInv(s, db, tx) && tx.pc.Boundary? && tx.todo == [] && Exclusive(db.jobs)
    requires j in db.jobs && db.jobs[j].status.Active() && db.jobs[j].device in tx.devW
    ensures j in tx.jobW && tx.jobW[j].status.Terminal()
  {
    FinishedTx(s, db, tx);
    var k :| k in tx.jobW && tx.jobW[k].device == db.jobs[j].device && tx.jobW[k].status.Terminal();
    assert db.jobs[k].status.Active() && db.jobs[k].device == db.jobs[j].device;
  }

  lemma JobCommitOnlineFree(s: Settings, db: Db, tx: Tx)
    requires tx.JobTx? && Refs(db) && JobTxInv(s, db, tx) && tx.pc.Boundary? && tx.todo == []
    requires Exclusive(db.jobs) && OnlineFree(db)
    ensures OnlineFree(CommittedDb(db, tx))
  {
    FinishedTx(s, db, tx);
    var db' := CommittedDb(db, tx);
    forall j | j in db'.jobs && db'.jobs[j].status.Active() && db'.jobs[j].device in db'.devices
      ensures !db'.devices[db'.jobs[j].device].status.Online?
    {
      assert j in db.jobs && db.jobs[j].status.Active() && db.jobs[j].device == db'.jobs[j].device;
      if db.jobs[j].device in tx.devW {
        ReleasedJobEnds(s, db, tx, j);
      }
    }
  }

  lemma SameTables(db: Db, db': Db)
    requires db'.jobs == db.jobs && db'.runs == db.runs
    ensures RunsOk(db') == RunsOk(db)
  {
  }

  lemma JobCommitTables(s: Settings, db: Db, tx: Tx)
    requires tx.JobTx? && s.Valid() && Refs(db) && Exclusive(db.jobs) && RunsOk(db)
    requires JobTxInv(s, db, tx) && tx.pc.Boundary? && tx.todo == []
    ensures Exclusive(CommittedDb(db, tx).jobs) && RunsOk(CommittedDb(db, tx))
  {
    CommitRefinesAtomicStep(s, db, tx);
    PerformAllKeeps(s, db, tx.a, tx.done, tx.now);
    SameTables(PerformAll(s, db, tx.a, tx.done, tx.now), CommittedDb(db, tx));
  }

  lemma JobCommitRefs(s: Settings, db: Db, tx: Tx)
    requires tx.JobTx? && Refs(db) && JobTxInv(s, db, tx) && tx.pc.Boundary? && tx.todo == []
    ensures Refs(CommittedDb(db, tx))
  {
    CommitRefinesAtomicStep(s, db, tx);
    CommittedDevices(s, db, tx);
    FinishedTx(s, db, tx);
  }

  lemma JobCommitCore(s: Settings, db: Db, tx: Tx)
    requires tx.JobTx? && s.Valid() && CoreInv(db) && JobTxInv(s, db, tx) && tx.pc.Boundary? && tx.todo == []
    ensures CoreInv(CommittedDb(db, tx))
  {
    JobCommitTables(s, db, tx);
    JobCommitOnlineFree(s, db, tx);
    JobCommitRefs(s, db, tx);
  }

  lemma CommittedDevices(s: Settings, db: Db, tx: Tx)
    requires tx.JobTx? && Refs(db) && JobTxInv(s, db, tx) && tx.pc.Boundary? && tx.todo == []
    ensures CommittedDb(db, tx).devices.Keys == db.devices.Keys
  {
    FinishedTx(s, db, tx);
  }

  /** A job transaction touches only rows it has locked, and siblings of nobody else's runs. */
  lemma JobCommitFreezes(s: Settings, db: Db, tx: Tx, other: Tx)
    requires tx.JobTx? && Refs(db) && JobTxInv(s, db, tx) && tx.pc.Boundary? && tx.todo == []
    requires other.JobTx? && Apart(tx, other)
    ensures Frozen(db, CommittedDb(db, tx), other)
  {
    FinishedTx(s, db, tx);
    var db' := CommittedDb(db, tx);
    forall r | r in other.runs && r in db.runs
      ensures r in db'.runs && db'.runs[r] == db.runs[r] && SameRun(db.jobs, db'.jobs, r)
    {
      assert r !in tx.runs;
    }
    forall j | j in other.done + other.todo && j in db.jobs ensures j in db'.jobs && db'.jobs[j] == db.jobs[j] {
      assert j in JobLocks(other);
    }
  }

  lemma JobCommitRespects(s: Settings, db: Db, tx: Tx, other: Tx)
    requires tx.JobTx? && Refs(db) && JobTxInv(s, db, tx) && tx.pc.Boundary? && tx.todo == []
    requires TxInv(s, db, other) && Apart(tx, other)
    ensures Respects(db, CommittedDb(db, tx), other)
  {
    var db' := CommittedDb(db, tx);
    match other
    case JobTx(_, _, _, _, _, _, _, _, _) => JobCommitFreezes(s, db, tx, other);
    case BeatTx(d, _, _) =>
      FinishedTx(s, db, tx);
      if HasActiveJob(db'.jobs, d) {
        var j :| j in db'.jobs && db'.jobs[j].device == d && db'.jobs[j].status.Active();
        assert j in db.jobs && db.jobs[j].device == d && db.jobs[j].status.Active();
      }
    case CreateTx(_, chosen, _) =>
      assert forall d :: d in chosen ==> d !in tx.devW;
    case SweepTx(_) =>
  }

  lemma DeviceCommitRespects(s: Settings, db: Db, tx: Tx, other: Tx)
    requires tx.BeatTx? || tx.SweepTx?
    requires Refs(db) && TxInv(s, db, tx) && TxInv(s, db, other) && Apart(tx, other)
    ensures Respects(db, CommittedDb(db, tx), other)
  {
  }

  lemma DeviceCommitCore(s: Settings, db: Db, tx: Tx)
    requires tx.BeatTx? || tx.SweepTx?
    requires CoreInv(db) && TxInv(s, db, tx) && (tx.BeatTx? ==> tx.seen.Some?)
    ensures CoreInv(CommittedDb(db, tx))
  {
    var db' := CommittedDb(db, tx);
    SameTables(db, db');
    if tx.BeatTx? && tx.seen.value.Online? {
      assert !HasActiveJob(db.jobs, tx.device);
    }
  }

  /** The commit of a reservation is `create_run` on the rows committed at that moment. */
  lemma CreateCommitRefines(s: Settings, db: Db, tx: Tx, run: RunId, ids: map<DeviceId, JobId>)
    requires tx.CreateTx? && Refs(db) && TxInv(s, db, tx) && FreshIds(db, run, ids) && tx.chosen <= ids.Keys
    ensures CreateRun(s, db, tx.request, tx.chosen, run, ids, tx.at) == Ok(CreatedDb(db, tx, run, ids))
  {
  }

  lemma CreateCommitAdds(s: Settings, db: Db, tx: Tx, run: RunId, ids: map<DeviceId, JobId>)
    requires tx.CreateTx? && Refs(db) && TxInv(s, db, tx) && FreshIds(db, run, ids) && tx.chosen <= ids.Keys
    ensures AddsRun(db, CreatedDb(db, tx, run, ids), tx.chosen, run, ids)
  {
    CreateCommitRefines(s, db, tx, run, ids);
    CreateRunAddsRun(s, db, tx.request, tx.chosen, run, ids, tx.at);
  }

  lemma CreateCommitRespects(s: Settings, db: Db, db': Db, tx: Tx, run: RunId, ids: map<DeviceId, JobId>, other: Tx)
    requires tx.CreateTx? && Refs(db) && AddsRun(db, db', tx.chosen, run, ids) && db'.suites == db.suites
    requires TxInv(s, db, other) && Apart(tx, other)
    ensures Respects(db, db', other)
  {
    match other
    case JobTx(_, _, _, _, _, _, _, _, _) =>
      forall r | r in other.runs && r in db.runs ensures SameRun(db.jobs, db'.jobs, r) {
      }
    case BeatTx(d, _, _) =>
      if HasActiveJob(db'.jobs, d) {
        var j :| j in db'.jobs && db'.jobs[j].device == d && db'.jobs[j].status.Active();
        assert d !in tx.chosen;
        assert j in db.jobs;
      }
    case CreateTx(_, chosen, _) =>
    case SweepTx(_) =>
  }

  lemma RemovalKeeps(s: Settings, sys: Sys, t: TxId, db': Db)
    requires SysInv(s, sys) && t in sys.txs && CoreInv(db')
    requires forall u :: u in sys.txs && u != t ==> Respects(sys.db, db', sys.txs[u])
    ensures SysInv(s, Sys(db', sys.txs - {t}))
  {
    forall u | u in sys.txs - {t} ensures TxInv(s, db', (sys.txs - {t})[u]) {
      RespectedKept(s, sys.db, db', sys.txs[u]);
    }
  }

  lemma CommitKeeps(s: Settings, sys: Sys, t: TxId)
    requires SysInv(s, sys) && Enabled(s, sys, Commit(t))
    ensures SysInv(s, Apply(s, sys, Commit(t)))
  {
    var tx, db' := sys.txs[t], CommittedDb(sys.db, sys.txs[t]);
    assert TxInv(s, sys.db, tx);
    if tx.JobTx? { JobCommitCore(s, sys.db, tx); } else { DeviceCommitCore(s, sys.db, tx); }
    forall u | u in sys.txs && u != t ensures Respects(sys.db, db', sys.txs[u]) {
      assert Apart(tx, sys.txs[u]) && TxInv(s, sys.db, sys.txs[u]);
      if tx.JobTx? {
        JobCommitRespects(s, sys.db, tx, sys.txs[u]);
      } else {
        DeviceCommitRespects(s, sys.db, tx, sys.txs[u]);
      }
    }
    RemovalKeeps(s, sys, t, db');
  }

  lemma CommitCreateKeeps(s: Settings, sys: Sys, t: TxId, run: RunId, ids: map<DeviceId, JobId>)
    requires SysInv(s, sys) && Enabled(s, sys, CommitCreate(t, run, ids))
    ensures SysInv(s, Apply(s, sys, CommitCreate(t, run, ids)))
  {
    var tx, db' := sys.txs[t], CreatedDb(sys.db, sys.txs[t], run, ids);
    assert TxInv(s, sys.db, tx);
    CreateCommitAdds(s, sys.db, tx, run, ids);
    AddsRunKeepsRunsOk(sys.db, db', tx.chosen, run, ids);
    AddsRunKeepsExclusive(sys.db, db', tx.chosen, run, ids);
    forall u | u in sys.txs && u != t ensures Respects(sys.db, db', sys.txs[u]) {
      assert Apart(tx, sys.txs[u]) && TxInv(s, sys.db, sys.txs[u]);
      CreateCommitRespects(s, sys.db, db', tx, run, ids, sys.txs[u]);
    }
    RemovalKeeps(s, sys, t, db');
  }

  lemma InsertKeeps(s: Settings, sys: Sys, d: DeviceId, row: Device)
    requires SysInv(s, sys) && Enabled(s, sys, InsertDevice(d, row))
    ensures SysInv(s, Apply(s, sys, InsertDevice(d, row)))
  {
    var db' := sys.db.(devices := sys.db.devices[d := row]);
    SameTables(sys.db, db');
    forall u | u in sys.txs ensures TxInv(s, db', sys.txs[u]) {
      assert TxInv(s, sys.db, sys.txs[u]);
      InsertRespects(s, sys.db, db', d, row, sys.txs[u]);
      RespectedKept(s, sys.db, db', sys.txs[u]);
    }
  }

  lemma InsertRespects(s: Settings, db: Db, db': Db, d: DeviceId, row: Device, other: Tx)
    requires Refs(db) && d !in db.devices && db' == db.(devices := db.devices[d := row]) && TxInv(s, db, other)
    ensures Refs(db') && Respects(db, db', other)
  {
  }

  lemma AbortKeeps(s: Settings, sys: Sys, t: TxId)
    requires SysInv(s, sys) && Enabled(s, sys, Abort(t))
    ensures SysInv(s, Apply(s, sys, Abort(t)))
  {
    forall u | u in sys.txs ensures Respects(sys.db, sys.db, sys.txs[u]) { assert TxInv(s, sys.db, sys.txs[u]); }
    RemovalKeeps(s, sys, t, sys.db);
  }

  /** Every step of every transaction, and every abort, keeps the invariant. */
  lemma StepKeepsSysInv(s: Settings, sys: Sys, l: Step)
    requires SysInv(s, sys) && Enabled(s, sys, l)
    ensures SysInv(s, Apply(s, sys, l))
  {
    if l.Commit? {
      CommitKeeps(s, sys, l.t);
    } else if l.CommitCreate? {
      CommitCreateKeeps(s, sys, l.t, l.run, l.ids);
    } else if l.InsertDevice? {
      InsertKeeps(s, sys, l.device, l.row);
    } else if l.Abort? {
      AbortKeeps(s, sys, l.t);
    } else if l.BeginJob? || l.BeginReconcile? || l.BeginBeat? || l.BeginCreate? || l.BeginSweep? {
      BeginStepKeeps(s, sys, l);
    } else {
      LocalStepKeeps(s, sys, l);
    }
  }
}
