/** The one property that needs atomic transactions: a busy device has an active job. */
module BusyDevices {
  import opened Domain
  import opened Configuration
  import opened Services
  import opened DatabaseInvariant
  import opened ReconcileOrder
  import opened ReadCommitted
  import opened Commits
  import opened Interleaving

  /** Each committed row is the old one or the pending one, on the same device, and active only if it was. */
  lemma CommittedRow(s: Settings, db: Db, tx: Tx, j: JobId)
    requires tx.JobTx? && Refs(db) && JobTxInv(s, db, tx) && tx.pc.Boundary? && tx.todo == []
    requires j in CommittedDb(db, tx).jobs
    ensures j in db.jobs
    ensures var job' := CommittedDb(db, tx).jobs[j];
      && job'.device == db.jobs[j].device
      && (job'.status.Active() ==> db.jobs[j].status.Active())
      && job' == if j in tx.jobW then tx.jobW[j] else db.jobs[j]
  {
    FinishedTx(s, db, tx);
  }

  lemma CommittedRows(s: Settings, db: Db, tx: Tx)
    requires tx.JobTx? && Refs(db) && JobTxInv(s, db, tx) && tx.pc.Boundary? && tx.todo == []
    ensures var jobs' := CommittedDb(db, tx).jobs;
      && jobs'.Keys == db.jobs.Keys
      && (forall k :: k in db.jobs ==> jobs'[k].device == db.jobs[k].device)
      && (forall k :: k in db.jobs && jobs'[k].status.Active() ==> db.jobs[k].status.Active())
      && (forall k :: k in tx.jobW ==> k in db.jobs && db.jobs[k].status.Active() && jobs'[k] == tx.jobW[k])
  {
    FinishedTx(s, db, tx);
    var jobs' := CommittedDb(db, tx).jobs;
    assert jobs'.Keys == db.jobs.Keys + tx.jobW.Keys;
    forall k | k in jobs'
      ensures k in db.jobs && jobs'[k].device == db.jobs[k].device
      ensures jobs'[k].status.Active() ==> db.jobs[k].status.Active()
    {
      CommittedRow(s, db, tx, k);
    }
  }

  lemma Vacant(s: Settings, db: Db, tx: Tx, j: JobId)
    requires tx.JobTx? && Refs(db) && JobTxInv(s, db, tx) && tx.pc.Boundary? && tx.todo == [] && Exclusive(db.jobs)
    requires j in tx.jobW && tx.jobW[j].status.Terminal()
    ensures j in db.jobs && !HasActiveJob(CommittedDb(db, tx).jobs, db.jobs[j].device)
  {
    CommittedRows(s, db, tx);
    Vacated(db.jobs, CommittedDb(db, tx).jobs, j);
  }

  /** The transaction has updated the device of each job it ended, unless that device is not shown busy. */
  ghost predicate CoversBusy(db: Db, tx: Tx)
    requires tx.JobTx?
  {
    forall j :: j in tx.jobW && tx.jobW[j].status.Terminal() && tx.jobW[j].device in db.devices ==>
      tx.jobW[j].device in tx.devW || !db.devices[tx.jobW[j].device].status.Busy?
  }

  lemma JobCommitKeepsBusyHeld(s: Settings, db: Db, tx: Tx)
    requires tx.JobTx? && Refs(db) && Exclusive(db.jobs) && BusyHeld(db)
    requires JobTxInv(s, db, tx) && tx.pc.Boundary? && tx.todo == []
    ensures BusyHeld(CommittedDb(db, tx)) <==> CoversBusy(db, tx)
  {
    var db' := CommittedDb(db, tx);
    if !CoversBusy(db, tx) {
      var j :| j in tx.jobW && tx.jobW[j].status.Terminal() && tx.jobW[j].device in db.devices
        && tx.jobW[j].device !in tx.devW && db.devices[tx.jobW[j].device].status.Busy?;
      Vacant(s, db, tx, j);
      FinishedTx(s, db, tx);
      assert db'.devices[db.jobs[j].device].status.Busy?;
    } else {
      forall d | d in db'.devices && db'.devices[d].status.Busy? ensures HasActiveJob(db'.jobs, d) {
        StillHeld(s, db, tx, d);
      }
    }
  }

  lemma BeatCommitKeepsBusyHeld(db: Db, tx: Tx)
    requires tx.BeatTx? && tx.seen.Some? && BusyHeld(db)
    ensures BusyHeld(CommittedDb(db, tx)) <==> (tx.seen.value.Busy? ==> HasActiveJob(db.jobs, tx.device))
  {
    var db' := CommittedDb(db, tx);
    assert db'.devices[tx.device].status == tx.seen.value;
    assert forall d :: d in db'.devices && d != tx.device ==> d in db.devices && db'.devices[d] == db.devices[d];
    assert forall d :: HasActiveJob(db'.jobs, d) <==> HasActiveJob(db.jobs, d);
  }

  lemma SweepCommitKeepsBusyHeld(db: Db, tx: Tx)
    requires tx.SweepTx? && BusyHeld(db)
    ensures BusyHeld(CommittedDb(db, tx))
  {
  }

  /** What a step must meet: a committing job transaction has updated the device of each job it ended, unless that
      device is not shown busy; a committing heartbeat that has seen an active job still sees one. */
  ghost predicate Careful(sys: Sys, l: Step) {
    l.Commit? && l.t in sys.txs ==>
      var tx := sys.txs[l.t];
      && (tx.JobTx? ==> CoversBusy(sys.db, tx))
      && (tx.BeatTx? ==> tx.seen == Some(Busy) ==> HasActiveJob(sys.db.jobs, tx.device))
  }

  /** `Busy` implies an active job is kept by a step, whatever its kind, if and only if the step meets its condition. */
  lemma BusyHeldExactly(s: Settings, sys: Sys, l: Step)
    requires SysInv(s, sys) && Enabled(s, sys, l) && BusyHeld(sys.db)
    ensures BusyHeld(Apply(s, sys, l).db) <==> Careful(sys, l)
  {
    if l.Commit? {
      var tx := sys.txs[l.t];
      assert TxInv(s, sys.db, tx);
      if tx.JobTx? {
        JobCommitKeepsBusyHeld(s, sys.db, tx);
      } else if tx.BeatTx? {
        BeatCommitKeepsBusyHeld(sys.db, tx);
      } else {
        SweepCommitKeepsBusyHeld(sys.db, tx);
      }
    } else if l.CommitCreate? {
      CreateKeepsBusyHeld(s, sys, l.t, l.run, l.ids);
    } else if l.InsertDevice? {
      InsertKeepsBusyHeld(sys.db, l.device, l.row);
    }
  }

  lemma CreateKeepsBusyHeld(s: Settings, sys: Sys, t: TxId, run: RunId, ids: map<DeviceId, JobId>)
    requires SysInv(s, sys) && Enabled(s, sys, CommitCreate(t, run, ids)) && BusyHeld(sys.db)
    ensures BusyHeld(CreatedDb(sys.db, sys.txs[t], run, ids))
  {
    assert TxInv(s, sys.db, sys.txs[t]);
    CreateCommitAdds(s, sys.db, sys.txs[t], run, ids);
    AddsRunKeepsBusyHeld(sys.db, CreatedDb(sys.db, sys.txs[t], run, ids), sys.txs[t].chosen, run, ids);
  }

  lemma InsertKeepsBusyHeld(db: Db, d: DeviceId, row: Device)
    requires BusyHeld(db) && row.status.Online?
    ensures BusyHeld(db.(devices := db.devices[d := row]))
  {
  }

  ghost predicate AllBusyHeld(states: seq<Sys>) {
    forall k :: 0 <= k < |states| ==> BusyHeld(states[k].db)
  }

  ghost predicate AllCareful(states: seq<Sys>, steps: seq<Step>) {
    forall k :: 0 <= k < |steps| && k < |states| ==> Careful(states[k], steps[k])
  }

  lemma StepOfSchedule(s: Settings, states: seq<Sys>, steps: seq<Step>, k: nat)
    requires Schedule(s, states, steps) && SysInv(s, states[0]) && k < |steps|
    ensures BusyHeld(states[k].db) ==> (BusyHeld(states[k + 1].db) <==> Careful(states[k], steps[k]))
  {
    ScheduleKeepsSysInv(s, states, steps, k);
    if BusyHeld(states[k].db) {
      assert Taken(s, states, steps, k);
      BusyHeldExactly(s, states[k], steps[k]);
    }
  }

  lemma {:induction false} CarefulKeeps(s: Settings, states: seq<Sys>, steps: seq<Step>, n: nat)
    requires Schedule(s, states, steps) && SysInv(s, states[0]) && BusyHeld(states[0].db) && n <= |steps|
    requires AllCareful(states, steps)
    ensures BusyHeld(states[n].db)
  {
    if n > 0 {
      CarefulKeeps(s, states, steps, n - 1);
      StepOfSchedule(s, states, steps, n - 1);
      assert Careful(states[n - 1], steps[n - 1]);
    }
  }

  lemma BusyHeldNeedsCare(s: Settings, states: seq<Sys>, steps: seq<Step>, n: nat)
    requires Schedule(s, states, steps) && SysInv(s, states[0]) && AllBusyHeld(states) && n < |steps|
    ensures Careful(states[n], steps[n])
  {
    assert BusyHeld(states[n].db) && BusyHeld(states[n + 1].db);
    StepOfSchedule(s, states, steps, n);
  }

  /** In every schedule a busy device has an active job at every moment if and only if every step of the schedule
      meets its condition. */
  lemma AlwaysBusyHeldExactly(s: Settings, states: seq<Sys>, steps: seq<Step>)
    requires Schedule(s, states, steps) && SysInv(s, states[0]) && BusyHeld(states[0].db)
    ensures AllBusyHeld(states) <==> AllCareful(states, steps)
  {
    if AllCareful(states, steps) {
      forall k | 0 <= k < |states| ensures BusyHeld(states[k].db) { CarefulKeeps(s, states, steps, k); }
    }
    if AllBusyHeld(states) {
      forall k | 0 <= k < |steps| ensures Careful(states[k], steps[k]) { BusyHeldNeedsCare(s, states, steps, k); }
    }
  }

  lemma StillHeld(s: Settings, db: Db, tx: Tx, d: DeviceId)
    requires tx.JobTx? && Refs(db) && BusyHeld(db) && CoversBusy(db, tx)
    requires JobTxInv(s, db, tx) && tx.pc.Boundary? && tx.todo == []
    requires d in db.devices && d !in tx.devW && db.devices[d].status.Busy?
    ensures HasActiveJob(CommittedDb(db, tx).jobs, d)
  {
    var j :| j in db.jobs && db.jobs[j].device == d && db.jobs[j].status.Active();
    CommittedRow(s, db, tx, j);
    assert j in CommittedDb(db, tx).jobs;
  }
}
