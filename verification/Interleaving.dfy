/** What holds at every commit of every interleaving. */
module Interleaving {
  import opened Domain
  import opened Configuration
  import opened Aggregation
  import opened Services
  import opened DatabaseInvariant
  import opened ReadCommitted
  import opened PendingWrites
  import opened Commits

  ghost predicate Initial(sys: Sys) {
    sys.db.devices == map[] && sys.db.jobs == map[] && sys.db.runs == map[] && sys.txs == map[]
  }

  /** Step `i` is enabled and leads to the next state. */
  ghost predicate Taken(s: Settings, states: seq<Sys>, steps: seq<Step>, i: nat)
    requires |states| == |steps| + 1 && i < |steps|
  {
    Enabled(s, states[i], steps[i]) && states[i + 1] == Apply(s, states[i], steps[i])
  }

  ghost predicate Schedule(s: Settings, states: seq<Sys>, steps: seq<Step>) {
    |states| == |steps| + 1 && forall i :: 0 <= i < |steps| ==> Taken(s, states, steps, i)
  }

  lemma {:induction false} ScheduleKeepsSysInv(s: Settings, states: seq<Sys>, steps: seq<Step>, k: nat)
    requires Schedule(s, states, steps) && SysInv(s, states[0]) && k <= |steps|
    ensures SysInv(s, states[k])
  {
    if k != 0 {
      ScheduleKeepsSysInv(s, states, steps, k - 1);
      assert Taken(s, states, steps, k - 1);
      StepKeepsSysInv(s, states[k - 1], steps[k - 1]);
    }
  }

  /** Under any interleaving the committed status of every run is the aggregate of its committed job statuses; in
      particular a run whose jobs are all terminal is itself terminal, whoever finished last. */
  lemma InterleavedAggregation(s: Settings, states: seq<Sys>, steps: seq<Step>, k: nat, r: RunId)
    requires s.Valid() && Schedule(s, states, steps) && Initial(states[0]) && k <= |steps|
    requires r in states[k].db.runs
    ensures var db := states[k].db;
      && HasJob(db.jobs, r)
      && db.runs[r].status == RunStatusOf(db.jobs, r)
      && ((forall j :: InRun(db.jobs, j, r) ==> db.jobs[j].status.Terminal()) <==> db.runs[r].status.Terminal())
  {
    ScheduleKeepsSysInv(s, states, steps, k);
    var db := states[k].db;
    assert RunOk(db.runs[r], db.jobs, r);
    if forall j :: InRun(db.jobs, j, r) ==> db.jobs[j].status.Terminal() {
      assert !AnyActive(db.jobs, r);
    }
  }

  /** Under any interleaving no device has two active jobs, a device shown online has none, and open reservations
      hold disjoint sets of devices, none of them with an active job. */
  lemma InterleavedReservation(s: Settings, states: seq<Sys>, steps: seq<Step>, k: nat, t: TxId, u: TxId)
    requires s.Valid() && Schedule(s, states, steps) && Initial(states[0]) && k <= |steps|
    ensures Exclusive(states[k].db.jobs) && OnlineFree(states[k].db)
    ensures t in states[k].txs && u in states[k].txs && t != u
            && states[k].txs[t].CreateTx? && states[k].txs[u].CreateTx? ==>
      states[k].txs[t].chosen !! states[k].txs[u].chosen
    ensures t in states[k].txs && states[k].txs[t].CreateTx? ==>
      forall d :: d in states[k].txs[t].chosen ==> d in states[k].db.devices && !HasActiveJob(states[k].db.jobs, d)
  {
    ScheduleKeepsSysInv(s, states, steps, k);
    var sys := states[k];
    if t in sys.txs && u in sys.txs && t != u {
      assert Apart(sys.txs[t], sys.txs[u]);
    }
    if t in sys.txs && sys.txs[t].CreateTx? {
      var tx := sys.txs[t];
      assert TxInv(s, sys.db, tx);
      assert forall d :: d in tx.chosen ==> d in Selected(s, sys.db, tx.request, tx.chosen, tx.at);
    }
  }

  /** The job and run rows of `db'` are those after the atomic transaction of `tx` on `db`: for a claim, retry or
      finish that of its job, for a reconciliation the whole loop. */
  ghost predicate Refines(s: Settings, db: Db, db': Db, tx: Tx) {
    && Refs(db) && tx.JobTx?
    && var atomic := PerformAll(s, db, tx.a, tx.done, tx.now);
       && db'.jobs == atomic.jobs && db'.runs == atomic.runs
       && (tx.a.Expire? ==> atomic == ExpireAll(s, db, tx.done, tx.now))
       && (|tx.done| == 1 ==> atomic == Perform(s, db, tx.a, tx.done[0], tx.now))
  }

  lemma CommitRefines(s: Settings, sys: Sys, t: TxId, sys': Sys)
    requires SysInv(s, sys) && Enabled(s, sys, Commit(t)) && sys.txs[t].JobTx? && sys' == Apply(s, sys, Commit(t))
    ensures Refines(s, sys.db, sys'.db, sys.txs[t])
  {
    assert TxInv(s, sys.db, sys.txs[t]);
    CommitRefinesAtomicStep(s, sys.db, sys.txs[t]);
  }

  /** In every schedule a committing job transaction performs the atomic transaction on the rows committed then. */
  lemma InterleavedRefinement(s: Settings, states: seq<Sys>, steps: seq<Step>, k: nat)
    requires s.Valid() && Schedule(s, states, steps) && Initial(states[0]) && k < |steps|
    requires steps[k].Commit? && steps[k].t in states[k].txs && states[k].txs[steps[k].t].JobTx?
    ensures Refines(s, states[k].db, states[k + 1].db, states[k].txs[steps[k].t])
  {
    ScheduleKeepsSysInv(s, states, steps, k);
    assert Taken(s, states, steps, k);
    CommitRefines(s, states[k], steps[k].t, states[k + 1]);
  }

  /** The rows that a finished job transaction is about to write are not terminal. */
  lemma WritesNoTerminalRow(s: Settings, db: Db, tx: Tx)
    requires tx.JobTx? && Refs(db) && RunsOk(db) && JobTxInv(s, db, tx) && tx.pc.Boundary? && tx.todo == []
    ensures forall j :: j in tx.jobW ==> j in db.jobs && !db.jobs[j].status.Terminal()
    ensures forall r :: r in tx.runW ==> r in db.runs && !db.runs[r].status.Terminal()
  {
    FinishedTx(s, db, tx);
    forall r | r in tx.runW
      ensures r in db.runs && !db.runs[r].status.Terminal()
    {
      var j :| j in tx.done && db.jobs[j].run == r;
      ActiveInRun(db, j);
    }
  }

  /** Committed terminal rows of jobs and runs are never written again. */
  lemma TerminalFrozen(s: Settings, sys: Sys, l: Step)
    requires SysInv(s, sys) && Enabled(s, sys, l)
    ensures var db, db' := sys.db, Apply(s, sys, l).db;
      && (forall j :: j in db.jobs && db.jobs[j].status.Terminal() ==> j in db'.jobs && db'.jobs[j] == db.jobs[j])
      && (forall r :: r in db.runs && db.runs[r].status.Terminal() ==> r in db'.runs && db'.runs[r] == db.runs[r])
  {
    if l.Commit? && sys.txs[l.t].JobTx? {
      assert TxInv(s, sys.db, sys.txs[l.t]);
      WritesNoTerminalRow(s, sys.db, sys.txs[l.t]);
    } else if l.CommitCreate? {
      assert TxInv(s, sys.db, sys.txs[l.t]);
      CreateCommitAdds(s, sys.db, sys.txs[l.t], l.run, l.ids);
    }
  }

  lemma CommitMovesNoJob(s: Settings, db: Db, tx: Tx, j: JobId, r: RunId)
    requires tx.JobTx? && Refs(db) && JobTxInv(s, db, tx) && tx.pc.Boundary? && tx.todo == []
    ensures InRun(CommittedDb(db, tx).jobs, j, r) ==> InRun(db.jobs, j, r)
  {
    FinishedTx(s, db, tx);
  }

  lemma CreateMovesNoJob(s: Settings, db: Db, tx: Tx, run: RunId, ids: map<DeviceId, JobId>, j: JobId, r: RunId)
    requires tx.CreateTx? && Refs(db) && TxInv(s, db, tx) && FreshIds(db, run, ids) && tx.chosen <= ids.Keys
        && r in db.runs
    ensures InRun(CreatedDb(db, tx, run, ids).jobs, j, r) ==> InRun(db.jobs, j, r)
  {
    CreateCommitAdds(s, db, tx, run, ids);
  }

  /** No job ever joins a committed run. */
  lemma NoJobJoins(s: Settings, sys: Sys, l: Step, j: JobId, r: RunId)
    requires Refs(sys.db) && (forall t :: t in sys.txs ==> TxInv(s, sys.db, sys.txs[t])) && Enabled(s, sys, l)
        && r in sys.db.runs
    ensures InRun(Apply(s, sys, l).db.jobs, j, r) ==> InRun(sys.db.jobs, j, r)
  {
    if l.Commit? && sys.txs[l.t].JobTx? {
      CommitMovesNoJob(s, sys.db, sys.txs[l.t], j, r);
    } else if l.CommitCreate? {
      CreateMovesNoJob(s, sys.db, sys.txs[l.t], l.run, l.ids, j, r);
    }
  }

  lemma StepSettled(s: Settings, sys: Sys, l: Step, r: RunId, db': Db)
    requires SysInv(s, sys) && Enabled(s, sys, l) && db' == Apply(s, sys, l).db
    requires r in sys.db.runs && sys.db.runs[r].status.Terminal()
    ensures r in db'.runs && db'.runs[r] == sys.db.runs[r]
    ensures SameRun(sys.db.jobs, db'.jobs, r)
  {
    RunFinality(sys.db.runs[r], sys.db.jobs, r);
    TerminalFrozen(s, sys, l);
    forall j
      ensures InRun(db'.jobs, j, r) ==> InRun(sys.db.jobs, j, r)
    {
      NoJobJoins(s, sys, l, j, r);
    }
  }

  lemma StatesSettled(s: Settings, states: seq<Sys>, steps: seq<Step>, i: nat, r: RunId)
    requires Schedule(s, states, steps) && SysInv(s, states[0]) && i < |steps|
    ensures Settled(states[i].db, states[i + 1].db, r)
  {
    ScheduleKeepsSysInv(s, states, steps, i);
    if r in states[i].db.runs && states[i].db.runs[r].status.Terminal() {
      assert Taken(s, states, steps, i);
      StepSettled(s, states[i], steps[i], r, states[i + 1].db);
    }
  }

  ghost function CommittedDbs(states: seq<Sys>): seq<Db> {
    seq(|states|, k requires 0 <= k < |states| => states[k].db)
  }

  /** Once a run is committed as terminal, no later commit changes it or any of its jobs: reads of the run and of its
      jobs by separate statements or requests agree under READ COMMITTED too. */
  lemma InterleavedSettled(s: Settings, states: seq<Sys>, steps: seq<Step>, i: nat, k: nat, r: RunId)
    requires Schedule(s, states, steps) && SysInv(s, states[0]) && i <= k <= |steps|
    ensures Settled(states[i].db, states[k].db, r)
    ensures r in states[i].db.runs && states[i].db.runs[r].status.Terminal() ==>
      forall j :: InRun(states[k].db.jobs, j, r) ==> states[k].db.jobs[j].status.Terminal()
  {
    var dbs := CommittedDbs(states);
    forall m | 0 <= m < |dbs| - 1
      ensures Settled(dbs[m], dbs[m + 1], r)
    {
      StatesSettled(s, states, steps, m, r);
    }
    SettledChain(dbs, i, k, r);
    ScheduleKeepsSysInv(s, states, steps, i);
    if r in states[i].db.runs && states[i].db.runs[r].status.Terminal() {
      RunFinality(states[i].db.runs[r], states[i].db.jobs, r);
    }
  }

  lemma ActiveInRun(db: Db, j: JobId)
    requires Refs(db) && RunsOk(db) && j in db.jobs && db.jobs[j].status.Active()
    ensures !db.runs[db.jobs[j].run].status.Terminal()
  {
    assert InRun(db.jobs, j, db.jobs[j].run) && RunOk(db.runs[db.jobs[j].run], db.jobs, db.jobs[j].run);
  }
}
