/** Worker executions in the interleaved layer: fencing, attempt accounting and the attempt budget hold at every
    commit of every interleaving. */
module LiveSchedules {
  import opened Domain
  import opened Configuration
  import opened JobMachine
  import opened Services
  import opened DatabaseInvariant
  import opened ReadCommitted
  import opened Commits
  import opened BusyDevices
  import P = Protocol
  import H = History

  /** The transactions, the live executions, and which open transaction ends which execution. */
  datatype World = World(sys: Sys, live: set<Claimed>, ending: map<TxId, Claimed>)

  datatype Move =
    | Statement(step: Step)
    | BeginClaim(t: TxId, j: JobId, task: TaskId, now: Time)
    | BeginEnd(t: TxId, c: Claimed, outcome: CallOutcome, elapsed: Time, now: Time)
    | Die(c: Claimed)

  ghost predicate ClaimOpen(sys: Sys, t: TxId) {
    t in sys.txs && sys.txs[t].JobTx? && sys.txs[t].a.Claim?
  }

  /** No live execution and no claim in progress has the task identifier. */
  ghost predicate TaskFree(w: World, task: TaskId) {
    && (forall c :: c in w.live ==> c.task != task)
    && (forall t :: ClaimOpen(w.sys, t) ==> w.sys.txs[t].a.task != task)
  }

  /** The step that a move performs on the transactions. */
  ghost function StepOf(s: Settings, w: World, m: Move): Option<Step>
    requires Refs(w.sys.db)
  {
    match m
    case Statement(l) => Some(l)
    case BeginClaim(t, j, task, now) =>
      if j in w.sys.db.jobs then Some(BeginJob(t, ClaimAction(s, w.sys.db, j, task), j, now)) else None
    case BeginEnd(t, c, outcome, elapsed, now) => Some(BeginJob(t, OutcomeAction(s, c, outcome, elapsed), c.job, now))
    case Die(_) => None
  }

  /** Claims and ends are begun by workers only; the rule on task identifiers is that of the atomic layer. */
  ghost predicate Possible(s: Settings, w: World, m: Move) {
    Refs(w.sys.db) &&
    var l := StepOf(s, w, m);
    && (l.Some? ==> Enabled(s, w.sys, l.value))
    && match m
       case Statement(l) => !l.BeginJob?
       case BeginClaim(_, j, task, _) => j in w.sys.db.jobs && TaskFree(w, task)
       case BeginEnd(_, c, _, _, _) => c in w.live
       case Die(c) => c in w.live
  }

  /** The claim that a committing claim transaction hands to its worker: the row is locked, so the number it has read
      is that of the committed row, plus one. */
  ghost function Handed(w: World, t: TxId): Claimed
    requires ClaimOpen(w.sys, t) && w.sys.txs[t].done != [] && w.sys.txs[t].done[0] in w.sys.db.jobs
  {
    var tx := w.sys.txs[t];
    Claimed(tx.a.task, tx.done[0], w.sys.db.jobs[tx.done[0]].attempts + 1, tx.a.timeout)
  }

  ghost predicate HandsOut(w: World, m: Move) {
    && m.Statement? && m.step.Commit? && ClaimOpen(w.sys, m.step.t)
    && w.sys.txs[m.step.t].done != [] && w.sys.txs[m.step.t].done[0] in w.sys.db.jobs
  }

  ghost function After(s: Settings, w: World, m: Move): World
    requires Possible(s, w, m)
  {
    var l := StepOf(s, w, m);
    var sys' := if l.Some? then Apply(s, w.sys, l.value) else w.sys;
    match m
    case Statement(Commit(t)) =>
      var ended := if t in w.ending then {w.ending[t]} else {};
      var handed := if HandsOut(w, m) then {Handed(w, t)} else {};
      World(sys', w.live - ended + handed, w.ending - {t})
    case Statement(Abort(t)) => World(sys', w.live, w.ending - {t})
    case BeginEnd(t, c, _, _, _) => World(sys', w.live, w.ending[t := c])
    case Die(c) => w.(live := w.live - {c})
    case _ => w.(sys := sys')
  }

  // ---------------------------------------------------------------- the invariant

  /** An open transaction is fenced on each of its rows, and on one row only unless it is the reconciler's. */
  ghost predicate TxFenced(s: Settings, db: Db, tx: Tx) {
    tx.JobTx? ==>
      && (!tx.a.Expire? ==> |tx.done + tx.todo| == 1)
      && (forall j :: j in tx.done + tx.todo && j in db.jobs ==> Fenced(s, tx.a, db.jobs[j]))
  }

  /** The transaction that ends execution `c` works on its job, and `c` holds the job's latest claim. */
  ghost predicate EndsClaim(db: Db, tx: Tx, c: Claimed) {
    && tx.JobTx? && (tx.a.Retry? || tx.a.Finish?) && tx.a.task == c.task && tx.done + tx.todo == [c.job]
    && H.Current(db.jobs, c)
  }

  ghost predicate EndOpen(sys: Sys, t: TxId) {
    t in sys.txs && sys.txs[t].JobTx? && (sys.txs[t].a.Retry? || sys.txs[t].a.Finish?)
  }

  ghost predicate Tasks(w: World) {
    && (forall c, e :: c in w.live && e in w.live && c != e ==> c.task != e.task)
    && (forall t, c :: ClaimOpen(w.sys, t) && c in w.live ==> w.sys.txs[t].a.task != c.task)
    && (forall t, u :: ClaimOpen(w.sys, t) && ClaimOpen(w.sys, u) && t != u ==>
          w.sys.txs[t].a.task != w.sys.txs[u].a.task)
  }

  ghost predicate WorldInv(s: Settings, w: World) {
    && SysInv(s, w.sys) && Shapes(s, w.sys.db) && Tasks(w)
    && (forall c :: c in w.live ==> P.Linked(w.sys.db.jobs, c))
    && (forall t :: t in w.sys.txs ==> TxFenced(s, w.sys.db, w.sys.txs[t]))
    && (forall t :: t in w.ending ==> t in w.sys.txs && EndsClaim(w.sys.db, w.sys.txs[t], w.ending[t]))
    && (forall t :: EndOpen(w.sys, t) ==> t in w.ending)
  }

  // ---------------------------------------------------------------- what a commit does to one job row

  /** Row `j` of the job table after a commit: moved by the action of the transaction if it is among its rows. */
  lemma CommittedJob(s: Settings, db: Db, tx: Tx, j: JobId)
    requires tx.JobTx? && Refs(db) && JobTxInv(s, db, tx) && tx.pc.Boundary? && tx.todo == [] && j in db.jobs
    ensures j in CommittedDb(db, tx).jobs
    ensures j in tx.done ==> Accepts(tx.a, db.jobs[j], tx.now)
    ensures CommittedDb(db, tx).jobs[j] == if j in tx.done then Effect(s, tx.a, db.jobs[j], tx.now) else db.jobs[j]
  {
    FinishedTx(s, db, tx);
  }

  lemma CommitKeepsShapes(s: Settings, db: Db, tx: Tx)
    requires tx.JobTx? && s.Valid() && Refs(db) && JobTxInv(s, db, tx) && tx.pc.Boundary? && tx.todo == []
    requires Shapes(s, db) && TxFenced(s, db, tx)
    ensures Shapes(s, CommittedDb(db, tx))
  {
    var db' := CommittedDb(db, tx);
    CommittedRows(s, db, tx);
    forall j | j in db'.jobs ensures Shape(s, db'.jobs[j]) {
      CommittedJob(s, db, tx, j);
      if j in tx.done {
        assert j in tx.done + tx.todo;
        EffectKeepsShape(s, tx.a, db.jobs[j], tx.now);
      }
    }
  }

  /** An execution stays linked when a transaction commits that does not claim under its task identifier. */
  lemma CommitKeepsLinked(s: Settings, db: Db, tx: Tx, c: Claimed)
    requires tx.JobTx? && Refs(db) && JobTxInv(s, db, tx) && tx.pc.Boundary? && tx.todo == []
    requires P.Linked(db.jobs, c) && (tx.a.Claim? ==> tx.a.task != c.task)
    ensures P.Linked(CommittedDb(db, tx).jobs, c)
  {
    CommittedJob(s, db, tx, c.job);
    if c.job in tx.done { P.EffectOwner(s, tx.a, db.jobs[c.job], tx.now); }
  }

  /** The execution that a claim hands out is linked. */
  lemma HandedIsLinked(s: Settings, db: Db, tx: Tx, c: Claimed)
    requires tx.JobTx? && tx.a.Claim? && Refs(db) && JobTxInv(s, db, tx) && tx.pc.Boundary? && tx.todo == []
    requires tx.done != [] && tx.done[0] in db.jobs
    requires c == Claimed(tx.a.task, tx.done[0], db.jobs[tx.done[0]].attempts + 1, tx.a.timeout)
    ensures P.Linked(CommittedDb(db, tx).jobs, c)
  {
    CommittedJob(s, db, tx, c.job);
    P.EffectOwner(s, tx.a, db.jobs[c.job], tx.now);
  }

  // ---------------------------------------------------------------- steps that move no job

  /** Any step but the commit of a job transaction leaves the job rows alone; a reservation adds queued ones. */
  lemma OtherStepJobs(s: Settings, sys: Sys, l: Step, j: JobId)
    requires Refs(sys.db) && (forall t :: t in sys.txs ==> TxInv(s, sys.db, sys.txs[t])) && Enabled(s, sys, l)
    requires !(l.Commit? && sys.txs[l.t].JobTx?)
    ensures j in sys.db.jobs ==> j in Apply(s, sys, l).db.jobs && Apply(s, sys, l).db.jobs[j] == sys.db.jobs[j]
    ensures j !in sys.db.jobs && j in Apply(s, sys, l).db.jobs ==>
      Apply(s, sys, l).db.jobs[j] == NewJob(Apply(s, sys, l).db.jobs[j].run, Apply(s, sys, l).db.jobs[j].device)
  {
    if l.CommitCreate? {
      assert TxInv(s, sys.db, sys.txs[l.t]);
      CreateCommitAdds(s, sys.db, sys.txs[l.t], l.run, l.ids);
    }
  }

  lemma OtherStepKeepsShapes(s: Settings, sys: Sys, l: Step)
    requires Refs(sys.db) && (forall t :: t in sys.txs ==> TxInv(s, sys.db, sys.txs[t])) && Enabled(s, sys, l)
    requires !(l.Commit? && sys.txs[l.t].JobTx?) && Shapes(s, sys.db)
    ensures Shapes(s, Apply(s, sys, l).db)
  {
    var db' := Apply(s, sys, l).db;
    forall j | j in db'.jobs ensures Shape(s, db'.jobs[j]) { OtherStepJobs(s, sys, l, j); }
  }

  // ---------------------------------------------------------------- open transactions

  /** A transaction that stays open keeps its action and its rows. */
  lemma OpenTxStays(s: Settings, sys: Sys, l: Step, t: TxId)
    requires Enabled(s, sys, l) && t in sys.txs && t in Apply(s, sys, l).txs && sys.txs[t].JobTx?
    ensures var tx, tx' := sys.txs[t], Apply(s, sys, l).txs[t];
      tx'.JobTx? && tx'.a == tx.a && tx'.done + tx'.todo == tx.done + tx.todo
  {
    if l.AggregateRun? && l.t == t {
      var tx := sys.txs[t];
      assert tx.done + [tx.todo[0]] + tx.todo[1..] == tx.done + tx.todo;
    }
  }

  /** The rows of an open transaction are the same after any step of the system. */
  lemma OpenRowsStay(s: Settings, sys: Sys, l: Step, t: TxId, j: JobId)
    requires SysInv(s, sys) && Enabled(s, sys, l) && t in sys.txs && t in Apply(s, sys, l).txs && sys.txs[t].JobTx?
    requires j in sys.txs[t].done + sys.txs[t].todo && j in sys.db.jobs
    ensures j in Apply(s, sys, l).db.jobs && Apply(s, sys, l).db.jobs[j] == sys.db.jobs[j]
  {
    if l.Commit? && sys.txs[l.t].JobTx? {
      assert TxInv(s, sys.db, sys.txs[l.t]) && Apart(sys.txs[l.t], sys.txs[t]);
      JobCommitFreezes(s, sys.db, sys.txs[l.t], sys.txs[t]);
    } else {
      OtherStepJobs(s, sys, l, j);
    }
  }

  lemma OpenTxFenced(s: Settings, sys: Sys, l: Step, t: TxId)
    requires SysInv(s, sys) && Enabled(s, sys, l) && t in sys.txs && t in Apply(s, sys, l).txs
    requires TxFenced(s, sys.db, sys.txs[t])
    ensures TxFenced(s, Apply(s, sys, l).db, Apply(s, sys, l).txs[t])
  {
    if sys.txs[t].JobTx? {
      var tx, db' := sys.txs[t], Apply(s, sys, l).db;
      OpenTxStays(s, sys, l, t);
      assert TxInv(s, sys.db, tx);
      forall j | j in tx.done + tx.todo && j in db'.jobs ensures Fenced(s, tx.a, db'.jobs[j]) {
        assert j in sys.db.jobs;
        OpenRowsStay(s, sys, l, t, j);
      }
    }
  }

  lemma OpenTxEndsClaim(s: Settings, sys: Sys, l: Step, t: TxId, c: Claimed)
    requires SysInv(s, sys) && Enabled(s, sys, l) && t in sys.txs && t in Apply(s, sys, l).txs
    requires EndsClaim(sys.db, sys.txs[t], c)
    ensures EndsClaim(Apply(s, sys, l).db, Apply(s, sys, l).txs[t], c)
  {
    OpenTxStays(s, sys, l, t);
    assert c.job in sys.txs[t].done + sys.txs[t].todo;
    OpenRowsStay(s, sys, l, t, c.job);
  }

  /** A transaction that begins on fenced rows is fenced. */
  lemma BegunTxFenced(s: Settings, sys: Sys, l: Step, t: TxId)
    requires Enabled(s, sys, l) && t in Apply(s, sys, l).txs && t !in sys.txs
    requires l.BeginJob? ==> Fenced(s, l.a, sys.db.jobs[l.j])
    ensures TxFenced(s, sys.db, Apply(s, sys, l).txs[t]) && Apply(s, sys, l).db == sys.db
  {
  }

  lemma BegunEndsClaim(s: Settings, sys: Sys, t: TxId, c: Claimed, outcome: CallOutcome, elapsed: Time, now: Time)
    requires P.Linked(sys.db.jobs, c) && Enabled(s, sys, BeginJob(t, OutcomeAction(s, c, outcome, elapsed), c.job, now))
    ensures Fenced(s, OutcomeAction(s, c, outcome, elapsed), sys.db.jobs[c.job])
    ensures var sys' := Apply(s, sys, BeginJob(t, OutcomeAction(s, c, outcome, elapsed), c.job, now));
      sys'.db == sys.db && t in sys'.txs && EndsClaim(sys'.db, sys'.txs[t], c)
  {
    P.OwnerIsFenced(s, sys.db.jobs, c, outcome, elapsed, now);
    H.CurrentIsAccepted(s, sys.db.jobs, c, outcome, elapsed, now);
    assert [] + [c.job] == [c.job];
  }

  // ---------------------------------------------------------------- steps keep the invariant

  lemma StepKeepsShapes(s: Settings, sys: Sys, l: Step)
    requires SysInv(s, sys) && Enabled(s, sys, l) && Shapes(s, sys.db)
    requires l.Commit? ==> TxFenced(s, sys.db, sys.txs[l.t])
    ensures Shapes(s, Apply(s, sys, l).db)
  {
    if l.Commit? && sys.txs[l.t].JobTx? {
      assert TxInv(s, sys.db, sys.txs[l.t]);
      CommitKeepsShapes(s, sys.db, sys.txs[l.t]);
    } else {
      OtherStepKeepsShapes(s, sys, l);
    }
  }

  lemma StepKeepsLinked(s: Settings, sys: Sys, l: Step, c: Claimed)
    requires SysInv(s, sys) && Enabled(s, sys, l) && P.Linked(sys.db.jobs, c)
    requires l.Commit? && ClaimOpen(sys, l.t) ==> sys.txs[l.t].a.task != c.task
    ensures P.Linked(Apply(s, sys, l).db.jobs, c)
  {
    if l.Commit? && sys.txs[l.t].JobTx? {
      assert TxInv(s, sys.db, sys.txs[l.t]);
      CommitKeepsLinked(s, sys.db, sys.txs[l.t], c);
    } else {
      OtherStepJobs(s, sys, l, c.job);
    }
  }

  /** What the moves of workers begin is fenced. */
  lemma BegunMoveFenced(s: Settings, w: World, m: Move)
    requires WorldInv(s, w) && Possible(s, w, m) && StepOf(s, w, m).Some? && StepOf(s, w, m).value.BeginJob?
    ensures var l := StepOf(s, w, m).value;
      l.j in w.sys.db.jobs && Fenced(s, l.a, w.sys.db.jobs[l.j])
  {
    if m.BeginEnd? {
      BegunEndsClaim(s, w.sys, m.t, m.c, m.outcome, m.elapsed, m.now);
    }
  }

  lemma MoveStep(s: Settings, w: World, m: Move)
    requires Possible(s, w, m)
    ensures var l := StepOf(s, w, m);
      After(s, w, m).sys == if l.Some? then Apply(s, w.sys, l.value) else w.sys
  {
  }

  lemma MoveKeepsTxs(s: Settings, w: World, m: Move)
    requires WorldInv(s, w) && Possible(s, w, m) && StepOf(s, w, m).Some?
    ensures var l := StepOf(s, w, m).value;
      var sys' := Apply(s, w.sys, l);
      SysInv(s, sys') && Shapes(s, sys'.db) && forall t :: t in sys'.txs ==> TxFenced(s, sys'.db, sys'.txs[t])
  {
    var l := StepOf(s, w, m).value;
    var sys' := Apply(s, w.sys, l);
    StepKeepsSysInv(s, w.sys, l);
    StepKeepsShapes(s, w.sys, l);
    if l.BeginJob? { BegunMoveFenced(s, w, m); }
    forall t | t in sys'.txs ensures TxFenced(s, sys'.db, sys'.txs[t]) {
      if t in w.sys.txs {
        OpenTxFenced(s, w.sys, l, t);
      } else {
        BegunTxFenced(s, w.sys, l, t);
      }
    }
  }

  lemma EndingStays(s: Settings, sys: Sys, l: Step, t: TxId, c: Claimed)
    requires SysInv(s, sys) && Enabled(s, sys, l) && t in sys.txs && EndsClaim(sys.db, sys.txs[t], c)
    requires l.Commit? || l.CommitCreate? || l.Abort? ==> l.t != t
    ensures t in Apply(s, sys, l).txs && EndsClaim(Apply(s, sys, l).db, Apply(s, sys, l).txs[t], c)
  {
    OpenStays(s, sys, l, t);
    OpenTxEndsClaim(s, sys, l, t, c);
  }

  ghost predicate EndingOk(w: World, t: TxId) {
    t in w.ending ==> t in w.sys.txs && EndsClaim(w.sys.db, w.sys.txs[t], w.ending[t])
  }

  lemma MoveKeepsEnding(s: Settings, w: World, m: Move, t: TxId)
    requires WorldInv(s, w) && Possible(s, w, m)
    ensures EndingOk(After(s, w, m), t)
  {
    var l := StepOf(s, w, m);
    MoveStep(s, w, m);
    if m.BeginEnd? && m.t == t {
      BegunEndsClaim(s, w.sys, m.t, m.c, m.outcome, m.elapsed, m.now);
    } else if t in After(s, w, m).ending && l.Some? {
      assert EndingOk(w, t);
      assert !l.value.CommitCreate? || l.value.t != t;
      EndingStays(s, w.sys, l.value, t, w.ending[t]);
    }
  }

  lemma OpenStays(s: Settings, sys: Sys, l: Step, t: TxId)
    requires Enabled(s, sys, l) && t in sys.txs
    requires l.Commit? || l.CommitCreate? || l.Abort? ==> l.t != t
    ensures t in Apply(s, sys, l).txs
  {
  }

  lemma MoveKeepsLinked(s: Settings, w: World, m: Move, c: Claimed)
    requires WorldInv(s, w) && Possible(s, w, m) && c in w.live && StepOf(s, w, m).Some?
    ensures P.Linked(Apply(s, w.sys, StepOf(s, w, m).value).db.jobs, c)
  {
    var l := StepOf(s, w, m).value;
    assert l.Commit? && ClaimOpen(w.sys, l.t) ==> w.sys.txs[l.t].a.task != c.task;
    StepKeepsLinked(s, w.sys, l, c);
  }

  lemma LiveAfter(s: Settings, w: World, m: Move, c: Claimed)
    requires Possible(s, w, m) && c in After(s, w, m).live && c !in w.live
    ensures HandsOut(w, m) && c == Handed(w, m.step.t)
  {
  }

  lemma ClaimOpenAfter(s: Settings, w: World, m: Move, t: TxId)
    requires Possible(s, w, m) && ClaimOpen(After(s, w, m).sys, t)
    ensures if t in w.sys.txs
            then ClaimOpen(w.sys, t) && After(s, w, m).sys.txs[t].a == w.sys.txs[t].a
            else m.BeginClaim? && t == m.t && After(s, w, m).sys.txs[t].a.task == m.task
    ensures HandsOut(w, m) ==> t != m.step.t
  {
    var l := StepOf(s, w, m);
    MoveStep(s, w, m);
    if t in w.sys.txs && l.Some? && w.sys.txs[t].JobTx? { OpenTxStays(s, w.sys, l.value, t); }
  }

  lemma LiveTaskFree(s: Settings, w: World, m: Move, c: Claimed, t: TxId)
    requires Tasks(w) && Possible(s, w, m) && c in After(s, w, m).live && ClaimOpen(After(s, w, m).sys, t)
    ensures After(s, w, m).sys.txs[t].a.task != c.task
  {
    ClaimOpenAfter(s, w, m, t);
    if c !in w.live { LiveAfter(s, w, m, c); }
  }

  lemma LiveTasksApart(s: Settings, w: World, m: Move, c: Claimed, e: Claimed)
    requires Tasks(w) && Possible(s, w, m) && c in After(s, w, m).live && e in After(s, w, m).live && c != e
    ensures c.task != e.task
  {
    if c !in w.live { LiveAfter(s, w, m, c); }
    if e !in w.live { LiveAfter(s, w, m, e); }
  }

  lemma OpenTasksApart(s: Settings, w: World, m: Move, t: TxId, u: TxId)
    requires Tasks(w) && Possible(s, w, m) && ClaimOpen(After(s, w, m).sys, t) && ClaimOpen(After(s, w, m).sys, u)
        && t != u
    ensures After(s, w, m).sys.txs[t].a.task != After(s, w, m).sys.txs[u].a.task
  {
    ClaimOpenAfter(s, w, m, t);
    ClaimOpenAfter(s, w, m, u);
  }

  lemma MoveKeepsTasks(s: Settings, w: World, m: Move)
    requires Tasks(w) && Possible(s, w, m)
    ensures Tasks(After(s, w, m))
  {
    var w' := After(s, w, m);
    forall c, e | c in w'.live && e in w'.live && c != e ensures c.task != e.task { LiveTasksApart(s, w, m, c, e); }
    forall t, c | ClaimOpen(w'.sys, t) && c in w'.live ensures w'.sys.txs[t].a.task != c.task {
      LiveTaskFree(s, w, m, c, t);
    }
    forall t, u | ClaimOpen(w'.sys, t) && ClaimOpen(w'.sys, u) && t != u
      ensures w'.sys.txs[t].a.task != w'.sys.txs[u].a.task
    {
      OpenTasksApart(s, w, m, t, u);
    }
  }

  lemma MoveLinks(s: Settings, w: World, m: Move, c: Claimed)
    requires WorldInv(s, w) && Possible(s, w, m) && c in After(s, w, m).live && StepOf(s, w, m).Some?
    ensures P.Linked(Apply(s, w.sys, StepOf(s, w, m).value).db.jobs, c)
  {
    if c in w.live {
      MoveKeepsLinked(s, w, m, c);
    } else {
      LiveAfter(s, w, m, c);
      assert TxInv(s, w.sys.db, w.sys.txs[m.step.t]);
      HandedIsLinked(s, w.sys.db, w.sys.txs[m.step.t], c);
    }
  }

  /** Every transaction that retries or finishes a job ends an execution. */
  lemma MoveKeepsEndOpen(s: Settings, w: World, m: Move, t: TxId)
    requires Possible(s, w, m) && EndOpen(After(s, w, m).sys, t) && (EndOpen(w.sys, t) ==> t in w.ending)
    ensures t in After(s, w, m).ending
  {
    var l := StepOf(s, w, m);
    MoveStep(s, w, m);
    if t in w.sys.txs && l.Some? && w.sys.txs[t].JobTx? { OpenTxStays(s, w.sys, l.value, t); }
  }

  /** Every move keeps the invariant. */
  lemma MoveKeepsInv(s: Settings, w: World, m: Move)
    requires WorldInv(s, w) && Possible(s, w, m)
    ensures WorldInv(s, After(s, w, m))
  {
    var w' := After(s, w, m);
    MoveStep(s, w, m);
    MoveKeepsTasks(s, w, m);
    if StepOf(s, w, m).Some? { MoveKeepsTxs(s, w, m); }
    forall c | c in w'.live ensures P.Linked(w'.sys.db.jobs, c) {
      if StepOf(s, w, m).Some? { MoveLinks(s, w, m, c); }
    }
    forall t | t in w'.ending ensures t in w'.sys.txs && EndsClaim(w'.sys.db, w'.sys.txs[t], w'.ending[t]) {
      MoveKeepsEnding(s, w, m, t);
      assert EndingOk(w', t);
    }
    forall t | EndOpen(w'.sys, t) ensures t in w'.ending { MoveKeepsEndOpen(s, w, m, t); }
  }

  // ---------------------------------------------------------------- every interleaving with live executions

  ghost predicate InitialWorld(w: World) {
    w.sys.db.devices == map[] && w.sys.db.jobs == map[] && w.sys.db.runs == map[] && w.sys.txs == map[]
    && w.live == {} && w.ending == map[]
  }

  ghost predicate Moved(s: Settings, worlds: seq<World>, moves: seq<Move>, i: nat)
    requires |worlds| == |moves| + 1 && i < |moves|
  {
    Possible(s, worlds[i], moves[i]) && worlds[i + 1] == After(s, worlds[i], moves[i])
  }

  ghost predicate WorldHistory(s: Settings, worlds: seq<World>, moves: seq<Move>) {
    |worlds| == |moves| + 1 && forall i :: 0 <= i < |moves| ==> Moved(s, worlds, moves, i)
  }

  ghost predicate InvAt(s: Settings, worlds: seq<World>, k: nat) {
    k < |worlds| && WorldInv(s, worlds[k])
  }

  lemma InvNext(s: Settings, worlds: seq<World>, moves: seq<Move>, k: nat)
    requires WorldHistory(s, worlds, moves) && 0 < k <= |moves| && InvAt(s, worlds, k - 1)
    ensures InvAt(s, worlds, k)
  {
    assert Moved(s, worlds, moves, k - 1);
    MoveKeepsInv(s, worlds[k - 1], moves[k - 1]);
  }

  lemma {:induction false} AllInv(s: Settings, worlds: seq<World>, moves: seq<Move>, k: nat)
    requires WorldHistory(s, worlds, moves) && InvAt(s, worlds, 0) && k <= |moves|
    ensures InvAt(s, worlds, k)
  {
    if k != 0 {
      AllInv(s, worlds, moves, k - 1);
      InvNext(s, worlds, moves, k);
    }
  }

  lemma InitialInv(s: Settings, w: World)
    requires s.Valid() && InitialWorld(w)
    ensures WorldInv(s, w)
  {
  }

  lemma HistoryKeepsInv(s: Settings, worlds: seq<World>, moves: seq<Move>, k: nat)
    requires s.Valid() && WorldHistory(s, worlds, moves) && InitialWorld(worlds[0]) && k <= |moves|
    ensures WorldInv(s, worlds[k])
  {
    InitialInv(s, worlds[0]);
    AllInv(s, worlds, moves, k);
  }

  /** Under every interleaving the transaction that would end a live execution gets past its guard if and only if the
      execution holds the current claim; a superseded one writes nothing. */
  lemma InterleavedFencing(s: Settings, worlds: seq<World>, moves: seq<Move>, k: nat, c: Claimed, outcome: CallOutcome,
                           elapsed: Time, now: Time)
    requires s.Valid() && WorldHistory(s, worlds, moves) && InitialWorld(worlds[0]) && k <= |moves|
    requires c in worlds[k].live
    ensures c.job in worlds[k].sys.db.jobs
    ensures Accepts(OutcomeAction(s, c, outcome, elapsed), worlds[k].sys.db.jobs[c.job], now)
       <==> H.Current(worlds[k].sys.db.jobs, c)
  {
    HistoryKeepsInv(s, worlds, moves, k);
    assert P.Linked(worlds[k].sys.db.jobs, c);
    H.CurrentIsAccepted(s, worlds[k].sys.db.jobs, c, outcome, elapsed, now);
  }

  /** Under every interleaving an execution that is being ended still holds the current claim at each moment until the
      commit: its job is running, with the number of its claim as attempts. */
  lemma InterleavedEnding(s: Settings, worlds: seq<World>, moves: seq<Move>, k: nat, t: TxId)
    requires s.Valid() && WorldHistory(s, worlds, moves) && InitialWorld(worlds[0]) && k <= |moves|
    ensures t in worlds[k].ending ==> H.Current(worlds[k].sys.db.jobs, worlds[k].ending[t])
    ensures EndOpen(worlds[k].sys, t) ==> t in worlds[k].ending
  {
    HistoryKeepsInv(s, worlds, moves, k);
  }

  /** The row has got a result or logs, or has passed or timed out. */
  ghost predicate Stored(job: Job, job': Job) {
    || job'.result != job.result || job'.logs != job.logs
    || (job'.status != job.status && (job'.status.Passed? || job'.status.TimedOut?))
  }

  /** The move commits the transaction that ends `j`'s execution with the claim number `attempts`. */
  ghost predicate CommitsEnd(w: World, m: Move, j: JobId, attempts: nat) {
    && m.Statement? && m.step.Commit? && m.step.t in w.ending
    && w.ending[m.step.t].job == j && w.ending[m.step.t].attempt == attempts
  }

  lemma StepStores(s: Settings, sys: Sys, l: Step, j: JobId)
    requires SysInv(s, sys) && Enabled(s, sys, l) && j in sys.db.jobs && j in Apply(s, sys, l).db.jobs
    requires Stored(sys.db.jobs[j], Apply(s, sys, l).db.jobs[j])
    ensures l.Commit? && EndOpen(sys, l.t) && j in sys.txs[l.t].done && sys.txs[l.t].todo == []
    ensures Apply(s, sys, l).db.jobs[j].attempts == sys.db.jobs[j].attempts
  {
    if l.Commit? && sys.txs[l.t].JobTx? {
      var tx := sys.txs[l.t];
      assert TxInv(s, sys.db, tx);
      CommittedJob(s, sys.db, tx, j);
      if j in tx.done { H.EffectProvenance(s, tx.a, sys.db.jobs[j], tx.now); }
    } else {
      OtherStepJobs(s, sys, l, j);
    }
  }

  lemma StepStoresFrom(s: Settings, sys: Sys, ending: map<TxId, Claimed>, l: Step, j: JobId)
    requires SysInv(s, sys) && Enabled(s, sys, l) && j in sys.db.jobs && j in Apply(s, sys, l).db.jobs
    requires Stored(sys.db.jobs[j], Apply(s, sys, l).db.jobs[j])
    requires l.Commit? && EndOpen(sys, l.t) ==> l.t in ending && EndsClaim(sys.db, sys.txs[l.t], ending[l.t])
    ensures l.Commit? && l.t in ending && ending[l.t].job == j && ending[l.t].attempt == sys.db.jobs[j].attempts
    ensures Apply(s, sys, l).db.jobs[j].attempts == sys.db.jobs[j].attempts
  {
    StepStores(s, sys, l, j);
    OnlyRow(sys.db, sys.txs[l.t], ending[l.t], j);
  }

  lemma MoveStores(s: Settings, w: World, m: Move, j: JobId, job': Job)
    requires WorldInv(s, w) && Possible(s, w, m) && j in w.sys.db.jobs && StepOf(s, w, m).Some?
    requires var db' := Apply(s, w.sys, StepOf(s, w, m).value).db;
      j in db'.jobs && job' == db'.jobs[j]
    requires Stored(w.sys.db.jobs[j], job')
    ensures CommitsEnd(w, m, j, w.sys.db.jobs[j].attempts) && job'.attempts == w.sys.db.jobs[j].attempts
  {
    var l := StepOf(s, w, m).value;
    assert l.Commit? && EndOpen(w.sys, l.t) ==> l.t in w.ending && EndsClaim(w.sys.db, w.sys.txs[l.t], w.ending[l.t]);
    StepStoresFrom(s, w.sys, w.ending, l, j);
  }

  lemma OnlyRow(db: Db, tx: Tx, c: Claimed, j: JobId)
    requires EndsClaim(db, tx, c) && tx.todo == [] && j in tx.done
    ensures c.job == j && c.attempt == db.jobs[j].attempts
  {
    assert tx.done + tx.todo == tx.done;
  }

  /** Under every interleaving a committed result or log changes, and a job passes or times out, only at the commit of
      the transaction that ends the execution whose claim number is the job's number of attempts. */
  lemma InterleavedProvenance(s: Settings, worlds: seq<World>, moves: seq<Move>, k: nat, j: JobId)
    requires s.Valid() && WorldHistory(s, worlds, moves) && InitialWorld(worlds[0]) && k < |moves|
    requires j in worlds[k].sys.db.jobs && j in worlds[k + 1].sys.db.jobs
    requires Stored(worlds[k].sys.db.jobs[j], worlds[k + 1].sys.db.jobs[j])
    ensures CommitsEnd(worlds[k], moves[k], j, worlds[k].sys.db.jobs[j].attempts)
    ensures worlds[k + 1].sys.db.jobs[j].attempts == worlds[k].sys.db.jobs[j].attempts
  {
    HistoryKeepsInv(s, worlds, moves, k);
    assert Moved(s, worlds, moves, k);
    MoveStep(s, worlds[k], moves[k]);
    MoveStores(s, worlds[k], moves[k], j, worlds[k + 1].sys.db.jobs[j]);
  }

  /** Under every interleaving the row shapes hold in every committed database: attempts never exceed the maximum, and
      only the last attempt times out. */
  lemma InterleavedShapes(s: Settings, worlds: seq<World>, moves: seq<Move>, k: nat, j: JobId)
    requires s.Valid() && WorldHistory(s, worlds, moves) && InitialWorld(worlds[0]) && k <= |moves|
    requires j in worlds[k].sys.db.jobs
    ensures var job := worlds[k].sys.db.jobs[j];
      Shape(s, job) && job.attempts <= s.maxAttempts && (job.status.TimedOut? ==> job.attempts == s.maxAttempts)
  {
    HistoryKeepsInv(s, worlds, moves, k);
    assert Shape(s, worlds[k].sys.db.jobs[j]);
  }

  // ---------------------------------------------------------------- attempt accounting

  /** The number of the claim on `j` that a move hands out, if it does. */
  ghost function ClaimIn(w: World, m: Move, j: JobId): seq<nat> {
    if HandsOut(w, m) && Handed(w, m.step.t).job == j then [Handed(w, m.step.t).attempt] else []
  }

  ghost function ClaimsIn(worlds: seq<World>, moves: seq<Move>, k: nat, j: JobId): seq<nat>
    requires |worlds| == |moves| + 1 && k <= |moves|
  {
    if k == 0 then [] else ClaimsIn(worlds, moves, k - 1, j) + ClaimIn(worlds[k - 1], moves[k - 1], j)
  }

  lemma AttemptsStep(s: Settings, sys: Sys, l: Step, j: JobId)
    requires SysInv(s, sys) && Enabled(s, sys, l) && j in sys.db.jobs
    requires l.Commit? ==> TxFenced(s, sys.db, sys.txs[l.t])
    ensures j in Apply(s, sys, l).db.jobs
    ensures Apply(s, sys, l).db.jobs[j].attempts == sys.db.jobs[j].attempts +
      (if CommitsClaim(sys, l, j) then 1 else 0)
  {
    if l.Commit? && sys.txs[l.t].JobTx? {
      var tx := sys.txs[l.t];
      assert TxInv(s, sys.db, tx);
      CommittedJob(s, sys.db, tx, j);
      assert tx.done + tx.todo == tx.done;
      if j in tx.done { P.EffectOwner(s, tx.a, sys.db.jobs[j], tx.now); }
    } else {
      OtherStepJobs(s, sys, l, j);
    }
  }

  /** The step commits a claim on `j`. */
  ghost predicate CommitsClaim(sys: Sys, l: Step, j: JobId) {
    l.Commit? && ClaimOpen(sys, l.t) && sys.txs[l.t].done != [] && sys.txs[l.t].done[0] == j
  }

  lemma ClaimInStep(s: Settings, w: World, m: Move, j: JobId)
    requires Possible(s, w, m)
    ensures var l := StepOf(s, w, m);
      ClaimIn(w, m, j) ==
      if l.Some? && CommitsClaim(w.sys, l.value, j) && j in w.sys.db.jobs then [w.sys.db.jobs[j].attempts + 1] else []
  {
  }

  lemma OneMoreClaim(jobs: Jobs, jobs': Jobs, j: JobId, claims: seq<nat>, claimed: bool)
    requires j in jobs && j in jobs' && H.Accounted(jobs, j, claims)
    requires jobs'[j].attempts == jobs[j].attempts + (if claimed then 1 else 0)
    ensures H.Accounted(jobs', j, claims + if claimed then [jobs[j].attempts + 1] else [])
  {
    H.UpToSucc(jobs[j].attempts);
  }

  lemma StepCounts(s: Settings, sys: Sys, l: Step, j: JobId, claims: seq<nat>, jobs': Jobs)
    requires SysInv(s, sys) && Enabled(s, sys, l) && jobs' == Apply(s, sys, l).db.jobs
    requires l.Commit? ==> TxFenced(s, sys.db, sys.txs[l.t])
    requires H.Accounted(sys.db.jobs, j, claims)
    ensures H.Accounted(jobs', j, claims +
      if CommitsClaim(sys, l, j) && j in sys.db.jobs then [sys.db.jobs[j].attempts + 1] else [])
  {
    if j in sys.db.jobs {
      AttemptsStep(s, sys, l, j);
      OneMoreClaim(sys.db.jobs, jobs', j, claims, CommitsClaim(sys, l, j));
    } else {
      NewJobCounts(s, sys, l, j);
    }
  }

  lemma MoveCounts(s: Settings, w: World, m: Move, j: JobId, claims: seq<nat>, w': World)
    requires WorldInv(s, w) && Possible(s, w, m) && w' == After(s, w, m)
    requires H.Accounted(w.sys.db.jobs, j, claims)
    ensures H.Accounted(w'.sys.db.jobs, j, claims + ClaimIn(w, m, j))
  {
    MoveStep(s, w, m);
    ClaimInStep(s, w, m, j);
    var l := StepOf(s, w, m);
    if l.Some? { StepCounts(s, w.sys, l.value, j, claims, w'.sys.db.jobs); }
  }

  lemma NewJobCounts(s: Settings, sys: Sys, l: Step, j: JobId)
    requires SysInv(s, sys) && Enabled(s, sys, l) && j !in sys.db.jobs
    ensures j in Apply(s, sys, l).db.jobs ==> Apply(s, sys, l).db.jobs[j].attempts == 0
  {
    if l.Commit? && sys.txs[l.t].JobTx? {
      assert TxInv(s, sys.db, sys.txs[l.t]);
      CommittedRows(s, sys.db, sys.txs[l.t]);
    } else {
      OtherStepJobs(s, sys, l, j);
    }
  }

  /** Under every interleaving the claims committed on a job are exactly 1, 2, ..., attempts, each once, in this
      order. */
  lemma {:induction false} InterleavedAccounting(s: Settings, worlds: seq<World>, moves: seq<Move>, k: nat, j: JobId)
    requires s.Valid() && WorldHistory(s, worlds, moves) && InitialWorld(worlds[0]) && k <= |moves|
    ensures H.Accounted(worlds[k].sys.db.jobs, j, ClaimsIn(worlds, moves, k, j))
  {
    if k != 0 {
      InterleavedAccounting(s, worlds, moves, k - 1, j);
      HistoryKeepsInv(s, worlds, moves, k - 1);
      assert Moved(s, worlds, moves, k - 1);
      MoveCounts(s, worlds[k - 1], moves[k - 1], j, ClaimsIn(worlds, moves, k - 1, j), worlds[k]);
    }
  }
}
