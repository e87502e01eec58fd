/** The pending writes of a job transaction are those of the atomic transactions on its rows, one after the other. */
module PendingWrites {
  import opened Domain
  import opened Identifiers
  import opened Configuration
  import opened JobMachine
  import opened Aggregation
  import opened Services
  import opened DatabaseInvariant
  import opened ReadCommitted

  /** The transactions of `Services`, one row after the other. */
  ghost function PerformAll(s: Settings, db: Db, a: Action, ids: seq<JobId>, now: Time): (db': Db)
    requires Refs(db)
    ensures Refs(db')
    decreases |ids|
  {
    if ids == [] then db else Perform(s, PerformAll(s, db, a, ids[..|ids| - 1], now), a, ids[|ids| - 1], now)
  }

  lemma AcceptedPrefix(jobs: Jobs, a: Action, now: Time, ids: seq<JobId>)
    requires AllAccepted(jobs, a, now, ids) && NoDuplicates(ids) && ids != []
    ensures var prefix, last := ids[..|ids| - 1], ids[|ids| - 1];
      && AllAccepted(jobs, a, now, prefix) && NoDuplicates(prefix) && last !in prefix
      && last in jobs && Accepts(a, jobs[last], now)
  {
    var prefix, last := ids[..|ids| - 1], ids[|ids| - 1];
    assert last in ids;
    assert forall j :: j in prefix ==> j in ids;
  }

  lemma JobWritesSnoc(s: Settings, jobs: Jobs, a: Action, now: Time, ids: seq<JobId>, j: JobId)
    requires AllAccepted(jobs, a, now, ids) && j in jobs && Accepts(a, jobs[j], now) && j !in ids
    ensures AllAccepted(jobs, a, now, ids + [j])
    ensures JobWrites(s, jobs, a, now, ids + [j]) == JobWrites(s, jobs, a, now, ids)[j := Effect(s, a, jobs[j], now)]
  {
    assert forall k :: k in ids + [j] <==> k in ids || k == j;
  }

  lemma RunWritesSnoc(s: Settings, db: Db, a: Action, now: Time, ids: seq<JobId>, j: JobId)
    requires Refs(db) && AllAccepted(db.jobs, a, now, ids) && AllAccepted(db.jobs, a, now, ids + [j]) && j in db.jobs
    ensures var r, before := db.jobs[j].run, RunWrites(s, db, a, now, ids);
      RunWrites(s, db, a, now, ids + [j]) ==
        before[r := RecomputeRow((db.runs + before)[r], db.jobs + JobWrites(s, db.jobs, a, now, ids + [j]), r, now)]
  {
    assert (ids + [j])[..|ids|] == ids;
  }

  /** One more row: the overlay of the extended writes is the atomic step on the overlay. */
  lemma OverlayStep(s: Settings, db: Db, before: Db, a: Action, now: Time, ids: seq<JobId>, j: JobId)
    requires Refs(db) && Refs(before) && j in db.jobs && Accepts(a, db.jobs[j], now) && j !in ids
    requires AllAccepted(db.jobs, a, now, ids)
    requires before.jobs == db.jobs + JobWrites(s, db.jobs, a, now, ids)
    requires before.runs == db.runs + RunWrites(s, db, a, now, ids)
    ensures AllAccepted(db.jobs, a, now, ids + [j])
    ensures before.jobs[j] == db.jobs[j]
    ensures var db' := Perform(s, before, a, j, now);
      && db'.jobs == db.jobs + JobWrites(s, db.jobs, a, now, ids + [j])
      && db'.runs == db.runs + RunWrites(s, db, a, now, ids + [j])
  {
    var w, job' := JobWrites(s, db.jobs, a, now, ids), Effect(s, a, db.jobs[j], now);
    assert before.jobs[j] == db.jobs[j];
    PerformRows(s, before, a, j, now);
    JobWritesSnoc(s, db.jobs, a, now, ids, j);
    OverlaySnoc(db.jobs, w, j, job');
    RunWritesSnoc(s, db, a, now, ids, j);
    OverlaySnoc(db.runs, RunWrites(s, db, a, now, ids), db.jobs[j].run,
                RecomputeRow(before.runs[db.jobs[j].run], before.jobs[j := job'], db.jobs[j].run, now));
  }

  /** The pending writes overlaid on the committed rows are the rows after the atomic steps. */
  lemma {:induction false} WritesArePerformed(s: Settings, db: Db, a: Action, ids: seq<JobId>, now: Time)
    requires Refs(db) && AllAccepted(db.jobs, a, now, ids) && NoDuplicates(ids)
    ensures var db' := PerformAll(s, db, a, ids, now);
      && db'.jobs == db.jobs + JobWrites(s, db.jobs, a, now, ids)
      && db'.runs == db.runs + RunWrites(s, db, a, now, ids)
    decreases |ids|
  {
    if ids != [] {
      AcceptedPrefix(db.jobs, a, now, ids);
      var prefix, last := ids[..|ids| - 1], ids[|ids| - 1];
      assert ids == prefix + [last];
      WritesArePerformed(s, db, a, prefix, now);
      OverlayStep(s, db, PerformAll(s, db, a, prefix, now), a, now, prefix, last);
    }
  }

  lemma {:induction false} PerformAllKeeps(s: Settings, db: Db, a: Action, ids: seq<JobId>, now: Time)
    requires s.Valid() && Refs(db) && RunsOk(db) && Exclusive(db.jobs)
    ensures RunsOk(PerformAll(s, db, a, ids, now)) && Exclusive(PerformAll(s, db, a, ids, now).jobs)
    decreases |ids|
  {
    if ids != [] {
      var prefix, last := ids[..|ids| - 1], ids[|ids| - 1];
      PerformAllKeeps(s, db, a, prefix, now);
      var before := PerformAll(s, db, a, prefix, now);
      if last in before.jobs && Accepts(a, before.jobs[last], now) {
        PerformKeepsRunsOk(s, before, a, last, now);
        PerformKeepsExclusive(s, before, a, last, now);
      }
    }
  }

  lemma PerformKeepsExclusive(s: Settings, db: Db, a: Action, j: JobId, now: Time)
    requires Refs(db) && Exclusive(db.jobs) && j in db.jobs && Accepts(a, db.jobs[j], now)
    ensures Exclusive(Perform(s, db, a, j, now).jobs)
  {
    PerformRows(s, db, a, j, now);
    MoveKeepsExclusive(db.jobs, j, Effect(s, a, db.jobs[j], now));
  }
}
