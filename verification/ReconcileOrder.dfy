/** The lease-recovery loop refines one simultaneous update, whatever the order of the rows. */
module ReconcileOrder {
  import opened Domain
  import opened Identifiers
  import opened Configuration
  import opened JobMachine
  import opened Aggregation
  import opened Services
  import opened DatabaseInvariant

  ghost predicate Exhausted(s: Settings, jobs: Jobs, rows: set<JobId>, d: DeviceId) {
    exists j :: j in rows && j in jobs && jobs[j].device == d && jobs[j].attempts >= s.maxAttempts
  }

  ghost predicate AllExpired(jobs: Jobs, rows: set<JobId>, now: Time) {
    forall j :: j in rows ==> j in jobs && LeaseExpired(jobs[j], now)
  }

  ghost function ExpiredJobs(s: Settings, jobs: Jobs, rows: set<JobId>, now: Time): Jobs
    requires AllExpired(jobs, rows, now)
  {
    map j | j in jobs :: if j in rows then Effect(s, Expire, jobs[j], now) else jobs[j]
  }

  ghost function ReleasedDevices(s: Settings, devices: Devices, jobs: Jobs, rows: set<JobId>, now: Time): Devices {
    map d | d in devices :: if Exhausted(s, jobs, rows, d) then Released(s, devices[d], now) else devices[d]
  }

  ghost function AggregatedRuns(runs: Runs, jobs: Jobs, now: Time): Runs {
    map r | r in runs :: RecomputeRow(runs[r], jobs, r, now)
  }

  /** All rows at once: expired jobs move, devices of exhausted jobs are released, and every run is aggregated once
      over the final jobs. */
  ghost function Simultaneous(s: Settings, db: Db, rows: set<JobId>, now: Time): Db
    requires AllExpired(db.jobs, rows, now)
  {
    var jobs' := ExpiredJobs(s, db.jobs, rows, now);
    Db(db.suites, ReleasedDevices(s, db.devices, db.jobs, rows, now), jobs', AggregatedRuns(db.runs, jobs', now))
  }

  /** Before its last expired job is handled a run keeps its row: aggregating midway changes nothing. */
  lemma MidwayUnchanged(run: TestRun, jobs: Jobs, jobs': Jobs, r: RunId, j: JobId, now: Time)
    requires RunOk(run, jobs, r)
    requires InRun(jobs, j, r) && InRun(jobs', j, r)
    requires jobs[j].status.Running? && jobs'[j].status.Running?
    ensures RecomputeRow(run, jobs', r, now) == run
  {
    assert HasJob(jobs', r) && AnyActive(jobs', r) && AnyStarted(jobs', r);
    assert AnyActive(jobs, r) && AnyStarted(jobs, r);
  }

  lemma NothingToAggregate(run: TestRun, jobs: Jobs, r: RunId, now: Time)
    requires RunOk(run, jobs, r)
    ensures RecomputeRow(run, jobs, r, now) == run
  {
  }

  lemma JobsStep(s: Settings, jobs: Jobs, rows: set<JobId>, j: JobId, now: Time)
    requires AllExpired(jobs, rows + {j}, now) && AllExpired(jobs, rows, now) && j !in rows
    requires j in jobs && LeaseExpired(jobs[j], now)
    ensures ExpiredJobs(s, jobs, rows + {j}, now) ==
            ExpiredJobs(s, jobs, rows, now)[j := Effect(s, Expire, jobs[j], now)]
    ensures ExpiredJobs(s, jobs, rows, now)[j] == jobs[j]
  {
  }

  lemma DevicesStep(s: Settings, devices: Devices, jobs: Jobs, rows: set<JobId>, j: JobId, now: Time)
    requires j in jobs && jobs[j].device in devices && j !in rows
    requires forall k :: k in rows ==> k in jobs && jobs[k].device != jobs[j].device
    ensures ReleasedDevices(s, devices, jobs, rows + {j}, now) ==
      var before, d := ReleasedDevices(s, devices, jobs, rows, now), jobs[j].device;
      if jobs[j].attempts >= s.maxAttempts then before[d := Released(s, before[d], now)] else before
  {
    var d := jobs[j].device;
    assert !Exhausted(s, jobs, rows, d);
    forall e | e in devices
      ensures Exhausted(s, jobs, rows + {j}, e) <==>
        Exhausted(s, jobs, rows, e) || (e == d && jobs[j].attempts >= s.maxAttempts)
    {
      if e == d && jobs[j].attempts >= s.maxAttempts {
        assert j in rows + {j};
      }
      if Exhausted(s, jobs, rows, e) {
        var k :| k in rows && k in jobs && jobs[k].device == e && jobs[k].attempts >= s.maxAttempts;
        assert k in rows + {j};
      }
    }
  }

  lemma RunsStep(runs: Runs, jobs: Jobs, midway: Jobs, j: JobId, job': Job, now: Time)
    requires j in jobs && j in midway && midway[j] == jobs[j] && jobs[j].status.Running?
    requires job'.run == jobs[j].run && jobs[j].run in runs && RunOk(runs[jobs[j].run], jobs, jobs[j].run)
    ensures AggregatedRuns(runs, midway[j := job'], now) ==
            Reaggregated(AggregatedRuns(runs, midway, now), midway[j := job'], jobs[j].run, now)
  {
    var r := jobs[j].run;
    assert InRun(jobs, j, r) && InRun(midway, j, r);
    MidwayUnchanged(runs[r], jobs, midway, r, j, now);
    forall q | q in runs && q != r
      ensures RecomputeRow(runs[q], midway, q, now) == RecomputeRow(runs[q], midway[j := job'], q, now)
    {
      OtherRun(midway, j, job', q);
      AggregationFrame(midway, midway[j := job'], q, runs[q], now);
    }
  }

  lemma PerformExpire(s: Settings, db: Db, j: JobId, now: Time)
    requires Refs(db) && j in db.jobs && LeaseExpired(db.jobs[j], now)
    ensures var job := db.jobs[j];
      var jobs' := db.jobs[j := Effect(s, Expire, job, now)];
      Perform(s, db, Expire, j, now) ==
        Db(db.suites,
           if job.attempts >= s.maxAttempts
           then db.devices[job.device := Released(s, db.devices[job.device], now)]
           else db.devices,
           jobs', Reaggregated(db.runs, jobs', job.run, now))
  {
  }

  lemma ExclusiveRows(jobs: Jobs, rows: set<JobId>, j: JobId, now: Time)
    requires Exclusive(jobs) && AllExpired(jobs, rows, now) && j !in rows && j in jobs && LeaseExpired(jobs[j], now)
    ensures forall k :: k in rows ==> k in jobs && jobs[k].device != jobs[j].device
    ensures AllExpired(jobs, rows + {j}, now)
  {
  }

  /** `db'` is `db` after the transaction on the one expired job `j`. */
  ghost predicate OneExpired(s: Settings, db: Db, db': Db, j: JobId, now: Time)
    requires Refs(db) && j in db.jobs && LeaseExpired(db.jobs[j], now)
  {
    var job := db.jobs[j];
    && db'.suites == db.suites
    && db'.jobs == db.jobs[j := Effect(s, Expire, job, now)]
    && db'.devices == (if job.attempts >= s.maxAttempts
                       then db.devices[job.device := Released(s, db.devices[job.device], now)]
                       else db.devices)
    && db'.runs == Reaggregated(db.runs, db'.jobs, job.run, now)
  }

  lemma PerformOneExpired(s: Settings, db: Db, db': Db, j: JobId, now: Time)
    requires Refs(db) && j in db.jobs && LeaseExpired(db.jobs[j], now) && OneExpired(s, db, db', j, now)
    ensures Perform(s, db, Expire, j, now) == db'
  {
    PerformExpire(s, db, j, now);
  }

  /** One more row after a simultaneous update of the others. */
  lemma SimultaneousStep(s: Settings, db: Db, rows: set<JobId>, j: JobId, now: Time, before: Db, after: Db)
    requires Refs(db) && Refs(before)
    requires j in db.jobs && LeaseExpired(db.jobs[j], now) && j !in rows
    requires AllExpired(db.jobs, rows, now) && AllExpired(db.jobs, rows + {j}, now)
    requires forall k :: k in rows ==> k in db.jobs && db.jobs[k].device != db.jobs[j].device
    requires RunOk(db.runs[db.jobs[j].run], db.jobs, db.jobs[j].run)
    requires before == Simultaneous(s, db, rows, now) && after == Simultaneous(s, db, rows + {j}, now)
    ensures j in before.jobs && before.jobs[j] == db.jobs[j]
    ensures OneExpired(s, before, after, j, now)
  {
    JobsStep(s, db.jobs, rows, j, now);
    DevicesStep(s, db.devices, db.jobs, rows, j, now);
    RunsStep(db.runs, db.jobs, before.jobs, j, Effect(s, Expire, db.jobs[j], now), now);
  }

  lemma SimultaneousNone(s: Settings, db: Db, now: Time)
    requires RunsOk(db)
    ensures AllExpired(db.jobs, {}, now) && Simultaneous(s, db, {}, now) == db
  {
    var none := Simultaneous(s, db, {}, now);
    assert none.jobs == db.jobs;
    assert none.devices == db.devices;
    assert none.runs == db.runs by {
      forall r | r in db.runs ensures none.runs[r] == db.runs[r] {
        NothingToAggregate(db.runs[r], db.jobs, r, now);
      }
    }
  }

  lemma RowsSnoc(db: Db, rows: seq<JobId>, now: Time)
    requires ExpiredRows(db, rows, now) && rows != []
    ensures var prefix, last := rows[..|rows| - 1], rows[|rows| - 1];
      && ExpiredRows(db, prefix, now) && last !in Elements(prefix) && Elements(rows) == Elements(prefix) + {last}
      && last in db.jobs && LeaseExpired(db.jobs[last], now)
  {
    var prefix, last := rows[..|rows| - 1], rows[|rows| - 1];
    assert rows == prefix + [last];
  }

  lemma {:induction false} LoopIsFold(s: Settings, db: Db, rows: seq<JobId>, now: Time)
    requires Refs(db) && Exclusive(db.jobs) && RunsOk(db) && ExpiredRows(db, rows, now)
    ensures AllExpired(db.jobs, Elements(rows), now)
    ensures ExpireAll(s, db, rows, now) == Simultaneous(s, db, Elements(rows), now)
    decreases |rows|
  {
    if rows == [] {
      SimultaneousNone(s, db, now);
      assert Elements(rows) == {};
    } else {
      RowsSnoc(db, rows, now);
      var prefix, last := rows[..|rows| - 1], rows[|rows| - 1];
      LoopIsFold(s, db, prefix, now);
      ExclusiveRows(db.jobs, Elements(prefix), last, now);
      var before, after := Simultaneous(s, db, Elements(prefix), now), Simultaneous(s, db, Elements(rows), now);
      SimultaneousStep(s, db, Elements(prefix), last, now, before, after);
      PerformOneExpired(s, before, after, last, now);
    }
  }

  /** Whatever the order of the expired rows, the loop computes the simultaneous update; at every point of the loop
      the database invariant holds, so a run is final there exactly when all its jobs are. */
  lemma LoopIsSimultaneous(s: Settings, db: Db, rows: seq<JobId>, now: Time, i: nat)
    requires s.Valid() && DbInv(s, db) && ExpiredRows(db, rows, now) && i <= |rows|
    ensures AllExpired(db.jobs, Elements(rows), now)
    ensures ExpireAll(s, db, rows, now) == Simultaneous(s, db, Elements(rows), now)
    ensures DbInv(s, ExpireAll(s, db, rows[..i], now))
  {
    LoopIsFold(s, db, rows, now);
    ExpireAllKeepsInv(s, db, rows[..i], now);
  }

  /** Two answers of the lease query with the same rows lead to the same database and the same ids. */
  lemma OrderIrrelevant(s: Settings, db: Db, rows: seq<JobId>, rows': seq<JobId>, now: Time)
    requires s.Valid() && DbInv(s, db) && ExpiredRows(db, rows, now) && ExpiredRows(db, rows', now)
    requires Elements(rows) == Elements(rows')
    ensures Reconcile(s, db, rows, now) == Reconcile(s, db, rows', now)
  {
    LoopIsFold(s, db, rows, now);
    LoopIsFold(s, db, rows', now);
  }

  /** A failed active job leaves its device without any active job. */
  lemma Vacated(jobs: Jobs, jobs': Jobs, j: JobId)
    requires Exclusive(jobs) && j in jobs && jobs[j].status.Active()
    requires jobs'.Keys == jobs.Keys && jobs'[j].status.Terminal()
    requires forall k :: k in jobs ==> jobs'[k].device == jobs[k].device
    requires forall k :: k in jobs && jobs'[k].status.Active() ==> jobs[k].status.Active()
    ensures !HasActiveJob(jobs', jobs[j].device)
  {
  }

  lemma ExpiredJobsVacate(s: Settings, jobs: Jobs, rows: set<JobId>, now: Time, j: JobId)
    requires Exclusive(jobs) && AllExpired(jobs, rows, now) && j in rows && jobs[j].attempts >= s.maxAttempts
    ensures !HasActiveJob(ExpiredJobs(s, jobs, rows, now), jobs[j].device)
  {
    var jobs' := ExpiredJobs(s, jobs, rows, now);
    forall k | k in jobs
      ensures jobs'[k].device == jobs[k].device && (jobs'[k].status.Active() ==> jobs[k].status.Active())
    {
    }
    Vacated(jobs, jobs', j);
  }

  /** Only devices of exhausted jobs are touched, and nothing holds them afterwards. */
  lemma OnlyExhaustedReleased(s: Settings, db: Db, rows: seq<JobId>, now: Time, d: DeviceId)
    requires Refs(db) && Exclusive(db.jobs) && RunsOk(db) && ExpiredRows(db, rows, now) && d in db.devices
    ensures var db' := ExpireAll(s, db, rows, now);
      d in db'.devices &&
      (db'.devices[d] != db.devices[d] ==> Exhausted(s, db.jobs, Elements(rows), d) && !HasActiveJob(db'.jobs, d))
  {
    LoopIsFold(s, db, rows, now);
    if Exhausted(s, db.jobs, Elements(rows), d) {
      var j :| j in Elements(rows) && j in db.jobs && db.jobs[j].device == d && db.jobs[j].attempts >= s.maxAttempts;
      ExpiredJobsVacate(s, db.jobs, Elements(rows), now, j);
    }
  }

  /** After every prefix of the rows, a run is final exactly when all its jobs are terminal. */
  lemma FinalisedExactlyWhenDone(s: Settings, db: Db, rows: seq<JobId>, now: Time, i: nat, r: RunId)
    requires s.Valid() && DbInv(s, db) && ExpiredRows(db, rows, now) && i <= |rows| && r in db.runs
    ensures var db' := ExpireAll(s, db, rows[..i], now);
      r in db'.runs &&
      (db'.runs[r].status.Terminal() <==> forall j :: InRun(db'.jobs, j, r) ==> db'.jobs[j].status.Terminal())
  {
    ExpireAllKeepsInv(s, db, rows[..i], now);
    var db' := ExpireAll(s, db, rows[..i], now);
    ExpireAllKeepsRuns(s, db, rows[..i], now);
    RunFinality(db'.runs[r], db'.jobs, r);
  }

  lemma {:induction false} ExpireAllKeepsRuns(s: Settings, db: Db, rows: seq<JobId>, now: Time)
    requires Refs(db)
    ensures ExpireAll(s, db, rows, now).runs.Keys == db.runs.Keys
    decreases |rows|
  {
    if rows != [] {
      ExpireAllKeepsRuns(s, db, rows[..|rows| - 1], now);
    }
  }
}
