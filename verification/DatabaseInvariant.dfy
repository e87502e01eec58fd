/** The invariant of the committed database and its preservation by every transaction. */
module DatabaseInvariant {
  import opened Domain
  import opened Configuration
  import opened JobMachine
  import opened Aggregation
  import opened Services

  ghost predicate Shapes(s: Settings, db: Db) {
    forall j :: j in db.jobs ==> Shape(s, db.jobs[j])
  }

  /** No device has two active jobs. */
  ghost predicate Exclusive(jobs: Jobs) {
    forall j, k :: j in jobs && k in jobs && j != k && jobs[j].status.Active() && jobs[k].status.Active() ==>
      jobs[j].device != jobs[k].device
  }

  /** A device that can be reserved has no active job. */
  ghost predicate OnlineFree(db: Db) {
    forall j :: j in db.jobs && db.jobs[j].status.Active() && db.jobs[j].device in db.devices ==>
      !db.devices[db.jobs[j].device].status.Online?
  }

  ghost predicate BusyHeld(db: Db) {
    forall d :: d in db.devices && db.devices[d].status.Busy? ==> HasActiveJob(db.jobs, d)
  }

  ghost predicate RunsOk(db: Db) {
    forall r :: r in db.runs ==> RunOk(db.runs[r], db.jobs, r)
  }

  ghost predicate DbInv(s: Settings, db: Db) {
    Refs(db) && Shapes(s, db) && Exclusive(db.jobs) && OnlineFree(db) && BusyHeld(db) && RunsOk(db)
  }

  /** The run row and all its jobs are the same in both databases. */
  ghost predicate SameInBoth(db: Db, db': Db, r: RunId) {
    r in db.runs && r in db'.runs && db'.runs[r] == db.runs[r] && SameRun(db.jobs, db'.jobs, r)
  }

  /** They are if the run is terminal in the first. */
  ghost predicate Settled(db: Db, db': Db, r: RunId) {
    r in db.runs && db.runs[r].status.Terminal() ==> SameInBoth(db, db', r)
  }

  /** Runs other than the one of the moved job keep their rows; its own row is re-aggregated. */
  lemma PerformKeepsRunsOk(s: Settings, db: Db, a: Action, j: JobId, now: Time)
    requires s.Valid() && Refs(db) && RunsOk(db)
    requires j in db.jobs && Accepts(a, db.jobs[j], now)
    ensures RunsOk(Perform(s, db, a, j, now))
  {
    var job := db.jobs[j];
    var job' := Effect(s, a, job, now);
    RecomputeKeepsRunOk(db.runs[job.run], db.jobs, j, job', now);
    forall r | r in db.runs && r != job.run
      ensures RunOk(db.runs[r], db.jobs[j := job'], r)
    {
      OtherRun(db.jobs, j, job', r);
      AggregationFrame(db.jobs, db.jobs[j := job'], r, db.runs[r], now);
    }
  }

  /** Replacing an active job by its successor creates no second active job on any device. */
  lemma MoveKeepsExclusive(jobs: Jobs, j: JobId, job': Job)
    requires Exclusive(jobs) && j in jobs && jobs[j].status.Active() && job'.device == jobs[j].device
    ensures Exclusive(jobs[j := job'])
  {
  }

  /** A device row changes only when its job ends, and then nothing holds it any more. */
  lemma PerformKeepsDevices(s: Settings, db: Db, a: Action, j: JobId, now: Time)
    requires Refs(db) && Exclusive(db.jobs) && OnlineFree(db)
    requires j in db.jobs && Accepts(a, db.jobs[j], now)
    ensures OnlineFree(Perform(s, db, a, j, now))
    ensures BusyHeld(db) ==> BusyHeld(Perform(s, db, a, j, now))
    ensures var db' := Perform(s, db, a, j, now);
      && db'.devices.Keys == db.devices.Keys
      && forall d :: d in db.devices && db'.devices[d] != db.devices[d] ==>
           d == db.jobs[j].device && db'.jobs[j].status.Terminal() && !HasActiveJob(db'.jobs, d)
  {
    var db' := Perform(s, db, a, j, now);
    var d := db.jobs[j].device;
    assert db'.jobs[j].device == d && db.jobs[j].status.Active();
    assert forall e :: e in db.devices && e != d ==> db'.devices[e] == db.devices[e];
    if BusyHeld(db) {
      forall e | e in db'.devices && db'.devices[e].status.Busy?
        ensures HasActiveJob(db'.jobs, e)
      {
        if e == d {
          assert db'.jobs[j].status.Active();
        } else {
          var k :| k in db.jobs && db.jobs[k].device == e && db.jobs[k].status.Active();
          assert db'.jobs[k] == db.jobs[k];
        }
      }
    }
  }

  /** A job transaction keeps the whole invariant. */
  lemma PerformKeepsInv(s: Settings, db: Db, a: Action, j: JobId, now: Time)
    requires s.Valid() && DbInv(s, db)
    requires j in db.jobs ==> Accepts(a, db.jobs[j], now) ==> Fenced(s, a, db.jobs[j])
    ensures DbInv(s, Perform(s, db, a, j, now))
  {
    if j in db.jobs && Accepts(a, db.jobs[j], now) {
      EffectKeepsShape(s, a, db.jobs[j], now);
      PerformKeepsRunsOk(s, db, a, j, now);
      PerformKeepsDevices(s, db, a, j, now);
      MoveKeepsExclusive(db.jobs, j, Effect(s, a, db.jobs[j], now));
    }
  }

  lemma {:induction false} ExpireAllKeepsInv(s: Settings, db: Db, rows: seq<JobId>, now: Time)
    requires s.Valid() && DbInv(s, db)
    ensures DbInv(s, ExpireAll(s, db, rows, now))
    decreases |rows|
  {
    if rows != [] {
      var prefix := rows[..|rows| - 1];
      ExpireAllKeepsInv(s, db, prefix, now);
      PerformKeepsInv(s, ExpireAll(s, db, prefix, now), Expire, rows[|rows| - 1], now);
    }
  }

  lemma SeenStatusKeepsOnlineFree(db: Db, d: DeviceId, device: Device)
    requires Refs(db) && OnlineFree(db)
    requires device.status == SeenStatus(db.jobs, d) || device.status.Offline?
    ensures OnlineFree(db.(devices := db.devices[d := device]))
  {
    var db' := db.(devices := db.devices[d := device]);
    forall j | j in db'.jobs && db'.jobs[j].status.Active()
      ensures !db'.devices[db'.jobs[j].device].status.Online?
    {
      if db'.jobs[j].device == d { assert HasActiveJob(db.jobs, d); }
    }
  }

  lemma SeenStatusKeepsBusyHeld(db: Db, d: DeviceId, device: Device)
    requires BusyHeld(db) && (device.status == SeenStatus(db.jobs, d) || device.status.Offline?)
    ensures BusyHeld(db.(devices := db.devices[d := device]))
  {
  }

  lemma SeenStatusKeepsInv(s: Settings, db: Db, d: DeviceId, device: Device)
    requires DbInv(s, db)
    requires device.status == SeenStatus(db.jobs, d) || device.status.Offline?
    ensures DbInv(s, db.(devices := db.devices[d := device]))
  {
    SeenStatusKeepsOnlineFree(db, d, device);
    SeenStatusKeepsBusyHeld(db, d, device);
  }

  lemma RegisterKeepsInv(s: Settings, db: Db, d: DeviceId, host: bool, endpoint: string, now: Time)
    requires DbInv(s, db)
    ensures DbInv(s, RegisterDevice(db, d, host, endpoint, now))
  {
    if d !in db.devices && HasActiveJob(db.jobs, d) {
      assert false;
    }
    SeenStatusKeepsInv(s, db, d, RegisterDevice(db, d, host, endpoint, now).devices[d]);
  }

  lemma HeartbeatKeepsInv(s: Settings, db: Db, d: DeviceId, now: Time)
    requires DbInv(s, db) && d in db.devices
    ensures DbInv(s, RecordHeartbeat(db, d, now).value)
  {
    SeenStatusKeepsInv(s, db, d, RecordHeartbeat(db, d, now).value.devices[d]);
  }

  lemma SweepKeepsInv(s: Settings, db: Db, now: Time)
    requires DbInv(s, db)
    ensures DbInv(s, MarkStaleDevicesOffline(s, db, now))
  {
  }

  /** The effect of a successful `create_run`: one new run, one queued job on each chosen device, all of them
      reserved, nothing else touched. */
  ghost predicate AddsRun(db: Db, db': Db, chosen: set<DeviceId>, run: RunId, ids: map<DeviceId, JobId>) {
    && chosen != {} && chosen <= db.devices.Keys && run !in db.runs && chosen <= ids.Keys
    && db'.runs.Keys == db.runs.Keys + {run}
    && (forall r :: r in db.runs ==> db'.runs[r] == db.runs[r])
    && db'.runs[run].status.RunQueued? && db'.runs[run].startedAt.None? && db'.runs[run].completedAt.None?
    && (forall j :: j in db.jobs ==> j in db'.jobs && db'.jobs[j] == db.jobs[j])
    && (forall d :: d in chosen ==> ids[d] !in db.jobs && ids[d] in db'.jobs && db'.jobs[ids[d]] == NewJob(run, d))
    && (forall j :: j in db'.jobs && j !in db.jobs ==>
          db'.jobs[j].device in chosen && j == ids[db'.jobs[j].device]
              && db'.jobs[j] == NewJob(run, db'.jobs[j].device))
    && db'.devices.Keys == db.devices.Keys
    && (forall d :: d in chosen ==> db.devices[d].status.Online? && db'.devices[d].status.Busy?)
    && (forall d :: d in db.devices && d !in chosen ==> db'.devices[d] == db.devices[d])
  }

  lemma AddedRun(db: Db, chosen: set<DeviceId>, run: RunId, ids: map<DeviceId, JobId>, row: TestRun)
    requires FreshIds(db, run, ids) && chosen != {} && chosen <= db.devices.Keys
    requires forall d :: d in chosen ==> db.devices[d].status.Online?
    requires row.status.RunQueued? && row.startedAt.None? && row.completedAt.None?
    ensures AddsRun(db, Db(db.suites, Reserved(db.devices, chosen), db.jobs + NewJobs(chosen, run, ids),
                           db.runs[run := row]), chosen, run, ids)
  {
  }

  lemma CreateRunAddsRun(s: Settings, db: Db, request: RunRequest, unlocked: set<DeviceId>, run: RunId,
                         ids: map<DeviceId, JobId>, now: Time)
    requires FreshIds(db, run, ids)
    requires CreateRun(s, db, request, unlocked, run, ids, now).Ok?
    ensures AddsRun(db, CreateRun(s, db, request, unlocked, run, ids, now).value,
                    Selected(s, db, request, unlocked, now), run, ids)
  {
    var chosen := Selected(s, db, request, unlocked, now);
    assert chosen != {} && chosen <= db.devices.Keys && forall d :: d in chosen ==> db.devices[d].status.Online?;
    AddedRun(db, chosen, run, ids, TestRun(request.suite, RunQueued, None, None));
  }

  lemma AddsRunKeepsRunsOk(db: Db, db': Db, chosen: set<DeviceId>, run: RunId, ids: map<DeviceId, JobId>)
    requires Refs(db) && RunsOk(db) && AddsRun(db, db', chosen, run, ids)
    ensures RunsOk(db')
  {
    forall r | r in db'.runs
      ensures RunOk(db'.runs[r], db'.jobs, r)
    {
      if r == run {
        var d :| d in chosen;
        assert InRun(db'.jobs, ids[d], run) && db'.jobs[ids[d]].status.Active();
        assert !AnyStarted(db'.jobs, run) by {
          assert forall j :: InRun(db'.jobs, j, run) ==> j !in db.jobs;
        }
      } else {
        assert SameRun(db.jobs, db'.jobs, r);
        AggregationFrame(db.jobs, db'.jobs, r, db.runs[r], 0.0);
      }
    }
  }

  lemma AddsRunKeepsExclusive(db: Db, db': Db, chosen: set<DeviceId>, run: RunId, ids: map<DeviceId, JobId>)
    requires Refs(db) && Exclusive(db.jobs) && OnlineFree(db) && AddsRun(db, db', chosen, run, ids)
    ensures Refs(db') && Exclusive(db'.jobs) && OnlineFree(db')
  {
    forall j, k | j in db'.jobs && k in db'.jobs && j != k && db'.jobs[j].status.Active() && db'.jobs[k].status.Active()
      ensures db'.jobs[j].device != db'.jobs[k].device
    {
      if j in db.jobs && k in db.jobs {
      } else if j in db.jobs {
        assert db.devices[db'.jobs[k].device].status.Online?;
      } else if k in db.jobs {
        assert db.devices[db'.jobs[j].device].status.Online?;
      }
    }
  }

  lemma AddsRunKeepsBusyHeld(db: Db, db': Db, chosen: set<DeviceId>, run: RunId, ids: map<DeviceId, JobId>)
    requires BusyHeld(db) && AddsRun(db, db', chosen, run, ids)
    ensures BusyHeld(db')
  {
    forall d | d in db'.devices && db'.devices[d].status.Busy?
      ensures HasActiveJob(db'.jobs, d)
    {
      if d in chosen {
        assert db'.jobs[ids[d]].device == d && db'.jobs[ids[d]].status.Active();
      } else {
        var k :| k in db.jobs && db.jobs[k].device == d && db.jobs[k].status.Active();
        assert k in db'.jobs;
      }
    }
  }

  lemma CreateRunKeepsInv(s: Settings, db: Db, request: RunRequest, unlocked: set<DeviceId>, run: RunId,
                          ids: map<DeviceId, JobId>, now: Time)
    requires DbInv(s, db) && FreshIds(db, run, ids)
    requires CreateRun(s, db, request, unlocked, run, ids, now).Ok?
    ensures DbInv(s, CreateRun(s, db, request, unlocked, run, ids, now).value)
  {
    var db' := CreateRun(s, db, request, unlocked, run, ids, now).value;
    var chosen := Selected(s, db, request, unlocked, now);
    CreateRunAddsRun(s, db, request, unlocked, run, ids, now);
    AddsRunKeepsRunsOk(db, db', chosen, run, ids);
    AddsRunKeepsExclusive(db, db', chosen, run, ids);
    AddsRunKeepsBusyHeld(db, db', chosen, run, ids);
  }

  // ---------------------------------------------------------------- consequences

  function ActiveIds(jobs: Jobs): set<JobId> {
    set j | j in jobs && jobs[j].status.Active()
  }

  lemma {:induction false} DistinctImage(jobs: Jobs, ids: set<JobId>, devices: set<DeviceId>)
    requires ids <= jobs.Keys
    requires forall j :: j in ids ==> jobs[j].device in devices
    requires forall j, k :: j in ids && k in ids && j != k ==> jobs[j].device != jobs[k].device
    ensures |ids| <= |devices|
    decreases |ids|
  {
    if ids != {} {
      var j :| j in ids;
      DistinctImage(jobs, ids - {j}, devices - {jobs[j].device});
      assert |devices - {jobs[j].device}| == |devices| - 1;
    }
  }

  /** Active jobs never outnumber devices. */
  lemma ActiveJobsFitDevices(s: Settings, db: Db)
    requires DbInv(s, db)
    ensures |ActiveIds(db.jobs)| <= |db.devices.Keys|
  {
    DistinctImage(db.jobs, ActiveIds(db.jobs), db.devices.Keys);
  }

  /** The ids the reconciler returns are exactly the jobs `_claim` would accept at that instant, and no running job
      with an expired lease is left among the rows it took. */
  lemma ReconcileReturnsClaimable(s: Settings, db: Db, rows: seq<JobId>, now: Time, j: JobId, task: TaskId)
    requires s.Valid() && Refs(db) && ExpiredRows(db, rows, now)
    ensures var db', ids := ExpireAll(s, db, rows, now), Reconcile(s, db, rows, now).1;
      && (j in ids <==> ClaimResult(s, db', j, task, now).Some?)
      && (j in rows ==> j in db'.jobs && !LeaseExpired(db'.jobs[j], now) && (j in ids || db'.jobs[j].status.Failed?))
  {
    ExpireAllRows(s, db, rows, now);
    var db' := ExpireAll(s, db, rows, now);
    if j in rows {
      assert j in db.jobs && LeaseExpired(db.jobs[j], now);
      assert db'.jobs[j] == Effect(s, Expire, db.jobs[j], now);
    }
  }

  /** The rows after the loop: every row taken has moved once, all other rows are untouched. */
  lemma {:induction false} ExpireAllRows(s: Settings, db: Db, rows: seq<JobId>, now: Time)
    requires s.Valid() && Refs(db) && ExpiredRows(db, rows, now)
    ensures var db' := ExpireAll(s, db, rows, now);
      && db'.jobs.Keys == db.jobs.Keys
      && (forall j :: j in db.jobs ==>
            db'.jobs[j] == if j in rows then Effect(s, Expire, db.jobs[j], now) else db.jobs[j])
    decreases |rows|
  {
    if rows != [] {
      var prefix, last := rows[..|rows| - 1], rows[|rows| - 1];
      assert last !in prefix && rows == prefix + [last];
      ExpireAllRows(s, db, prefix, now);
      var before := ExpireAll(s, db, prefix, now);
      assert before.jobs[last] == db.jobs[last];
      PerformRows(s, before, Expire, last, now);
      assert forall j :: j in rows <==> j in prefix || j == last;
    }
  }

  lemma {:induction false} SettledChain(dbs: seq<Db>, i: nat, k: nat, r: RunId)
    requires i <= k < |dbs| && forall m :: 0 <= m < |dbs| - 1 ==> Settled(dbs[m], dbs[m + 1], r)
    ensures Settled(dbs[i], dbs[k], r)
  {
    if i < k {
      SettledChain(dbs, i, k - 1, r);
      assert Settled(dbs[k - 1], dbs[k - 1 + 1], r);
    }
  }
}
