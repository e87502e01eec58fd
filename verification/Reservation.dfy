/** All-or-nothing reservation: what `create_run` does for every request and every set of locked rows. */
module Reservation {
  import opened Domain
  import opened Identifiers
  import opened Configuration
  import opened Aggregation
  import opened Services
  import opened DatabaseInvariant

  /** The device is online with a heartbeat younger than the timeout, and nobody else has locked its row. */
  ghost predicate Reservable(s: Settings, db: Db, unlocked: set<DeviceId>, now: Time, d: DeviceId) {
    && d in db.devices && d in unlocked
    && db.devices[d].status.Online?
    && db.devices[d].heartbeat.Some? && now < db.devices[d].heartbeat.value + s.heartbeatTimeout
  }

  /** A request that names devices asks for those, any other request for all. */
  ghost predicate Wanted(request: RunRequest, d: DeviceId) {
    request.devices.Some? ==> d in request.devices.value
  }

  lemma SelectedExactly(s: Settings, db: Db, request: RunRequest, unlocked: set<DeviceId>, now: Time, d: DeviceId)
    ensures d in Selected(s, db, request, unlocked, now) <==> Wanted(request, d) && Reservable(s, db, unlocked, now, d)
  {
  }

  /** For a request that names its devices, whatever rows are locked by others: the run is created if and only if the
      suite is known, the list is non-empty, names no device twice and every named device is reservable. The comparison
      of lengths in the source decides this because a repeated id can never be matched twice. */
  lemma ExplicitReservationExactly(s: Settings, db: Db, request: RunRequest, unlocked: set<DeviceId>, run: RunId,
                                   ids: map<DeviceId, JobId>, now: Time)
    requires FreshIds(db, run, ids) && request.devices.Some?
    ensures var wanted := request.devices.value;
      CreateRun(s, db, request, unlocked, run, ids, now).Ok? <==>
        && request.suite in db.suites && wanted != [] && NoDuplicates(wanted)
        && forall d :: d in wanted ==> Reservable(s, db, unlocked, now, d)
  {
    var wanted, chosen := request.devices.value, Selected(s, db, request, unlocked, now);
    ElementsSize(wanted);
    assert chosen <= Elements(wanted);
    SubsetSize(chosen, Elements(wanted));
    if forall d :: d in wanted ==> Reservable(s, db, unlocked, now, d) {
      forall d | d in wanted ensures d in chosen { SelectedExactly(s, db, request, unlocked, now, d); }
      assert chosen == Elements(wanted);
      if wanted != [] { assert wanted[0] in chosen; }
    }
    if chosen == Elements(wanted) {
      forall d | d in wanted ensures Reservable(s, db, unlocked, now, d) { assert d in chosen; }
    }
  }

  /** For a request that names none: if and only if the suite is known and some device is reservable. */
  lemma OpenReservationExactly(s: Settings, db: Db, request: RunRequest, unlocked: set<DeviceId>, run: RunId,
                               ids: map<DeviceId, JobId>, now: Time)
    requires FreshIds(db, run, ids) && request.devices.None?
    ensures CreateRun(s, db, request, unlocked, run, ids, now).Ok? <==>
      request.suite in db.suites && exists d :: Reservable(s, db, unlocked, now, d)
  {
    var chosen := Selected(s, db, request, unlocked, now);
    if d :| Reservable(s, db, unlocked, now, d) { SelectedExactly(s, db, request, unlocked, now, d); }
    if d :| d in chosen { SelectedExactly(s, db, request, unlocked, now, d); }
  }

  /** An unknown suite is reported as such, whatever else is wrong; any other refusal is for want of devices. */
  lemma RefusedReservation(s: Settings, db: Db, request: RunRequest, unlocked: set<DeviceId>, run: RunId,
                           ids: map<DeviceId, JobId>, now: Time)
    requires FreshIds(db, run, ids)
    ensures var result := CreateRun(s, db, request, unlocked, run, ids, now);
      && (request.suite !in db.suites <==> result == Err(TestSuiteNotFound))
      && (result.Err? && request.suite in db.suites ==> result == Err(NoAvailableDevices))
  {
  }

  /** On success every wanted device that was reservable is busy and has exactly one job of the new run, queued and
      without any history; every other device, every old job and every old run is as before. */
  lemma ReservationEffect(s: Settings, db: Db, request: RunRequest, unlocked: set<DeviceId>, run: RunId,
                          ids: map<DeviceId, JobId>, now: Time, d: DeviceId)
    requires Refs(db) && FreshIds(db, run, ids) && CreateRun(s, db, request, unlocked, run, ids, now).Ok?
    requires d in db.devices
    ensures var db' := CreateRun(s, db, request, unlocked, run, ids, now).value;
      && d in db'.devices
      && (if Wanted(request, d) && Reservable(s, db, unlocked, now, d) then
            && db'.devices[d] == db.devices[d].(status := Busy)
            && ids[d] in db'.jobs
            && db'.jobs[ids[d]] == Job(run, d, Queued, 0, None, None, None, None, None, None, None, None, None, None)
            && forall j :: InRun(db'.jobs, j, run) && db'.jobs[j].device == d ==> j == ids[d]
          else
            && db'.devices[d] == db.devices[d]
            && forall j :: InRun(db'.jobs, j, run) ==> db'.jobs[j].device != d)
  {
    CreateRunAddsRun(s, db, request, unlocked, run, ids, now);
    SelectedExactly(s, db, request, unlocked, now, d);
    var db' := CreateRun(s, db, request, unlocked, run, ids, now).value;
    assert forall j :: InRun(db'.jobs, j, run) ==> j !in db.jobs;
  }

  lemma ReservationKeeps(s: Settings, db: Db, request: RunRequest, unlocked: set<DeviceId>, run: RunId,
                         ids: map<DeviceId, JobId>, now: Time)
    requires Refs(db) && FreshIds(db, run, ids) && CreateRun(s, db, request, unlocked, run, ids, now).Ok?
    ensures var db' := CreateRun(s, db, request, unlocked, run, ids, now).value;
      && db'.suites == db.suites && db'.devices.Keys == db.devices.Keys
      && (forall j :: j in db.jobs ==> j in db'.jobs && db'.jobs[j] == db.jobs[j])
      && (forall j :: j in db'.jobs && j !in db.jobs ==> db'.jobs[j].run == run)
      && db'.runs == db.runs[run := TestRun(request.suite, RunQueued, None, None)]
  {
    CreateRunAddsRun(s, db, request, unlocked, run, ids, now);
  }
}
