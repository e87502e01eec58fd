/** What registrations, heartbeats and sweeps leave in the device rows, and how long a heartbeat lasts. */
module Liveness {
  import opened Domain
  import opened Configuration
  import opened Services

  /** The boundaries of liveness agree: a released device can be reserved at once exactly when its heartbeat is fresh
      and is never swept by the scan of that instant, and of the devices not yet offline the scan takes exactly those
      whose heartbeat is not fresh. */
  lemma LivenessAgrees(s: Settings, device: Device, now: Time)
    ensures Available(s, Released(s, device, now), now) <==> HeartbeatIsFresh(device.heartbeat, now, s.heartbeatTimeout)
    ensures !Stale(s, Released(s, device, now), now)
    ensures !device.status.Offline? ==>
      (Stale(s, device, now) <==> !HeartbeatIsFresh(device.heartbeat, now, s.heartbeatTimeout))
  {
  }

  /** Only the row of device `d` may differ. */
  ghost predicate OnlyDevice(db: Db, db': Db, d: DeviceId) {
    && db'.suites == db.suites && db'.jobs == db.jobs && db'.runs == db.runs
    && db'.devices.Keys == db.devices.Keys + {d}
    && forall e :: e in db.devices && e != d ==> db'.devices[e] == db.devices[e]
  }

  ghost predicate Held(jobs: Jobs, d: DeviceId) {
    exists j :: j in jobs && jobs[j].device == d && !jobs[j].status.Passed? && !jobs[j].status.Failed?
                && !jobs[j].status.TimedOut?
  }

  lemma HeldIsActive(jobs: Jobs, d: DeviceId)
    ensures Held(jobs, d) <==> HasActiveJob(jobs, d)
  {
    if j :| j in jobs && jobs[j].device == d && !jobs[j].status.Passed? && !jobs[j].status.Failed?
            && !jobs[j].status.TimedOut? {
      assert jobs[j].status.Active();
    }
    if j :| j in jobs && jobs[j].device == d && jobs[j].status.Active() {
      assert Held(jobs, d);
    }
  }

  /** A registration stores kind, address and heartbeat; a known device is busy exactly while some job on it has not
      ended, and a new one is online. */
  lemma RegistrationMeaning(db: Db, d: DeviceId, host: bool, endpoint: string, now: Time)
    ensures var db' := RegisterDevice(db, d, host, endpoint, now);
      && OnlyDevice(db, db', d)
      && db'.devices[d] ==
         Device(host, endpoint, if d in db.devices && Held(db.jobs, d) then Busy else Online, Some(now))
  {
    HeldIsActive(db.jobs, d);
  }

  /** So does a heartbeat, which leaves kind and address; that of an unknown device is an error. */
  lemma HeartbeatMeaning(db: Db, d: DeviceId, now: Time)
    ensures d !in db.devices ==> RecordHeartbeat(db, d, now) == Err(DeviceNotFound(d))
    ensures d in db.devices ==>
      && RecordHeartbeat(db, d, now).Ok?
      && var db', device := RecordHeartbeat(db, d, now).value, db.devices[d];
         OnlyDevice(db, db', d)
         && db'.devices[d] ==
            Device(device.host, device.endpoint, if Held(db.jobs, d) then Busy else Online, Some(now))
  {
    HeldIsActive(db.jobs, d);
  }

  /** A sweep shows exactly those devices offline that have never been heard or not for the timeout. */
  lemma SweepMeaning(s: Settings, db: Db, now: Time, d: DeviceId)
    requires d in db.devices
    ensures var db', device := MarkStaleDevicesOffline(s, db, now), db.devices[d];
      && db' == db.(devices := db'.devices) && db'.devices.Keys == db.devices.Keys
      && db'.devices[d] ==
         if device.heartbeat.Some? && now < device.heartbeat.value + s.heartbeatTimeout then device
         else device.(status := Offline)
  {
    var device := db.devices[d];
    assert device.status.Offline? ==> device.(status := Offline) == device;
  }

  /** After a heartbeat at `heard` a sweep at `now` leaves the device as shown exactly until the timeout is over. */
  lemma HeartbeatLasts(s: Settings, db: Db, d: DeviceId, heard: Time, now: Time)
    requires d in db.devices
    ensures var db' := RecordHeartbeat(db, d, heard).value;
      var swept := MarkStaleDevicesOffline(s, db', now);
      d in swept.devices && (swept.devices[d].status.Offline? <==> heard + s.heartbeatTimeout <= now)
  {
  }
}
