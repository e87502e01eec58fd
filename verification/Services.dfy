/** Every service function as one transaction on the database: the specification that the methods of `Tables.dfy`
    implement, the steps of `Protocol.dfy` perform and the commits of `Commits.dfy` refine. */
module Services {
  import opened Domain
  import opened Identifiers
  import opened Configuration
  import opened JobMachine
  import opened Aggregation

  /** Foreign keys of the job table. */
  ghost predicate Refs(db: Db) {
    forall j :: j in db.jobs ==> db.jobs[j].run in db.runs && db.jobs[j].device in db.devices
  }

  // ---------------------------------------------------------------- worker transactions

  function Released(s: Settings, device: Device, now: Time): Device {
    device.(status := if HeartbeatIsFresh(device.heartbeat, now, s.heartbeatTimeout) then Online else Offline)
  }

  ghost function Reaggregated(runs: Runs, jobs: Jobs, r: RunId, now: Time): Runs
    requires r in runs
  {
    runs[r := RecomputeRow(runs[r], jobs, r, now)]
  }

  /** One job transaction: test the guard on the row, update it, release the device of a finished job, re-aggregate
      the run. An unknown job or a refused guard changes nothing. */
  ghost function Perform(s: Settings, db: Db, a: Action, j: JobId, now: Time): (db': Db)
    requires Refs(db)
    ensures Refs(db')
  {
    if j !in db.jobs || !Accepts(a, db.jobs[j], now) then db
    else
      var job := db.jobs[j];
      var job' := Effect(s, a, job, now);
      var jobs' := db.jobs[j := job'];
      var devices' := if job'.status.Terminal()
                      then db.devices[job.device := Released(s, db.devices[job.device], now)]
                      else db.devices;
      Db(db.suites, devices', jobs', Reaggregated(db.runs, jobs', job.run, now))
  }

  /** An accepted transaction moves one job row and re-aggregates one run row. */
  lemma PerformRows(s: Settings, db: Db, a: Action, j: JobId, now: Time)
    requires Refs(db) && j in db.jobs && Accepts(a, db.jobs[j], now)
    ensures var db' := Perform(s, db, a, j, now);
      && db'.jobs == db.jobs[j := Effect(s, a, db.jobs[j], now)]
      && db'.runs == Reaggregated(db.runs, db'.jobs, db.jobs[j].run, now)
    ensures var job' := Effect(s, a, db.jobs[j], now);
      db.jobs[j].status.Active() && job'.device == db.jobs[j].device && job'.run == db.jobs[j].run
  {
  }

  /** A claim a worker holds while it calls the device. */
  datatype Claimed = Claimed(task: TaskId, job: JobId, attempt: AttemptNumber, timeout: Time)

  ghost function ClaimAction(s: Settings, db: Db, j: JobId, task: TaskId): Action
    requires Refs(db) && j in db.jobs
  {
    Claim(task, s.CallTimeout(db.devices[db.jobs[j].device].host))
  }

  /** `_claim` as a transaction on the database ... */
  ghost function ClaimJob(s: Settings, db: Db, j: JobId, task: TaskId, now: Time): Db
    requires Refs(db)
  {
    if j in db.jobs then Perform(s, db, ClaimAction(s, db, j, task), j, now) else db
  }

  /** ... and the claim it returns. */
  ghost function ClaimResult(s: Settings, db: Db, j: JobId, task: TaskId, now: Time): Option<Claimed>
    requires Refs(db)
  {
    if j !in db.jobs || !Claimable(db.jobs[j], now) then None
    else Some(Claimed(task, j, db.jobs[j].attempts + 1, ClaimAction(s, db, j, task).timeout))
  }

  /** A device reports the time it took in milliseconds. */
  datatype Response = Response(passed: bool, result: string, logs: seq<string>, error: Option<string>, durationMs: Time)

  /** How the HTTP call to the device ended, as `JobExecutor.execute` tells the cases apart. */
  datatype CallOutcome =
    | Responded(response: Response)
    | CallTimedOut(message: string)
    | CallTransient(message: string)
    | CallPermanent(message: string)
    | CallUnexpected(message: string)

  function RetryableFailure(s: Settings, c: Claimed, kind: ErrorKind, message: string, exhausted: TerminalStatus,
                            elapsed: Time): Action
  {
    if c.attempt >= s.maxAttempts then
      Finish(c.task, exhausted, elapsed, None, None, Some(message), Some(ErrorDetails(kind, true, None)))
    else
      Retry(c.task, c.attempt, kind, message, elapsed)
  }

  function OutcomeAction(s: Settings, c: Claimed, outcome: CallOutcome, elapsed: Time): Action {
    match outcome
    case Responded(r) =>
      Finish(c.task, if r.passed then Passed else Failed, Seconds(r.durationMs), Some(r.result), Some(r.logs),
             r.error, None)
    case CallTimedOut(m) => RetryableFailure(s, c, DeviceTimeout, m, TimedOut, elapsed)
    case CallTransient(m) => RetryableFailure(s, c, TransientDevice, m, Failed, elapsed)
    case CallPermanent(m) =>
      Finish(c.task, Failed, elapsed, None, None, Some(m), Some(ErrorDetails(PermanentDevice, false, None)))
    case CallUnexpected(m) => RetryableFailure(s, c, Unexpected, m, Failed, elapsed)
  }

  /** The second transaction of `execute`: retry or terminal write, fenced by the task identifier. */
  ghost function EndAttempt(s: Settings, db: Db, c: Claimed, outcome: CallOutcome, elapsed: Time, now: Time): Db
    requires Refs(db)
  {
    Perform(s, db, OutcomeAction(s, c, outcome, elapsed), c.job, now)
  }

  // ---------------------------------------------------------------- reconciler

  /** Each row is handled with the run aggregation that follows it, in the order the query returned the rows. */
  ghost function ExpireAll(s: Settings, db: Db, rows: seq<JobId>, now: Time): (db': Db)
    requires Refs(db)
    ensures Refs(db')
    decreases |rows|
  {
    if rows == [] then db
    else
      var before := ExpireAll(s, db, rows[..|rows| - 1], now);
      Perform(s, before, Expire, rows[|rows| - 1], now)
  }

  /** A possible answer to the lease query: rows locked by others are skipped, the order is arbitrary. */
  ghost predicate ExpiredRows(db: Db, rows: seq<JobId>, now: Time) {
    && (forall i :: 0 <= i < |rows| ==> rows[i] in db.jobs && LeaseExpired(db.jobs[rows[i]], now))
    && NoDuplicates(rows)
  }

  /** The dispatch query of the reconciler. */
  predicate Dispatchable(job: Job, now: Time) {
    || job.status.Queued?
    || (job.status.Retrying? && (job.due.None? || job.due.value <= now))
  }

  function DispatchIds(db: Db, now: Time): set<JobId> {
    set j | j in db.jobs && Dispatchable(db.jobs[j], now)
  }

  ghost function Reconcile(s: Settings, db: Db, rows: seq<JobId>, now: Time): (Db, set<JobId>)
    requires Refs(db)
  {
    var db' := ExpireAll(s, db, rows, now);
    (db', DispatchIds(db', now))
  }

  // ---------------------------------------------------------------- devices

  ghost predicate HasActiveJob(jobs: Jobs, d: DeviceId) {
    exists j :: j in jobs && jobs[j].device == d && jobs[j].status.Active()
  }

  ghost function SeenStatus(jobs: Jobs, d: DeviceId): DeviceStatus {
    if HasActiveJob(jobs, d) then Busy else Online
  }

  ghost function RegisterDevice(db: Db, d: DeviceId, host: bool, endpoint: string, now: Time): Db {
    var status := if d in db.devices then SeenStatus(db.jobs, d) else Online;
    db.(devices := db.devices[d := Device(host, endpoint, status, Some(now))])
  }

  datatype DeviceError = DeviceNotFound(device: DeviceId)

  ghost function RecordHeartbeat(db: Db, d: DeviceId, now: Time): Result<Db, DeviceError> {
    if d !in db.devices then Err(DeviceNotFound(d))
    else Ok(db.(devices := db.devices[d := db.devices[d].(heartbeat := Some(now), status := SeenStatus(db.jobs, d))]))
  }

  predicate Stale(s: Settings, device: Device, now: Time) {
    && device.status in {Online, Busy}
    && (device.heartbeat.None? || device.heartbeat.value <= now - s.heartbeatTimeout)
  }

  function MarkStaleDevicesOffline(s: Settings, db: Db, now: Time): Db {
    db.(devices := map d | d in db.devices ::
          if Stale(s, db.devices[d], now) then db.devices[d].(status := Offline) else db.devices[d])
  }

  // ---------------------------------------------------------------- reservation

  datatype CreateError = TestSuiteNotFound | NoAvailableDevices

  /** `available_devices_query`. */
  predicate Available(s: Settings, device: Device, now: Time) {
    && device.status.Online?
    && device.heartbeat.Some?
    && device.heartbeat.value > now - s.heartbeatTimeout
  }

  datatype RunRequest = RunRequest(suite: SuiteId, devices: Option<seq<DeviceId>>)

  /** The rows the reservation query returns when all but `unlocked` are skipped. */
  function Selected(s: Settings, db: Db, request: RunRequest, unlocked: set<DeviceId>, now: Time): set<DeviceId> {
    set d | d in db.devices && d in unlocked && Available(s, db.devices[d], now)
            && (request.devices.Some? ==> d in request.devices.value)
  }

  /** Generated identifiers are new and distinct. */
  ghost predicate FreshIds(db: Db, run: RunId, ids: map<DeviceId, JobId>) {
    && run !in db.runs
    && db.devices.Keys <= ids.Keys
    && (forall d, e :: d in ids && e in ids && d != e ==> ids[d] != ids[e])
    && (forall d :: d in ids ==> ids[d] !in db.jobs)
  }

  function NewJob(run: RunId, d: DeviceId): Job {
    Job(run, d, Queued, 0, None, None, None, None, None, None, None, None, None, None)
  }

  /** One queued job per chosen device, under its generated identifier. */
  ghost function NewJobs(chosen: set<DeviceId>, run: RunId, ids: map<DeviceId, JobId>): (jobs: Jobs)
    requires chosen <= ids.Keys
    requires forall d, e :: d in ids && e in ids && d != e ==> ids[d] != ids[e]
    ensures forall d :: d in chosen ==> ids[d] in jobs && jobs[ids[d]] == NewJob(run, d)
    ensures forall j :: j in jobs ==> jobs[j].device in chosen && j == ids[jobs[j].device]
    ensures forall j :: j in jobs ==> jobs[j] == NewJob(run, jobs[j].device)
  {
    map d | d in chosen :: ids[d] := NewJob(run, d)
  }

  ghost function Reserved(devices: Devices, chosen: set<DeviceId>): Devices {
    map d | d in devices :: if d in chosen then devices[d].(status := Busy) else devices[d]
  }

  ghost function CreateRun(s: Settings, db: Db, request: RunRequest, unlocked: set<DeviceId>, run: RunId,
                           ids: map<DeviceId, JobId>, now: Time): Result<Db, CreateError>
    requires FreshIds(db, run, ids)
  {
    var chosen := Selected(s, db, request, unlocked, now);
    if request.suite !in db.suites then Err(TestSuiteNotFound)
    else if request.devices.Some? && |chosen| != |request.devices.value| then Err(NoAvailableDevices)
    else if chosen == {} then Err(NoAvailableDevices)
    else Ok(Db(db.suites, Reserved(db.devices, chosen), db.jobs + NewJobs(chosen, run, ids),
               db.runs[run := TestRun(request.suite, RunQueued, None, None)]))
  }
}
