/** Rows, status sets and identifiers of the PulseHunter control plane.

A row is a value here; `Tables.dfy` holds the mutable row objects whose
abstraction these values are. Instants and durations share one real-valued
clock. Devices are keyed by their unique name. */
module Domain {

  datatype Option<+T> = None | Some(value: T)

  datatype Result<+T, +E> = Ok(value: T) | Err(error: E)

  type Time = real

  type DeviceId = nat
  type JobId = nat
  type RunId = nat
  type SuiteId = nat

  /** The identifier of one Celery message; a redelivery keeps it. */
  type TaskId = nat

  datatype DeviceStatus = Online | Offline | Busy

  datatype RunStatus = RunQueued | RunRunning | RunPassed | RunFailed | RunCancelled {
    predicate Terminal() {
      RunPassed? || RunFailed? || RunCancelled?
    }
  }

  datatype JobStatus = Queued | Running | Retrying | Passed | Failed | TimedOut {
    predicate Active() {
      Queued? || Running? || Retrying?
    }

    predicate Terminal() {
      Passed? || Failed? || TimedOut?
    }
  }

  /** Claims count from one. */
  type AttemptNumber = n: nat | 1 <= n witness 1

  type TerminalStatus = s: JobStatus | s.Terminal() witness Passed

  datatype ErrorKind = DeviceTimeout | TransientDevice | PermanentDevice | Unexpected | WorkerLeaseExpired

  datatype ErrorDetails = ErrorDetails(kind: ErrorKind, retryable: bool, retryIn: Option<Time>)

  /** `host` says whether the device type is "windows-host". */
  datatype Device = Device(host: bool, endpoint: string, status: DeviceStatus, heartbeat: Option<Time>)

  datatype Job = Job(
    run: RunId,
    device: DeviceId,
    status: JobStatus,
    attempts: nat,
    result: Option<string>,
    logs: Option<seq<string>>,
    errorMessage: Option<string>,
    errorDetails: Option<ErrorDetails>,
    startedAt: Option<Time>,
    completedAt: Option<Time>,
    duration: Option<Time>,
    due: Option<Time>,
    lease: Option<Time>,
    worker: Option<TaskId>)

  datatype TestRun = TestRun(suite: SuiteId, status: RunStatus, startedAt: Option<Time>, completedAt: Option<Time>)

  type Devices = map<DeviceId, Device>
  type Jobs = map<JobId, Job>
  type Runs = map<RunId, TestRun>

  datatype Db = Db(suites: set<SuiteId>, devices: Devices, jobs: Jobs, runs: Runs)

  function Min(a: real, b: real): real {
    if a <= b then a else b
  }

  function Max(a: real, b: real): real {
    if a <= b then b else a
  }

  function Seconds(milliseconds: Time): Time {
    milliseconds / 1000.0
  }

  /** The total length of `count` equal durations. */
  function Repeated(count: nat, length: Time): Time {
    if count == 0 then 0.0 else Repeated(count - 1, length) + length
  }

  lemma {:induction false} RepeatedIsProduct(count: nat, length: Time)
    ensures Repeated(count, length) == count as real * length
  {
    if count > 0 {
      RepeatedIsProduct(count - 1, length);
      var x := (count - 1) as real;
      assert (x + 1.0) * length == x * length + length;
    }
  }

  /** A heartbeat exactly `timeout` old is already stale. */
  predicate HeartbeatIsFresh(last: Option<Time>, now: Time, timeout: Time) {
    last.Some? && last.value > now - timeout
  }
}
