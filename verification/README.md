# PulseHunter: the durable job protocol

PulseHunter reserves devices for a validation run, queues one job per device, lets workers claim the jobs under a
lease, retries failed attempts with backoff, recovers work that was lost, and derives the status of the run from its
jobs. PostgreSQL rows are the state and every service function is one transaction; broker messages may be lost,
duplicated and reordered, and a worker may die between its claim and its final write. This project models that
protocol and proves its safety, its recovery, and what its two clients (the device and the CI gate) may rely on.

`dafny verify dfyconfig.toml` checks the whole project.

## How the model is built

Rows are values (`Domain`). One function `JobMachine.Effect` says what each of the four job transactions (claim, retry,
finish, lease expiry) does to the row it has locked, behind the guard `JobMachine.Accepts`; `Services` makes each
service function of it a transaction on the whole database. Everything else is proved about these functions.

| files | what they hold |
|---|---|
| `Domain`, `Identifiers`, `Configuration` | rows, statuses, lists of identifiers, settings, the limits derived from settings, backoff |
| `JobMachine`, `Aggregation`, `Services` | job state machine, run aggregation, every service function as one transaction |
| `Tables` | the same functions as methods on mutable row objects, with the loops of the source, each proved equal to its transaction |
| `RowMeaning`, `Liveness`, `Reservation` | what every transaction of workers, reconciler, devices and reservations leaves in the rows, field by field |
| `DatabaseInvariant`, `ReconcileOrder` | the database invariant; the recovery loop as a simultaneous update |
| `Protocol`, `TaskRule`, `History`, `LateWrites`, `Recovery`, `ShownStatus` | the system as a state machine (database, clock, message bag, live executions), its rule on task identifiers, and what holds over whole executions |
| `ReadCommitted`, `PendingWrites`, `RowLocks`, `Commits`, `Interleaving`, `LiveSchedules`, `BusyDevices`, `QuietFinish` | the transactions split into single statements with row locks under READ COMMITTED, their refinement of the atomic steps, and what holds at every commit |
| `Agent`, `Budget` | the two device engines; the executor's attempts composed with the scripted simulator |
| `RunCounts`, `CiGate`, `GateSoundness` | job counts; the CI client's wait loop and exit codes, and what they say about the server |

Assumptions on the environment, all explicit in the definitions:

- The clock never goes back, and settings do not change while the system runs.
- Two live executions never share a task identifier (`Protocol.Enabled`, label `Deliver`; `LiveSchedules.TaskFree` in
  the interleaved layer). A message that is redelivered keeps its identifier. `TaskRule` derives the rule from the
  timing settings for messages that the broker offers again at the visibility timeout, counted from their delivery
  (`TaskRule.ReofferedLate`), and says exactly when it can fail. A message rejected because its worker process was lost
  is offered again at once; the earlier execution is dead then.
- Generated identifiers are new. The answer of a query whose order or choice the source leaves open (rows skipped
  because they are locked, expired rows in any order) is a parameter.
- A device call is an arbitrary outcome: response, timeout, transient, permanent or unexpected error.
- Instants and durations are real numbers on one clock.

Three results are worth knowing before reading the code:

- "A busy device has an active job" holds when transactions are atomic, and fails under READ COMMITTED.
  `BusyDevices.AlwaysBusyHeldExactly` says for every schedule that it holds throughout if and only if each commit meets
  a condition on the transaction that commits. The cause is one read: `_finish`, like the final lease expiry, loads the
  device without a row lock, and if that row is offline with a stale heartbeat the release changes nothing and is not
  written, while a heartbeat makes the device busy. `QuietFinish.LoudSchedule` shows that the property holds in every
  schedule in which no transaction loads such a row, and `QuietFinish.BusyCanOutliveItsJob` that from every database
  with such a row it fails, whichever of the two transactions commits last. Exclusive reservation and "online means free" hold in both layers.
- `docs/architecture.md:114-115` calls a device busy while it has an active job. The code lets the stale sweep show
  such a device offline (`src/pulsehunter/services/devices.py:96-103`), and the model follows the code.
  `ShownStatus.ReservedCanBeOffline` is an execution from the empty system in which it happens,
  `ShownStatus.BusyUntilSwept` says that a sweep of a stale heartbeat is the only step that does it,
  `ShownStatus.ShownExactly` gives the status shown at every moment, and `ShownStatus.ReservedShown` what remains true:
  a reserved device is never online, and busy whenever its heartbeat is fresh.
- The settings do not relate the retry countdown to the broker's visibility timeout. `TaskRule.OverlapExactly`: two
  executions of one message can be under way at the same time if and only if the longest wait of a delivered message
  plus the hard limit exceeds the visibility timeout, and then two of them can hold live claims on the job
  (`TaskRule.TwinClaimsExactly`). Waits of up to two hard limits are harmless (`TaskRule.ShortWaitsAreSafe`); a backoff
  cap that is large enough is not, although `validate_intervals` accepts it (`TaskRule.LongCountdownOverlaps`). What
  happens then is what `docs/architecture.md:147` rules out: in `LateWrites.LateWriteOverwrites` the write of the
  superseded execution goes through although another one holds the current claim.

## Model

| member | source | states |
|---|---|---|
| `Configuration.LimitsOrdered` | src/pulsehunter/core/config.py:49-63 | for all valid settings, truncation to int included: call timeout < lease < worker hard limit, and three hard limits fit into the visibility timeout |
| `Configuration.LimitsExactly` | src/pulsehunter/core/config.py:49-63 | the hard limit is the longer call timeout plus grace plus five seconds in whole seconds, at least ten; the visibility timeout three times that, at least sixty |
| `TaskRule.TimingChain` | src/pulsehunter/tasks/celery_app.py:22-28 | counted from deliveries, with waits before the execution: between two executions of one message lies at least the visibility timeout less hard limit and wait |
| `TaskRule.OverlapExactly` | src/pulsehunter/core/config.py:60-63 | two executions of one message can be under way at the same time iff wait plus hard limit exceed the visibility timeout |
| `TaskRule.TwinClaimsExactly` | src/pulsehunter/core/config.py:60-63 | under the same condition, and no other, the later one can claim the job after the lease of the earlier claim has run out and before the earlier execution ends |
| `TaskRule.ShortWaitsAreSafe` | src/pulsehunter/core/config.py:49-63 | for all valid settings they cannot when the wait is at most two hard limits |
| `TaskRule.LongCountdownOverlaps` | src/pulsehunter/core/config.py:37-47 | any valid settings stay valid with a backoff whose first countdown lets executions overlap |
| `TaskRule.DeliveryIsGuarded` | src/pulsehunter/tasks/jobs.py:18-28 | the rule that no live execution has the task identifier of a delivered message follows from the timing of that message's deliveries |
| `Configuration.DelayInClosedForm` | src/pulsehunter/services/execution.py:186-189 | the wait after attempt n + 1 is min(base * 2^n, cap) |
| `Configuration.BackoffLaw` | src/pulsehunter/services/execution.py:186-189 | every wait lies in [base, cap], waits never shrink, and they double until capped |
| `Configuration.BackoffSumDoubling` | src/pulsehunter/services/execution.py:186-199 | the first n waits sum to at most base * (2^n - 1) |
| `Configuration.BackoffSumCapped` | src/pulsehunter/services/execution.py:186-199 | the first n waits sum to at most n * cap |
| `JobMachine.NoInvalidTransition` | src/pulsehunter/services/jobs.py:13-44 | behind its guard every claim, retry, finish and expiry makes a legal move: InvalidJobTransitionError is never raised |
| `RowMeaning.TransitionExactly` | src/pulsehunter/services/jobs.py:13-44 | a change of status is legal from queued or retrying to running and from running to retrying or a terminal status, and no other; asking for the present status changes nothing |
| `RowMeaning.ClaimMeaning` | src/pulsehunter/services/execution.py:125-164 | a queued job, or a retrying one not due later, becomes running under the task, with one attempt more, no due time, and a lease of the device kind's call timeout (host or simulator) plus grace; the claim returned carries that attempt and timeout; any other job, and an unknown one, changes nothing |
| `RowMeaning.AnswerMeaning` | src/pulsehunter/services/execution.py:113-123 | an answer ends an owned job whatever the attempt, passed iff it passed, with exactly its result, logs, error and duration in seconds; the device is released |
| `RowMeaning.PermanentMeaning` | src/pulsehunter/services/execution.py:93-102 | a permanent error fails an owned job at once whatever the attempt, with non-retryable details; the device is released |
| `RowMeaning.TimeoutMeaning` | src/pulsehunter/services/execution.py:77-84 | a timeout makes an owned job retrying with its attempts below the maximum, due after base * 2^(attempt - 1) or the cap, with the device kept; at the maximum it is timed out and the device released |
| `RowMeaning.TransientMeaning` | src/pulsehunter/services/execution.py:85-92 | the same for a transient error, which fails the job at the maximum |
| `RowMeaning.UnexpectedMeaning` | src/pulsehunter/services/execution.py:103-111 | the same for an unexpected error |
| `RowMeaning.NotOwned` | src/pulsehunter/services/execution.py:252-258 | an attempt that does not own the running row ends without any effect |
| `RowMeaning.RecoveryMeaning` | src/pulsehunter/services/maintenance.py:40-77 | a row with an expired lease is due at once with its attempts, or failed when they are used up, in every field; other rows are untouched; exactly the waiting jobs are returned |
| `RowMeaning.RecoveryReleases` | src/pulsehunter/services/maintenance.py:45-49 | exactly the devices of rows whose attempts are used up are released |
| `RowMeaning.RunMeaning` | src/pulsehunter/services/runs.py:111-129 | after any job transaction the run has the aggregated status, its first start instant, and as completion instant that of the transaction which ends its last job |
| `JobMachine.Effect` | src/pulsehunter/services/jobs.py:46-57 | any accepted action finds the job active, keeps its run and device, never puts it back in the queue, and sets the start instant at the first claim only |
| `JobMachine.EffectKeepsShape` | src/pulsehunter/services/execution.py:198-200 | no stuck rows: running always has a lease and no due time, retrying a due time and no lease, queued no attempts; and 2 * (max - attempts) + (1 if running) strictly falls at each transition |
| `Aggregation.AggregateMeaning` | docs/architecture.md:109-112 | the aggregated status is queued iff no job has started, running iff a job is active and one has started, passed iff there are jobs and all passed, failed iff all are terminal and one failed or timed out |
| `Aggregation.AggregationFrame` | src/pulsehunter/services/runs.py:104-106 | aggregation depends on the jobs of the run alone |
| `Aggregation.RecomputeKeepsRunOk` | src/pulsehunter/services/runs.py:91-129 | after one active job of a run has moved, recomputing leaves the row equal to the aggregate, started exactly when not queued, completed exactly when terminal, with an earlier start instant kept |
| `DatabaseInvariant.PerformKeepsInv` | src/pulsehunter/services/execution.py:191-209 | each fenced job transaction keeps the whole invariant: row shapes, no device with two active jobs, no online device with one, every busy device with one, every run equal to its aggregate |
| `DatabaseInvariant.PerformKeepsDevices` | src/pulsehunter/services/devices.py:120-134 | a device row changes only when the job that holds it ends, and then nothing holds it; so no online device gets an active job, and each busy device keeps one |
| `DatabaseInvariant.RegisterKeepsInv` | src/pulsehunter/services/devices.py:35-64 | (re-)registration keeps the invariant: a reserved device does not become available |
| `DatabaseInvariant.HeartbeatKeepsInv` | src/pulsehunter/services/devices.py:67-85 | so does a heartbeat |
| `DatabaseInvariant.SweepKeepsInv` | src/pulsehunter/services/devices.py:88-104 | so does the stale sweep, of reserved devices too |
| `DatabaseInvariant.CreateRunKeepsInv` | src/pulsehunter/services/runs.py:39-88 | so does a reservation |
| `DatabaseInvariant.ExpireAllKeepsInv` | src/pulsehunter/services/maintenance.py:40-56 | so does the recovery loop |
| `DatabaseInvariant.ActiveJobsFitDevices` | src/pulsehunter/services/runs.py:77-86 | active jobs never outnumber devices |
| `DatabaseInvariant.ReconcileReturnsClaimable` | src/pulsehunter/services/maintenance.py:58-77 | the ids returned at an instant are exactly the jobs `_claim` accepts at that instant; every expired row taken is dispatched or failed |
| `DatabaseInvariant.ExpireAllRows` | src/pulsehunter/services/maintenance.py:40-55 | the loop moves every row it took once and touches no other job |
| `Reservation.ExplicitReservationExactly` | src/pulsehunter/services/runs.py:47-66 | for any rows locked by others, a run with named devices is created iff the suite is known, the list is non-empty, free of duplicates, and every named device is online with a fresh heartbeat and not locked |
| `Reservation.OpenReservationExactly` | src/pulsehunter/services/runs.py:47-66 | a run without named devices is created iff the suite is known and some device of whatever kind is so |
| `Reservation.RefusedReservation` | src/pulsehunter/services/runs.py:47-66 | an unknown suite is reported as such, every other refusal as want of devices |
| `Liveness.LivenessAgrees` | src/pulsehunter/core/time.py:18-26 | a released device is reservable at once iff its heartbeat is fresh and is not stale at that instant; of the devices not offline the sweep takes exactly those without a fresh heartbeat |
| `Liveness.RegistrationMeaning` | src/pulsehunter/services/devices.py:41-64 | a registration stores kind, address and heartbeat; a known device is busy iff some job on it has not ended, a new one online |
| `Liveness.HeartbeatMeaning` | src/pulsehunter/services/devices.py:74-85 | a heartbeat stores its instant, with the same status rule; an unknown device is an error |
| `Liveness.SweepMeaning` | src/pulsehunter/services/devices.py:94-104 | a sweep shows exactly those devices offline that were never heard or not for the timeout |
| `Liveness.HeartbeatLasts` | src/pulsehunter/services/devices.py:79-103 | after a heartbeat a sweep shows the device offline iff the timeout has passed since |
| `Identifiers.ElementsSize` | src/pulsehunter/schemas/api.py:67-72 | a list is as long as its set iff it has no duplicates: why comparing lengths is sound for unique ids |
| `Reservation.ReservationEffect` | src/pulsehunter/services/runs.py:76-88 | exactly the wanted devices that were reservable, all of them if none was named, become busy and get one queued job without history; every other device is as before |
| `Reservation.ReservationKeeps` | src/pulsehunter/services/runs.py:68-74 | the run is queued for its suite, and no other run, job or suite changes |
| `ReconcileOrder.LoopIsSimultaneous` | src/pulsehunter/services/maintenance.py:28-56 | for any order of the expired rows the loop equals one simultaneous update, and every prefix of it keeps the invariant |
| `ReconcileOrder.OrderIrrelevant` | src/pulsehunter/services/maintenance.py:29-39 | two answers of the lease query with the same rows lead to the same database and the same ids |
| `ReconcileOrder.OnlyExhaustedReleased` | src/pulsehunter/services/maintenance.py:41-55 | only devices of jobs out of attempts are touched, and no active job holds them afterwards |
| `ReconcileOrder.FinalisedExactlyWhenDone` | src/pulsehunter/services/maintenance.py:56 | after every prefix of the rows a run is terminal iff all its jobs are: never midway |
| `ReconcileOrder.MidwayUnchanged` | src/pulsehunter/services/runs.py:111-117 | aggregating while another expired job of the run is still to come changes nothing |
| `Tables.JobRow.Transition` | src/pulsehunter/services/jobs.py:30-57 | the in-place transition equals `TransitionJob`, and an illegal one leaves the row alone |
| `Tables.RunRow.Aggregate` | src/pulsehunter/services/runs.py:101-129 | the branches over the list of statuses leave exactly the row `RecomputeRow` |
| `Tables.Database.SelectStatuses` | src/pulsehunter/services/runs.py:104-106 | the list holds the status of every job of the run exactly once |
| `Tables.ActiveListed` | src/pulsehunter/services/runs.py:111 | some listed status is active iff some job of the run is |
| `Tables.StartedListed` | src/pulsehunter/services/runs.py:112 | some listed status is not queued iff some job of the run has started |
| `Tables.PassedListed` | src/pulsehunter/services/runs.py:107-123 | all listed statuses are passed iff all jobs of the run have passed, and the list is empty iff the run has none |
| `Tables.Database.RecomputeRunStatus` | src/pulsehunter/services/runs.py:91-129 | only that run row changes, to the aggregate of its jobs; an unknown run is reported |
| `Tables.Database.ClaimJob` | src/pulsehunter/services/execution.py:125-164 | database and returned claim are those of the claim transaction; unknown, running, terminal and not yet due jobs change nothing |
| `Tables.Database.Finish` | src/pulsehunter/services/execution.py:220-250 | the terminal write with release and aggregation equals its transaction, and is void unless the caller owns the running attempt |
| `Tables.Database.HandleRetryableFailure` | src/pulsehunter/services/execution.py:166-209 | below the attempt budget the job waits for its backoff, at the budget it gets the exhausted status |
| `Tables.Database.EndAttempt` | src/pulsehunter/services/execution.py:71-122 | every kind of call outcome leads to the transaction `OutcomeAction` names for it |
| `Tables.Database.ExpireJobs` | src/pulsehunter/services/maintenance.py:40-56 | the recovery loop on row objects equals the fold of single transactions |
| `Tables.Database.ReconcileDispatchableJobs` | src/pulsehunter/services/maintenance.py:25-77 | the recovery loop followed by the dispatch query |
| `Tables.Database.RegisterDevice` | src/pulsehunter/services/devices.py:35-64 | insert or update by unique name, busy iff an active job holds the device |
| `Tables.Database.RecordHeartbeat` | src/pulsehunter/services/devices.py:67-85 | heartbeat instant and status, or an error and no change for an unknown device |
| `Tables.Database.MarkStaleDevicesOffline` | src/pulsehunter/services/devices.py:88-104 | exactly the stale online and busy rows become offline, and exactly they are counted |
| `Tables.Database.CreateRun` | src/pulsehunter/services/runs.py:39-88 | either an error and no change at all, or the run with its jobs and reservations |
| `Tables.Database.ReserveAll` | src/pulsehunter/services/runs.py:77-86 | the loop makes every row busy and adds one queued job for each |
| `Protocol.StepJob` | src/pulsehunter/services/execution.py:252-258 | jobs are never deleted, and a job row changes only by an accepted job transaction |
| `Protocol.StepFenced` | src/pulsehunter/services/execution.py:175-184 | when an execution's write is accepted it holds the job's current attempt number; a retry is then below the attempt maximum, and a time-out at it |
| `Protocol.StepKeepsInv` | src/pulsehunter/services/execution.py:125-258 | every step of the system (messages, deaths, reconciliations, heartbeats, reservations included) keeps the database invariant, and each live execution owns its row iff its claim is the latest |
| `Protocol.ExclusiveReservation` | src/pulsehunter/services/runs.py:51-88 | in every reachable state no device has two active jobs, an online device has none, a busy device has one, and active jobs never outnumber devices |
| `ShownStatus.StepShown` | src/pulsehunter/services/devices.py:61-103 | in one step a reserved device becomes offline iff a sweep finds no fresh heartbeat, busy by its own heartbeat or registration, and otherwise keeps its status |
| `ShownStatus.BusyUntilSwept` | src/pulsehunter/services/devices.py:96-103 | a busy device that stays reserved stays busy in a step iff the step is not such a sweep |
| `ShownStatus.ShownExactly` | src/pulsehunter/services/devices.py:79-103 | while a device stays reserved it is offline iff such a sweep has come and no heartbeat or registration since, else busy |
| `ShownStatus.ReservedShown` | docs/architecture.md:114-116 | in every reachable state a reserved device is busy, or offline with a heartbeat that is not fresh |
| `ShownStatus.SweepHidesReservation` | src/pulsehunter/services/devices.py:96-103 | sweeping a state with a busy device whose heartbeat is not fresh shows it offline while its job is active |
| `ShownStatus.ReservedCanBeOffline` | docs/architecture.md:114-115 | an execution from the empty system that ends with a reserved device shown offline |
| `History.AttemptAccounting` | src/pulsehunter/services/execution.py:141-142 | in every reachable state the claims handed out on a job are exactly 1, 2, ..., attempts, each once, in this order |
| `History.BudgetRespected` | src/pulsehunter/services/execution.py:132-142 | attempts equals the number of claims and never exceeds the maximum although `_claim` does not check it; timed out implies all attempts used |
| `History.Fencing` | src/pulsehunter/services/execution.py:252-258 | the final write of a live execution changes the database iff its claim is the current one; a superseded write leaves the whole database as it is |
| `LateWrites.LateWriteOverwrites` | docs/architecture.md:145-147 | without the rule on task identifiers, from every state with two attempts left: claim, lease end, recovery and redelivery of the same message lead to a state in which the write of the superseded execution is accepted while another one holds the current claim |
| `History.ResultProvenance` | src/pulsehunter/services/execution.py:239-243 | a result is stored, and a job passes or times out, only by the execution whose claim number is the job's attempts |
| `History.StepForward` | src/pulsehunter/services/jobs.py:13-27 | at every step of the system a terminal job row is frozen in every field, a start instant is never changed, attempts never fall, and the measure falls exactly at the transitions |
| `History.Forward` | src/pulsehunter/services/jobs.py:39-57 | the same over any stretch of an execution |
| `History.StaysClaimable` | src/pulsehunter/services/execution.py:132-139 | a claimable job stays claimable, its row untouched, until a claim raises its attempts |
| `History.BackoffRespected` | src/pulsehunter/services/execution.py:134-139 | however many duplicates arrive, no claim follows the handled failure of attempt n sooner than delay n |
| `History.TransitionsBounded` | src/pulsehunter/services/jobs.py:13-27 | the measure plus the number of transitions so far never exceeds twice the attempt maximum |
| `History.TotalTransitionsBounded` | src/pulsehunter/services/jobs.py:13-27 | J jobs make at most 2 * max attempts * J transitions, whatever duplicates, deaths and reconciliations occur |
| `History.StepRun` | src/pulsehunter/services/runs.py:101-129 | a run moves only queued, running, then passed or failed; a terminal run row is frozen; no job joins or leaves |
| `History.RunsForward` | src/pulsehunter/services/runs.py:101-102 | the same over any stretch of an execution |
| `Recovery.RoundProgress` | src/pulsehunter/services/maintenance.py:25-77 | an overdue reconciliation whose returned ids are delivered afterwards ends each earlier job or costs it an attempt, whatever else happens meanwhile |
| `Recovery.RecoveryFinishesJobs` | src/pulsehunter/services/maintenance.py:28-77 | after max attempts + 1 such rounds every earlier job is terminal |
| `Recovery.RecoveryFinishesRuns` | src/pulsehunter/services/runs.py:111-129 | and every earlier run is terminal |
| `Recovery.RecoveryFreesDevices` | src/pulsehunter/services/maintenance.py:45-49 | and, unless new jobs were created, no device is reserved |
| `Recovery.RoundPossible` | src/pulsehunter/web.py:169-175 | from every state such a round can be made, even with every message lost and every worker dead |
| `Recovery.RecoveryPossible` | src/pulsehunter/services/execution.py:211-217 | so from every state with the invariant the system can reach one in which all its jobs and runs are terminal and no device is reserved |
| `PendingWrites.WritesArePerformed` | src/pulsehunter/services/maintenance.py:40-56 | the pending job and run writes of a transaction are those of the atomic transactions on its rows, one after the other |
| `RowLocks.RunWritesFrame` | src/pulsehunter/services/runs.py:98-106 | the run lock held to the end keeps pending run rows right while others commit |
| `Commits.CommitRefinesAtomicStep` | src/pulsehunter/services/execution.py:233-250 | a commit is the atomic transaction on the rows committed at that moment |
| `Commits.CreateCommitRefines` | src/pulsehunter/services/runs.py:57-88 | so is the commit of a reservation, although its rows were read earlier |
| `Commits.StepKeepsSysInv` | src/pulsehunter/db/session.py:11-22 | every single statement, commit and abort of any transaction keeps locks apart, pending writes right, and the committed rows consistent |
| `Interleaving.InterleavedAggregation` | src/pulsehunter/services/runs.py:98-129 | under every interleaving, after every step the committed run status is the aggregate of the committed job statuses: the last finisher is never lost |
| `Interleaving.InterleavedReservation` | src/pulsehunter/services/runs.py:57-59 | under every interleaving no device has two active jobs, an online device has none, and open reservations hold disjoint sets of free devices |
| `Interleaving.InterleavedRefinement` | src/pulsehunter/services/execution.py:191-209 | in every schedule each committing job transaction performs the atomic step of the service |
| `Interleaving.TerminalFrozen` | docs/architecture.md:112 | no step of any interleaving changes a committed terminal job or run |
| `Interleaving.InterleavedSettled` | src/pulsehunter/services/runs.py:145-156 | under every interleaving a run committed as terminal keeps its row and exactly its jobs, all terminal, so separate reads agree |
| `LiveSchedules.MoveKeepsInv` | src/pulsehunter/services/execution.py:125-258 | every statement, commit and abort, and every birth, end and death of an execution keeps row shapes, fences of open transactions, and the link between each live execution and its job |
| `LiveSchedules.InterleavedFencing` | src/pulsehunter/services/execution.py:191-196 | under every interleaving the transaction that would end a live execution gets past its guard iff the execution holds the current claim |
| `LiveSchedules.InterleavedEnding` | src/pulsehunter/services/execution.py:233-250 | under every interleaving an execution being ended holds the current claim until its commit, and every open retry or finish belongs to such an execution |
| `LiveSchedules.InterleavedProvenance` | src/pulsehunter/services/execution.py:239-250 | under every interleaving a committed result or log changes, and a job passes or times out, only at the commit that ends the execution whose claim number is the job's attempts |
| `LiveSchedules.InterleavedShapes` | src/pulsehunter/services/execution.py:175-184 | under every interleaving committed rows have their shapes, attempts stay within the maximum, and only the last attempt times out |
| `LiveSchedules.InterleavedAccounting` | src/pulsehunter/services/execution.py:141-142 | under every interleaving the claims committed on a job are exactly 1, 2, ..., attempts, each once, in this order |
| `BusyDevices.BusyHeldExactly` | src/pulsehunter/services/execution.py:244-248 | a step of any kind keeps "busy means an active job" iff: a committing job transaction has written the device of each job it ended or that device is not busy, and a committing heartbeat that saw an active job still sees one |
| `BusyDevices.AlwaysBusyHeldExactly` | docs/architecture.md:114-118 | in every schedule the property holds at every moment iff every step meets that condition |
| `QuietFinish.LoudSchedule` | src/pulsehunter/services/devices.py:120-134 | it holds at every moment of a schedule in which no transaction that ends a job loads a device offline with a stale heartbeat |
| `QuietFinish.BusyCanOutliveItsJob` | src/pulsehunter/services/execution.py:244-250 | from every database with such a device, for a worker's final write and for the reconciler's expiry after the last attempt: two schedules with a heartbeat after that load end with the device busy and idle, one for each order of the two commits |
| `QuietFinish.EndsJobExactly` | src/pulsehunter/services/maintenance.py:41-49 | the transactions that end a job are the final writes and the expiries after the last attempt |
| `Agent.AgentEngine.NextOutcome` | src/pulsehunter/agent/runtime.py:78-84 | the script item of the call, the last one for ever, and the call counted only in unreliable mode |
| `Agent.AgentEngine.Execute` | src/pulsehunter/agent/runtime.py:60-76 | cache and reply are those of `Serve` |
| `Agent.CacheIsPermanent` | src/pulsehunter/agent/runtime.py:60-76 | over every history of requests cache entries never change or vanish |
| `Agent.HealthyAnswer` | src/pulsehunter/agent/runtime.py:67-80 | an agent that is not unreliable starts every job it has not accepted yet, to pass |
| `Agent.ScriptedAnswer` | src/pulsehunter/agent/runtime.py:67-84 | over every history from the empty engine, the n-th request of a job not accepted yet meets script item n, or the last one: transient and disconnect refuse it, any other starts the job with that outcome |
| `Agent.AgentIdempotency` | src/pulsehunter/agent/runtime.py:60-76 | each job starts at most one execution; every later request equal up to its deadline is attached to it, and another payload is rejected without effect |
| `Agent.HostEngine.Execute` | src/pulsehunter/host_agent/runtime.py:26-44 | cache and reply are those of `ServeHost` |
| `Agent.HostStartsExactly` | src/pulsehunter/host_agent/runtime.py:26-44 | a request for a job not accepted yet starts an execution iff suite and definition are supported and it arrives before its deadline; otherwise nothing changes and the reply names the reason |
| `Agent.HostIdempotency` | src/pulsehunter/host_agent/runtime.py:26-44 | an execution starts only from a supported request before its deadline; duplicates attach to it even after that deadline |
| `Budget.ClaimThenEnd` | src/pulsehunter/services/execution.py:58-123 | an attempt of the composed model leaves the job table exactly as the claim and the ending transaction of the executor do |
| `Budget.ClaimLease` | src/pulsehunter/services/execution.py:149-151 | the lease a claim stores ends after the call timeout and before the worker's hard limit |
| `Budget.LeaseCoversAttempt` | src/pulsehunter/services/execution.py:144-151 | while an attempt is under way its lease has not expired |
| `Budget.DriveAttached` | src/pulsehunter/agent/runtime.py:60-76 | retries attach to the one running task, whose end decides the job |
| `Budget.ScriptedJob` | src/pulsehunter/services/execution.py:77-123 | with k leading refusals and M attempts: all refused means failed after M; otherwise the verdict of script item k whenever the execution time is below (M - k) timeouts plus the waits between them, however late the claims; in one attempt when below one timeout; and with claims on time exactly as many attempts as it needs, or timed out after M at or above that budget |
| `Budget.HealthyJob` | src/pulsehunter/agent/runtime.py:78-80 | on an agent that is not unreliable a job passes whenever it needs less than the budget of all attempts |
| `Budget.UnreliableJob` | src/pulsehunter/agent/runtime.py:81-84 | with script items 0 to k - 1 refusing and item k accepting, within the remaining budget the job passes iff item k is pass, and fails otherwise |
| `Budget.RefusedJob` | src/pulsehunter/agent/runtime.py:81-84 | a script that refuses as many calls as there are attempts, or all its items, fails the job after all attempts |
| `RunCounts.CountsPartition` | src/pulsehunter/services/runs.py:132-142 | the six counts of a run add up to its jobs |
| `RunCounts.CountMeaning` | src/pulsehunter/services/runs.py:132-142 | a count is zero iff no job has the status, and the total iff all have |
| `RunCounts.CountsByStatus` | src/pulsehunter/services/runs.py:132-142 | each of the six counts is zero iff no job of the run has the status it is named after |
| `RunCounts.CountsMove` | src/pulsehunter/services/runs.py:132-142 | when a job moves, it leaves the count of its old status and joins that of its new one |
| `GateSoundness.TerminalRunIsSettled` | src/pulsehunter/services/runs.py:145-156 | once a read returns a terminal run, in every later state the run and all its jobs are as they were, and the counts agree with the status: they may be read separately |
| `CiGate.WaitForTerminal` | src/pulsehunter/ci.py:103-117 | the wait always ends, by deadline, failed read or terminal status, whichever comes first; every round before it lasts at least the polling interval, but for the last, which the deadline may cut short; all but that one fit into the timeout |
| `CiGate.PauseMeaning` | src/pulsehunter/ci.py:117 | the client sleeps for the polling interval, but never past its deadline |
| `CiGate.Gate` | src/pulsehunter/ci.py:167-182 | exit 0 iff the deciding read says passed and the job list arrives, 1 iff it says failed or cancelled, 2 iff a read fails, 3 iff the deadline comes first |
| `CiGate.FirstWithSlug` | src/pulsehunter/ci.py:151-153 | the suite found is the first with the slug, and none is found iff there is none |
| `CiGate.StartedExactly` | src/pulsehunter/ci.py:145-160 | no run is started iff the source arguments are refused, the suites cannot be read, no suite has the slug, or the server refuses; otherwise the run is that of the first suite with the slug |
| `CiGate.RunCommand` | src/pulsehunter/ci.py:144-182 | without `--wait` a started run gives 0, with it the gate decides, and every failure to start is an error |
| `CiGate.Invoke` | src/pulsehunter/ci.py:185-195 | every client error becomes exit code 2 |
| `GateSoundness.GateIsSound` | README.md:132-137 | with `--wait` against any server whose stored statuses agree with its jobs and whose terminal runs are settled: exit 0 implies that every job of the run has passed in the database the deciding round read and in every later one, exit 1 that all have ended and one has failed or timed out, and the job list fetched from a later database is that of all of them |
| `GateSoundness.AtomicGate` | src/pulsehunter/ci.py:167-182 | so the gate is sound over every execution of the atomic steps |
| `GateSoundness.InterleavedGate` | src/pulsehunter/ci.py:167-182 | and over every interleaving, whatever committed databases the status and the job list are read from |

## Left out

- HTTP routing, templates, dashboard and its scripts, argument parsing, logging, migrations, seeding: user interface and plumbing.
- httpx, Redis, Celery and SQLAlchemy internals: a call is an arbitrary outcome, the broker a lossy and duplicating bag, a query its answer.
- Host hardware checks and the contents of results and logs: foreign calls; a result is an uninterpreted string.
- Names, capabilities, suite definitions in the database and run source metadata: stored and passed through. A device is keyed by its unique name, which stands for its UUID too.
- Time zones and floating point: instants and durations are reals, so `ensure_utc` has no counterpart and rounding is not modelled.
- The status CANCELLED is kept as a terminal run status, but no step sets it, as no code of the repository does.
- The string that `JobExecutor.execute` returns: it can name an outcome although the write was void, so all results are about rows.
- The order of dispatched ids by creation time and the order of reserved devices by name: no result depends on them.
- The `limit` of the run list and the dashboard's queries: easy members.
- Deadlock freedom between maintenance transactions: the code fixes no lock order across rows. A transaction may abort at any point in the interleaved layer.
- Backoff and recovery in the interleaved layer: a transaction carries its own reading of the clock there, so results about whole stretches of time (`History.BackoffRespected`, `Recovery`) are stated for atomic transactions.
- Restarts of an agent process, which empty its cache: the idempotency promise is for one process.
- The time the device agent's control loop takes to register and beat: heartbeats are steps that may happen at any time.
- CiGate.WaitForTerminal: the clock readings and answers of the rounds are given as functions of the round, with the rule that the clock is monotone and a sleep lasts at least as long as asked.
- CiGate.RunCommand: whether the source arguments are acceptable is a parameter; their validation is a field-by-field check.
- Budget.ScriptedJob: composes the executor with the simulator only; the Windows host adds a deadline check that refuses no call made before its deadline.
- Agent.AgentEngine.Execute: the response is represented by the accepted task (its outcome and start), not by its log lines.
