/** Recovery: a few reconcile-and-deliver rounds finish every job, whatever else happens meanwhile. */
module Recovery {
  import opened Domain
  import opened Identifiers
  import opened Configuration
  import opened JobMachine
  import opened Aggregation
  import opened Services
  import opened DatabaseInvariant
  import opened Protocol
  import opened History

  /** The clock is past the lease of every running job and the due time of every retry. */
  ghost predicate Overdue(jobs: Jobs, now: Time) {
    forall j :: j in jobs ==>
      && (jobs[j].status.Running? && jobs[j].lease.Some? ==> jobs[j].lease.value <= now)
      && (jobs[j].status.Retrying? && jobs[j].due.Some? ==> jobs[j].due.value <= now)
  }

  /** A reconciliation that skips no locked row. */
  ghost predicate TakesAll(db: Db, rows: seq<JobId>, now: Time) {
    forall j :: j in db.jobs && LeaseExpired(db.jobs[j], now) ==> j in rows
  }

  ghost predicate ReconcilesAt(states: seq<State>, labels: seq<Label>, m: nat)
    requires |states| == |labels| + 1 && m < |labels|
  {
    && labels[m].Recover?
    && TakesAll(states[m].db, labels[m].rows, states[m].clock)
    && Overdue(states[m].db.jobs, states[m].clock)
  }

  /** Some message of job `j` is delivered after step `m` and before step `k`. */
  ghost predicate DeliveredBetween(labels: seq<Label>, m: nat, k: nat, j: JobId) {
    exists n: nat :: m < n < k && n < |labels| && labels[n].Deliver? && labels[n].message.job == j
  }

  ghost predicate RoundAt(s: Settings, states: seq<State>, labels: seq<Label>, i: nat, m: nat, k: nat)
    requires |states| == |labels| + 1 && k <= |labels|
  {
    && i <= m < k && ReconcilesAt(states, labels, m)
    && forall j :: j in DispatchIds(states[m + 1].db, states[m].clock) ==> DeliveredBetween(labels, m, k, j)
  }

  /** From step `i` to step `k` there is one overdue reconciliation, and each id it returns is delivered later on.
      Anything else may happen in between: losses, duplicates, deaths, sweeps, other reconciliations, new runs. */
  ghost predicate Round(s: Settings, states: seq<State>, labels: seq<Label>, i: nat, k: nat)
    requires |states| == |labels| + 1 && k <= |labels|
  {
    exists m: nat :: RoundAt(s, states, labels, i, m, k)
  }

  /** Every active job met by such a reconciliation is failed for good or can be claimed at once. */
  lemma ReconciledRow(s: Settings, st: State, rows: seq<JobId>, j: JobId)
    requires s.Valid() && Enabled(st, Recover(rows)) && j in st.db.jobs && Shape(s, st.db.jobs[j])
    requires TakesAll(st.db, rows, st.clock) && Overdue(st.db.jobs, st.clock)
    ensures var st' := Next(s, st, Recover(rows));
      && j in st'.db.jobs && st'.clock == st.clock
      && st'.db.jobs[j].attempts == st.db.jobs[j].attempts
      && (st'.db.jobs[j].status.Terminal()
          || (Claimable(st'.db.jobs[j], st.clock) && j in DispatchIds(st'.db, st.clock)))
  {
    StepJob(s, st, Recover(rows), j);
  }

  lemma DeliveryClaims(s: Settings, states: seq<State>, labels: seq<Label>, n: nat, j: JobId)
    requires s.Valid() && Execution(s, states, labels) && n < |labels|
    requires j in states[n].db.jobs && Claimable(states[n].db.jobs[j], states[n].clock)
    requires labels[n].Deliver? && labels[n].message.job == j
    ensures j in states[n + 1].db.jobs && states[n + 1].db.jobs[j].attempts == states[n].db.jobs[j].attempts + 1
  {
    StepAttempts(s, states, labels, n, j);
  }

  lemma DeliveryProgress(s: Settings, states: seq<State>, labels: seq<Label>, m: nat, n: nat, k: nat, j: JobId)
    requires Execution(s, states, labels) && Inv(s, states[0]) && m <= n < k <= |labels|
    requires j in states[m].db.jobs && Claimable(states[m].db.jobs[j], states[m].clock)
    requires labels[n].Deliver? && labels[n].message.job == j
    ensures j in states[k].db.jobs && states[k].db.jobs[j].attempts > states[m].db.jobs[j].attempts
  {
    StaysClaimable(s, states, labels, m, n, j);
    Forward(s, states, labels, n, k, j);
    if states[n].db.jobs[j].attempts == states[m].db.jobs[j].attempts {
      DeliveryClaims(s, states, labels, n, j);
      Forward(s, states, labels, n + 1, k, j);
    }
  }

  /** A round finishes each job that existed at its start or costs it at least one attempt. */
  lemma RoundProgress(s: Settings, states: seq<State>, labels: seq<Label>, i: nat, k: nat, j: JobId)
    requires Execution(s, states, labels) && Inv(s, states[0]) && i <= k <= |labels|
    requires Round(s, states, labels, i, k) && j in states[i].db.jobs
    ensures j in states[k].db.jobs
    ensures states[k].db.jobs[j].status.Terminal() || states[k].db.jobs[j].attempts > states[i].db.jobs[j].attempts
  {
    var m: nat :| RoundAt(s, states, labels, i, m, k);
    Forward(s, states, labels, i, m, j);
    assert Shape(s, states[m].db.jobs[j]) by { ExecutionKeepsInv(s, states, labels, m); }
    assert Taken(s, states, labels, m);
    ReconciledRow(s, states[m], labels[m].rows, j);
    Forward(s, states, labels, m + 1, k, j);
    if !states[m + 1].db.jobs[j].status.Terminal() {
      assert DeliveredBetween(labels, m, k, j);
      var n: nat :| m < n < k && n < |labels| && labels[n].Deliver? && labels[n].message.job == j;
      DeliveryProgress(s, states, labels, m + 1, n, k, j);
    }
  }

  /** Consecutive rounds, delimited by `bounds`. */
  ghost predicate Rounds(s: Settings, states: seq<State>, labels: seq<Label>, bounds: seq<nat>)
    requires Execution(s, states, labels)
  {
    && bounds != []
    && (forall b :: 0 <= b < |bounds| ==> bounds[b] <= |labels|)
    && (forall b :: 0 < b < |bounds| ==>
          bounds[b - 1] <= bounds[b] && Round(s, states, labels, bounds[b - 1], bounds[b]))
  }

  lemma {:induction false} RoundsProgress(s: Settings, states: seq<State>, labels: seq<Label>, bounds: seq<nat>,
                                          b: nat, j: JobId)
    requires Execution(s, states, labels) && Inv(s, states[0]) && Rounds(s, states, labels, bounds) && b < |bounds|
    requires j in states[bounds[0]].db.jobs
    ensures j in states[bounds[b]].db.jobs
    ensures states[bounds[b]].db.jobs[j].status.Terminal() || states[bounds[b]].db.jobs[j].attempts >= b
  {
    if b != 0 {
      RoundsProgress(s, states, labels, bounds, b - 1, j);
      RoundProgress(s, states, labels, bounds[b - 1], bounds[b], j);
      Forward(s, states, labels, bounds[b - 1], bounds[b], j);
    }
  }

  /** After maxAttempts + 1 rounds every job that existed at the start is terminal ... */
  lemma RecoveryFinishesJobs(s: Settings, states: seq<State>, labels: seq<Label>, bounds: seq<nat>, j: JobId)
    requires Execution(s, states, labels) && Inv(s, states[0]) && Rounds(s, states, labels, bounds)
    requires |bounds| == s.maxAttempts + 2 && j in states[bounds[0]].db.jobs
    ensures var end := states[bounds[s.maxAttempts + 1]];
      j in end.db.jobs && end.db.jobs[j].status.Terminal()
  {
    var last := bounds[s.maxAttempts + 1];
    RoundsProgress(s, states, labels, bounds, s.maxAttempts + 1, j);
    ShapeAt(s, states, labels, last, j);
    OutOfAttempts(s, states[last].db.jobs[j]);
  }

  lemma ShapeAt(s: Settings, states: seq<State>, labels: seq<Label>, k: nat, j: JobId)
    requires Execution(s, states, labels) && Inv(s, states[0]) && k <= |labels| && j in states[k].db.jobs
    ensures Shape(s, states[k].db.jobs[j])
  {
    ExecutionKeepsInv(s, states, labels, k);
  }

  lemma OutOfAttempts(s: Settings, job: Job)
    requires Shape(s, job) && (job.status.Terminal() || job.attempts >= s.maxAttempts + 1)
    ensures job.status.Terminal()
  {
  }

  lemma {:induction false} BoundsOrdered(s: Settings, states: seq<State>, labels: seq<Label>, bounds: seq<nat>, b: nat)
    requires Execution(s, states, labels) && Rounds(s, states, labels, bounds) && b < |bounds|
    ensures bounds[0] <= bounds[b]
  {
    if b != 0 {
      BoundsOrdered(s, states, labels, bounds, b - 1);
    }
  }

  /** ... every run that existed at the start has passed or failed ... */
  lemma RecoveryFinishesRuns(s: Settings, states: seq<State>, labels: seq<Label>, bounds: seq<nat>, r: RunId)
    requires Execution(s, states, labels) && Inv(s, states[0]) && Rounds(s, states, labels, bounds)
    requires |bounds| == s.maxAttempts + 2 && r in states[bounds[0]].db.runs
    ensures var end := states[bounds[s.maxAttempts + 1]];
      r in end.db.runs && end.db.runs[r].status.Terminal()
  {
    var first, last := bounds[0], bounds[s.maxAttempts + 1];
    BoundsOrdered(s, states, labels, bounds, s.maxAttempts + 1);
    RunsForward(s, states, labels, first, last, r);
    ExecutionKeepsInv(s, states, labels, last);
    var db := states[last].db;
    assert RunOk(db.runs[r], db.jobs, r);
    forall j | InRun(db.jobs, j, r) ensures !db.jobs[j].status.Active() {
      assert InRun(states[first].db.jobs, j, r);
      RecoveryFinishesJobs(s, states, labels, bounds, j);
    }
  }

  /** ... and, unless new runs were created meanwhile, no device is reserved any more. */
  lemma RecoveryFreesDevices(s: Settings, states: seq<State>, labels: seq<Label>, bounds: seq<nat>, d: DeviceId)
    requires Execution(s, states, labels) && Inv(s, states[0]) && Rounds(s, states, labels, bounds)
    requires |bounds| == s.maxAttempts + 2
    requires states[bounds[s.maxAttempts + 1]].db.jobs.Keys == states[bounds[0]].db.jobs.Keys
    requires d in states[bounds[s.maxAttempts + 1]].db.devices
    ensures var end := states[bounds[s.maxAttempts + 1]];
      !HasActiveJob(end.db.jobs, d) && !end.db.devices[d].status.Busy?
  {
    var last := bounds[s.maxAttempts + 1];
    ExecutionKeepsInv(s, states, labels, last);
    var db := states[last].db;
    forall j | j in db.jobs ensures !db.jobs[j].status.Active() {
      RecoveryFinishesJobs(s, states, labels, bounds, j);
    }
  }

  // ---------------------------------------------------------------- rounds can always be made

  lemma {:induction false} LatestInstant(jobs: Jobs, now: Time) returns (t: Time)
    ensures now <= t && Overdue(jobs, t)
    decreases |jobs|
  {
    if jobs == map[] {
      t := now;
    } else {
      var j :| j in jobs;
      assert |jobs - {j}| < |jobs| by { assert jobs == (jobs - {j})[j := jobs[j]]; }
      t := LatestInstant(jobs - {j}, now);
      assert forall k :: k in jobs && k != j ==> k in jobs - {j} && (jobs - {j})[k] == jobs[k];
      if jobs[j].lease.Some? { t := Max(t, jobs[j].lease.value); }
      if jobs[j].due.Some? { t := Max(t, jobs[j].due.value); }
    }
  }

  lemma {:induction false} FreshTask(live: set<Claimed>) returns (task: TaskId)
    ensures forall c :: c in live ==> c.task < task
    decreases |live|
  {
    if live == {} {
      task := 0;
    } else {
      var c :| c in live;
      task := FreshTask(live - {c});
      assert forall e :: e in live ==> e == c || e in live - {c};
      if task <= c.task { task := c.task + 1; }
    }
  }

  /** The execution goes on with one more enabled label. */
  lemma Extend(s: Settings, states: seq<State>, labels: seq<Label>, l: Label)
    returns (states': seq<State>, labels': seq<Label>)
    requires Execution(s, states, labels) && Enabled(states[|labels|], l)
    ensures Execution(s, states', labels') && states <= states' && labels' == labels + [l]
    ensures states'[|labels'|] == Next(s, states[|labels|], l)
  {
    states', labels' := states + [Next(s, states[|labels|], l)], labels + [l];
    forall i | 0 <= i < |labels'| ensures Taken(s, states', labels', i) {
      if i < |labels| { assert Taken(s, states, labels, i); }
    }
  }

  /** Publish and deliver one message of `j` under a new task identifier. */
  lemma DeliverOne(s: Settings, states: seq<State>, labels: seq<Label>, m: nat, j: JobId)
    returns (states': seq<State>, labels': seq<Label>)
    requires Execution(s, states, labels) && Inv(s, states[0]) && m < |labels|
    ensures Execution(s, states', labels') && states <= states' && labels <= labels'
    ensures DeliveredBetween(labels', m, |labels'|, j)
    ensures states'[|labels'|].db.jobs.Keys == states[|labels|].db.jobs.Keys
  {
    var st := states[|labels|];
    assert Refs(st.db) by { ExecutionKeepsInv(s, states, labels, |labels|); }
    var task := FreshTask(st.live);
    var message := Message(j, task);
    var mid, names := Extend(s, states, labels, Publish(message));
    states', labels' := Extend(s, mid, names, Deliver(message));
    assert labels'[|labels| + 1] == Deliver(message);
  }

  lemma StillDelivered(labels: seq<Label>, labels': seq<Label>, m: nat, j: JobId)
    requires labels <= labels' && DeliveredBetween(labels, m, |labels|, j)
    ensures DeliveredBetween(labels', m, |labels'|, j)
  {
    var n: nat :| m < n < |labels| && labels[n].Deliver? && labels[n].message.job == j;
    assert labels'[n] == labels[n];
  }

  lemma {:induction false} DeliverAll(s: Settings, states: seq<State>, labels: seq<Label>, m: nat, ids: set<JobId>)
    returns (states': seq<State>, labels': seq<Label>)
    requires Execution(s, states, labels) && Inv(s, states[0]) && m < |labels|
    ensures Execution(s, states', labels') && states <= states' && labels <= labels'
    ensures forall j :: j in ids ==> DeliveredBetween(labels', m, |labels'|, j)
    ensures states'[|labels'|].db.jobs.Keys == states[|labels|].db.jobs.Keys
    decreases |ids|
  {
    if ids == {} {
      states', labels' := states, labels;
    } else {
      var j :| j in ids;
      var before, names := DeliverAll(s, states, labels, m, ids - {j});
      states', labels' := DeliverOne(s, before, names, m, j);
      forall k | k in ids ensures DeliveredBetween(labels', m, |labels'|, k) {
        if k != j { StillDelivered(names, labels', m, k); }
      }
    }
  }

  lemma ReconcileNow(s: Settings, states: seq<State>, labels: seq<Label>)
    returns (states': seq<State>, labels': seq<Label>)
    requires Execution(s, states, labels) && Inv(s, states[0])
    ensures Execution(s, states', labels') && states <= states' && labels <= labels' && |labels'| == |labels| + 2
    ensures ReconcilesAt(states', labels', |labels| + 1)
    ensures states'[|labels'|].db.jobs.Keys == states[|labels|].db.jobs.Keys
  {
    var st := states[|labels|];
    assert Refs(st.db) && s.Valid() by { ExecutionKeepsInv(s, states, labels, |labels|); }
    var to := LatestInstant(st.db.jobs, st.clock);
    var mid, names := Extend(s, states, labels, Advance(to));
    var rows := Enumerate(set j | j in st.db.jobs && LeaseExpired(st.db.jobs[j], to));
    assert forall i :: 0 <= i < |rows| ==> rows[i] in rows;
    assert ExpiredRows(st.db, rows, to);
    states', labels' := Extend(s, mid, names, Recover(rows));
    assert states'[|labels| + 1] == mid[|labels| + 1];
    ExpireAllRows(s, st.db, rows, to);
  }

  /** From every state a round can be made, even when every message is lost and every worker is dead. */
  lemma RoundPossible(s: Settings, states: seq<State>, labels: seq<Label>)
    returns (states': seq<State>, labels': seq<Label>)
    requires Execution(s, states, labels) && Inv(s, states[0])
    ensures Execution(s, states', labels') && states <= states' && labels <= labels'
    ensures Round(s, states', labels', |labels|, |labels'|)
    ensures states'[|labels'|].db.jobs.Keys == states[|labels|].db.jobs.Keys
  {
    var mid, names := ReconcileNow(s, states, labels);
    var m := |labels| + 1;
    states', labels' := DeliverAll(s, mid, names, m, DispatchIds(mid[m + 1].db, mid[m].clock));
    assert states'[m] == mid[m] && states'[m + 1] == mid[m + 1] && labels'[m] == names[m];
    assert RoundAt(s, states', labels', |labels|, m, |labels'|);
  }

  lemma RoundKept(s: Settings, states: seq<State>, labels: seq<Label>, states': seq<State>, labels': seq<Label>,
                  i: nat, k: nat)
    requires |states| == |labels| + 1 && |states'| == |labels'| + 1 && states <= states' && labels <= labels'
    requires k <= |labels| && Round(s, states, labels, i, k)
    ensures Round(s, states', labels', i, k)
  {
    var m: nat :| RoundAt(s, states, labels, i, m, k);
    assert states'[m] == states[m] && states'[m + 1] == states[m + 1] && labels'[m] == labels[m];
    forall j | j in DispatchIds(states'[m + 1].db, states'[m].clock) ensures DeliveredBetween(labels', m, k, j) {
      assert DeliveredBetween(labels, m, k, j);
      var n: nat :| m < n < k && n < |labels| && labels[n].Deliver? && labels[n].message.job == j;
      assert labels'[n] == labels[n];
    }
    assert RoundAt(s, states', labels', i, m, k);
  }

  lemma {:induction false} RoundsPossible(s: Settings, st: State, n: nat)
    returns (states: seq<State>, labels: seq<Label>, bounds: seq<nat>)
    requires Inv(s, st)
    ensures Execution(s, states, labels) && states[0] == st
    ensures Rounds(s, states, labels, bounds) && |bounds| == n + 1 && bounds[0] == 0 && bounds[n] == |labels|
    ensures states[|labels|].db.jobs.Keys == st.db.jobs.Keys
  {
    if n == 0 {
      states, labels, bounds := [st], [], [0];
    } else {
      var before, names, marks := RoundsPossible(s, st, n - 1);
      states, labels := RoundPossible(s, before, names);
      bounds := marks + [|labels|];
      forall b | 0 < b < |bounds|
        ensures bounds[b - 1] <= bounds[b] && Round(s, states, labels, bounds[b - 1], bounds[b])
      {
        if b < n { RoundKept(s, before, names, states, labels, bounds[b - 1], bounds[b]); }
      }
    }
  }

  ghost predicate AllOver(db: Db, jobs: set<JobId>, runs: set<RunId>) {
    && (forall j :: j in jobs ==> j in db.jobs && db.jobs[j].status.Terminal())
    && (forall r :: r in runs ==> r in db.runs && db.runs[r].status.Terminal())
    && (forall d :: d in db.devices ==> !db.devices[d].status.Busy?)
  }

  lemma RoundsFinish(s: Settings, states: seq<State>, labels: seq<Label>, bounds: seq<nat>)
    requires Execution(s, states, labels) && Inv(s, states[0]) && Rounds(s, states, labels, bounds)
    requires |bounds| == s.maxAttempts + 2
    requires states[bounds[s.maxAttempts + 1]].db.jobs.Keys == states[bounds[0]].db.jobs.Keys
    ensures var first, last := states[bounds[0]].db, states[bounds[s.maxAttempts + 1]].db;
      AllOver(last, first.jobs.Keys, first.runs.Keys)
  {
    var first, last := states[bounds[0]].db, states[bounds[s.maxAttempts + 1]].db;
    forall j | j in first.jobs ensures j in last.jobs && last.jobs[j].status.Terminal() {
      RecoveryFinishesJobs(s, states, labels, bounds, j);
    }
    forall r | r in first.runs ensures r in last.runs && last.runs[r].status.Terminal() {
      RecoveryFinishesRuns(s, states, labels, bounds, r);
    }
    forall d | d in last.devices ensures !last.devices[d].status.Busy? {
      RecoveryFreesDevices(s, states, labels, bounds, d);
    }
  }

  /** From every reachable state, whatever was lost, the system can go on to a state in which every job and every run
      is terminal and no device is reserved. */
  lemma RecoveryPossible(s: Settings, st: State) returns (states: seq<State>, labels: seq<Label>)
    requires Inv(s, st)
    ensures Execution(s, states, labels) && states[0] == st
    ensures AllOver(states[|labels|].db, st.db.jobs.Keys, st.db.runs.Keys)
    ensures states[|labels|].db.jobs.Keys == st.db.jobs.Keys
  {
    var bounds;
    states, labels, bounds := RoundsPossible(s, st, s.maxAttempts + 1);
    RoundsFinish(s, states, labels, bounds);
  }
}
