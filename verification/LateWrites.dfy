/** What the rule on task identifiers is for: without it a superseded execution can write. */
module LateWrites {
  import opened Domain
  import opened Configuration
  import opened JobMachine
  import opened Services
  import opened Protocol
  import opened History

  /** A step of the system in which a delivery may meet a live execution of the same message. */
  ghost predicate Follows(s: Settings, st: State, l: Label, st': State) {
    Feasible(st, l) && st' == Next(s, st, l)
  }

  ghost function ClaimBy(s: Settings, db: Db, m: Message): Claimed
    requires Refs(db) && m.job in db.jobs
  {
    Claimed(m.task, m.job, db.jobs[m.job].attempts + 1, ClaimAction(s, db, m.job, m.task).timeout)
  }

  /** A delivery whose job is claimable, whether or not its task identifier is free. */
  lemma DeliveredRow(s: Settings, st: State, m: Message, st': State)
    requires Refs(st.db) && m in st.bag && m.job in st.db.jobs && Claimable(st.db.jobs[m.job], st.clock)
    requires st' == Next(s, st, Deliver(m))
    ensures Refs(st'.db) && m.job in st'.db.jobs && st'.clock == st.clock && st'.bag == st.bag - multiset{m}
    ensures st'.live == st.live + {ClaimBy(s, st.db, m)}
    ensures var row, row' := st.db.jobs[m.job], st'.db.jobs[m.job];
      && row'.status.Running? && row'.worker == Some(m.task) && row'.attempts == row.attempts + 1
      && row'.lease == Some(st.clock + (ClaimBy(s, st.db, m).timeout + s.leaseGrace))
  {
    PerformRows(s, st.db, ClaimAction(s, st.db, m.job, m.task), m.job, st.clock);
  }

  /** The reconciler takes the job away from an execution that has not ended. */
  lemma RecoveredRow(s: Settings, st: State, j: JobId, st': State)
    requires Refs(st.db) && j in st.db.jobs && LeaseExpired(st.db.jobs[j], st.clock)
    requires st.db.jobs[j].attempts < s.maxAttempts
    requires Feasible(st, Recover([j])) && st' == Next(s, st, Recover([j]))
    ensures Refs(st'.db) && j in st'.db.jobs && st'.clock == st.clock && st'.bag == st.bag && st'.live == st.live
    ensures Claimable(st'.db.jobs[j], st.clock) && st'.db.jobs[j].attempts == st.db.jobs[j].attempts
  {
    assert [j][..0] == [] && ExpireAll(s, st.db, [j][..0], st.clock) == st.db;
    PerformRows(s, st.db, Expire, j, st.clock);
  }

  /** The instant at which the lease of the claim runs out. */
  ghost function LeaseEnd(s: Settings, st: State, m: Message): Time
    requires Refs(st.db) && m.job in st.db.jobs
  {
    st.clock + (ClaimBy(s, st.db, m).timeout + s.leaseGrace)
  }

  /** The message is delivered, and the lease of its claim runs out. */
  lemma ClaimExpires(s: Settings, st: State, m: Message) returns (claimed: State, waited: State)
    requires s.Valid() && Refs(st.db) && m in st.bag && m.job in st.db.jobs && Claimable(st.db.jobs[m.job], st.clock)
    ensures Follows(s, st, Deliver(m), claimed) && Follows(s, claimed, Advance(LeaseEnd(s, st, m)), waited)
    ensures Refs(waited.db) && waited.bag == st.bag - multiset{m} && ClaimBy(s, st.db, m) in waited.live
    ensures m.job in waited.db.jobs && LeaseExpired(waited.db.jobs[m.job], waited.clock)
    ensures waited.db.jobs[m.job].attempts == st.db.jobs[m.job].attempts + 1
  {
    claimed := Next(s, st, Deliver(m));
    DeliveredRow(s, st, m, claimed);
    waited := Next(s, claimed, Advance(LeaseEnd(s, st, m)));
  }

  /** The reconciler recovers the job, and the message is delivered again. */
  lemma ClaimedAgain(s: Settings, waited: State, m: Message) returns (recovered: State, again: State)
    requires Refs(waited.db) && m in waited.bag && m.job in waited.db.jobs
    requires LeaseExpired(waited.db.jobs[m.job], waited.clock) && waited.db.jobs[m.job].attempts < s.maxAttempts
    ensures Follows(s, waited, Recover([m.job]), recovered) && Follows(s, recovered, Deliver(m), again)
    ensures Refs(again.db) && m.job in again.db.jobs && waited.live <= again.live
    ensures var c, row := Claimed(m.task, m.job, waited.db.jobs[m.job].attempts + 1,
                                  ClaimBy(s, recovered.db, m).timeout), again.db.jobs[m.job];
      c in again.live && row.status.Running? && row.worker == Some(m.task) && row.attempts == c.attempt
  {
    recovered := Next(s, waited, Recover([m.job]));
    RecoveredRow(s, waited, m.job, recovered);
    again := Next(s, recovered, Deliver(m));
    DeliveredRow(s, recovered, m, again);
  }

  /** The final write of an execution whose message has claimed the job again is accepted. */
  lemma LateEnd(s: Settings, st: State, first: Claimed, outcome: CallOutcome, elapsed: Time) returns (st': State)
    requires Refs(st.db) && first in st.live && first.job in st.db.jobs
    requires OwnsRunningAttempt(st.db.jobs[first.job], first.task)
    ensures Follows(s, st, End(first, outcome, elapsed), st')
    ensures Accepts(OutcomeAction(s, first, outcome, elapsed), st.db.jobs[first.job], st.clock)
    ensures first.job in st'.db.jobs && !st'.db.jobs[first.job].status.Running?
    ensures st'.db.jobs[first.job] ==
      Effect(s, OutcomeAction(s, first, outcome, elapsed), st.db.jobs[first.job], st.clock)
  {
    st' := Next(s, st, End(first, outcome, elapsed));
    var a := OutcomeAction(s, first, outcome, elapsed);
    assert Accepts(a, st.db.jobs[first.job], st.clock);
    PerformRows(s, st.db, a, first.job, st.clock);
    EffectOwner(s, a, st.db.jobs[first.job], st.clock);
  }

  /** Both executions are live under one task identifier, and `second` holds the current claim on the job of `first`. */
  ghost predicate Superseded(st: State, first: Claimed, second: Claimed) {
    && first in st.live && second in st.live && first.task == second.task && first.job == second.job
    && first.attempt < second.attempt && Current(st.db.jobs, second) && !Current(st.db.jobs, first)
  }

  /** The first four steps: claim the job, let the lease run out, recover, and deliver the same message again. */
  lemma ClaimedTwice(s: Settings, st: State, m: Message)
    returns (claimed: State, waited: State, recovered: State, again: State, first: Claimed, second: Claimed)
    requires s.Valid() && Refs(st.db) && st.bag[m] >= 2
    requires m.job in st.db.jobs && Claimable(st.db.jobs[m.job], st.clock)
    requires st.db.jobs[m.job].attempts + 1 < s.maxAttempts
    ensures Follows(s, st, Deliver(m), claimed) && Follows(s, claimed, Advance(LeaseEnd(s, st, m)), waited)
    ensures Follows(s, waited, Recover([m.job]), recovered) && Follows(s, recovered, Deliver(m), again)
    ensures Refs(again.db) && Superseded(again, first, second)
    ensures first.job == m.job && first.task == m.task && OwnsRunningAttempt(again.db.jobs[m.job], m.task)
  {
    claimed, waited := ClaimExpires(s, st, m);
    recovered, again := ClaimedAgain(s, waited, m);
    first := ClaimBy(s, st.db, m);
    var timeout := ClaimBy(s, recovered.db, m).timeout;
    second := Claimed(m.task, m.job, waited.db.jobs[m.job].attempts + 1, timeout);
  }

  /** Without the rule, in every state in which a job has two attempts left and its message is there twice, these steps
      and the end of the first execution, whatever its call has brought, are possible; every step but the second
      delivery respects the rule. The write of the first execution goes through although the second one holds the
      current claim. */
  lemma LateWriteOverwrites(s: Settings, st: State, m: Message, outcome: CallOutcome, elapsed: Time)
    returns (claimed: State, waited: State, recovered: State, again: State, ended: State, first: Claimed,
             second: Claimed)
    requires s.Valid() && Refs(st.db) && st.bag[m] >= 2 && (forall c :: c in st.live ==> c.task != m.task)
    requires m.job in st.db.jobs && Claimable(st.db.jobs[m.job], st.clock)
    requires st.db.jobs[m.job].attempts + 1 < s.maxAttempts
    ensures Enabled(st, Deliver(m)) && Follows(s, st, Deliver(m), claimed)
    ensures Follows(s, claimed, Advance(LeaseEnd(s, st, m)), waited)
    ensures Follows(s, waited, Recover([m.job]), recovered)
    ensures Follows(s, recovered, Deliver(m), again)
    ensures first.job == m.job && Superseded(again, first, second)
    ensures Accepts(OutcomeAction(s, first, outcome, elapsed), again.db.jobs[m.job], again.clock)
    ensures Follows(s, again, End(first, outcome, elapsed), ended)
    ensures m.job in ended.db.jobs && !ended.db.jobs[m.job].status.Running?
  {
    claimed, waited, recovered, again, first, second := ClaimedTwice(s, st, m);
    ended := LateEnd(s, again, first, outcome, elapsed);
  }
}
