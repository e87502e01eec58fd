/** Why two live executions never share a task identifier, and when they may. */
module TaskRule {
  import opened Domain
  import opened Configuration
  import opened Services
  import opened Protocol

  /** One delivery of a message: when a worker process received it, began to execute it, and was done with it. */
  datatype Offer = Offer(delivered: Time, begin: Time, end: Time)

  /** A message waits at most `wait` in the worker (for its countdown, or for the execution before it), and a worker
      process is killed at the hard limit. */
  ghost predicate Punctual(s: Settings, wait: Time, offers: seq<Offer>) {
    forall i :: 0 <= i < |offers| ==>
      && offers[i].delivered <= offers[i].begin <= offers[i].delivered + wait
      && offers[i].begin <= offers[i].end <= offers[i].begin + s.HardLimit() as real
  }

  /** The broker offers an unacknowledged message again, under its old identifier, a visibility timeout after it has
      delivered it. */
  ghost predicate ReofferedLate(s: Settings, offers: seq<Offer>) {
    forall i :: 0 < i < |offers| ==> offers[i - 1].delivered + s.VisibilityTimeout() as real <= offers[i].delivered
  }

  /** Between two executions of one message lies what the visibility timeout leaves beyond wait and hard limit. */
  lemma {:induction false} TimingChain(s: Settings, wait: Time, offers: seq<Offer>, i: nat, j: nat)
    requires s.Valid() && 0.0 <= wait && Punctual(s, wait, offers) && ReofferedLate(s, offers) && i < j < |offers|
    ensures offers[i].delivered + s.VisibilityTimeout() as real <= offers[j].begin
    ensures offers[i].end + (s.VisibilityTimeout() as real - s.HardLimit() as real - wait) <= offers[j].begin
    decreases j
  {
    if i + 1 < j {
      TimingChain(s, wait, offers, i, j - 1);
      assert offers[j - 1].delivered + s.VisibilityTimeout() as real <= offers[j].delivered;
      ReoffersGrow(s, offers, i, j - 1);
    }
  }

  lemma {:induction false} ReoffersGrow(s: Settings, offers: seq<Offer>, i: nat, j: nat)
    requires s.Valid() && ReofferedLate(s, offers) && i <= j < |offers|
    ensures offers[i].delivered <= offers[j].delivered
    decreases j
  {
    if i < j {
      ReoffersGrow(s, offers, i, j - 1);
      assert offers[j - 1].delivered + s.VisibilityTimeout() as real <= offers[j].delivered;
    }
  }

  /** Two of the executions are under way at the same time. */
  ghost predicate Overlap(offers: seq<Offer>) {
    exists i: nat, j: nat ::
      i < j < |offers| && offers[j].begin < offers[i].end && offers[i].begin < offers[j].end
  }

  /** A first execution that begins as late as it may before the second, and two that last as long as they may. */
  function LateTwins(s: Settings, wait: Time): seq<Offer> {
    var hard, visible := s.HardLimit() as real, s.VisibilityTimeout() as real;
    var begin := Min(wait, visible);
    [Offer(0.0, begin, begin + hard), Offer(visible, visible, visible + hard)]
  }

  /** Executions of one message can overlap if and only if wait and hard limit together exceed the visibility
      timeout. */
  lemma OverlapExactly(s: Settings, wait: Time)
    requires s.Valid() && 0.0 <= wait
    ensures (exists offers :: Punctual(s, wait, offers) && ReofferedLate(s, offers) && Overlap(offers))
       <==> wait + s.HardLimit() as real > s.VisibilityTimeout() as real
  {
    var hard, visible := s.HardLimit() as real, s.VisibilityTimeout() as real;
    if wait + hard > visible {
      var offers := LateTwins(s, wait);
      assert offers[1].begin < offers[0].end && offers[0].begin < offers[1].end;
      assert Punctual(s, wait, offers) && ReofferedLate(s, offers) && Overlap(offers);
    }
    if offers: seq<Offer> :| Punctual(s, wait, offers) && ReofferedLate(s, offers) && Overlap(offers) {
      var i: nat, j: nat :|
        i < j < |offers| && offers[j].begin < offers[i].end && offers[i].begin < offers[j].end;
      TimingChain(s, wait, offers, i, j);
    }
  }

  /** One execution claims a job at `first`; when the lease of that claim has run out, another execution of the same
      message claims it again at `second`, and the earlier execution is still under way. */
  ghost predicate Twins(s: Settings, host: bool, earlier: Offer, later: Offer, first: Time, second: Time) {
    && earlier.begin <= first && first + s.LeaseLength(host) <= second
    && later.begin <= second <= later.end && second < earlier.end
  }

  ghost predicate TwinClaims(s: Settings, host: bool, offers: seq<Offer>) {
    exists i: nat, j: nat, first, second ::
      i < j < |offers| && Twins(s, host, offers[i], offers[j], first, second)
  }

  /** Two live claims can share a task identifier under the very same condition: the lease never prevents it. */
  lemma TwinClaimsExactly(s: Settings, wait: Time, host: bool)
    requires s.Valid() && 0.0 <= wait
    ensures (exists offers :: Punctual(s, wait, offers) && ReofferedLate(s, offers) && TwinClaims(s, host, offers))
       <==> wait + s.HardLimit() as real > s.VisibilityTimeout() as real
  {
    LimitsOrdered(s);
    if wait + s.HardLimit() as real > s.VisibilityTimeout() as real {
      var offers := LateTwins(s, wait);
      var first := offers[0].begin;
      var second := Max(first + s.LeaseLength(host), offers[1].begin);
      assert Twins(s, host, offers[0], offers[1], first, second);
      assert Punctual(s, wait, offers) && ReofferedLate(s, offers) && TwinClaims(s, host, offers);
    }
    if offers: seq<Offer> :| Punctual(s, wait, offers) && ReofferedLate(s, offers) && TwinClaims(s, host, offers) {
      var i: nat, j: nat, first, second :| i < j < |offers| && Twins(s, host, offers[i], offers[j], first, second);
      TimingChain(s, wait, offers, i, j);
    }
  }

  /** A wait of up to twice the hard limit is harmless for all valid settings. */
  lemma ShortWaitsAreSafe(s: Settings, wait: Time)
    requires s.Valid() && 0.0 <= wait <= 2.0 * s.HardLimit() as real
    ensures wait + s.HardLimit() as real <= s.VisibilityTimeout() as real
  {
    LimitsOrdered(s);
  }

  /** A retry is published with its delay as countdown, which the settings do not relate to the visibility timeout:
      whatever the other settings are, a large enough cap makes them valid and lets executions overlap. */
  lemma LongCountdownOverlaps(s: Settings) returns (s': Settings, offers: seq<Offer>)
    requires s.Valid()
    ensures s' == s.(backoff := s'.backoff, backoffMax := s'.backoffMax) && s'.Valid()
    ensures Punctual(s', Delay(s', 1), offers) && ReofferedLate(s', offers) && Overlap(offers)
  {
    var visible := s.VisibilityTimeout() as real;
    s' := s.(backoff := visible, backoffMax := visible);
    assert s'.VisibilityTimeout() == s.VisibilityTimeout() && s'.HardLimit() == s.HardLimit();
    assert Delay(s', 1) == visible;
    OverlapExactly(s', Delay(s', 1));
    offers :| Punctual(s', Delay(s', 1), offers) && ReofferedLate(s', offers) && Overlap(offers);
  }

  /** The guard of a delivery follows: `offers` are the deliveries of the message's identifier so far, the last of them
      this one; each live execution under that identifier is an earlier one that is not over. */
  lemma DeliveryIsGuarded(s: Settings, wait: Time, st: State, m: Message, offers: seq<Offer>, number: map<Claimed, nat>)
    requires s.Valid() && 0.0 <= wait && wait + s.HardLimit() as real <= s.VisibilityTimeout() as real
    requires Refs(st.db) && m in st.bag
    requires offers != [] && offers[|offers| - 1].begin == st.clock
    requires Punctual(s, wait, offers) && ReofferedLate(s, offers)
    requires forall c :: c in st.live && c.task == m.task ==>
      c in number && number[c] < |offers| - 1 && st.clock < offers[number[c]].end
    ensures Enabled(st, Deliver(m))
  {
    forall c | c in st.live ensures c.task != m.task {
      if c.task == m.task { TimingChain(s, wait, offers, number[c], |offers| - 1); }
    }
  }
}
