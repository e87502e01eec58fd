/** Typed configuration: field constraints, the limits derived from them, and the backoff law. */
module Configuration {
  import opened Domain

  datatype Settings = Settings(
    jobTimeout: Time,
    hostJobTimeout: Time,
    maxAttempts: nat,
    backoff: Time,
    backoffMax: Time,
    leaseGrace: Time,
    heartbeatTimeout: Time,
    heartbeatScan: Time,
    reconcileInterval: Time)
  {
    /** The declared bounds of every field together with `validate_intervals`. */
    predicate Valid() {
      && 0.0 < jobTimeout && 0.0 < hostJobTimeout
      && 1 <= maxAttempts <= 10
      && 0.0 < backoff && 0.0 < backoffMax
      && 1.0 <= leaseGrace
      && 1.0 < heartbeatTimeout && 0.0 < heartbeatScan && 0.0 < reconcileInterval
      && heartbeatScan < heartbeatTimeout
      && backoff <= backoffMax
    }

    function CallTimeout(host: bool): Time {
      if host then hostJobTimeout else jobTimeout
    }

    function LeaseLength(host: bool): Time {
      CallTimeout(host) + leaseGrace
    }

    /** `int` truncates; the argument is positive for valid settings, so it floors. */
    function HardLimit(): int {
      var truncated := (Max(jobTimeout, hostJobTimeout) + leaseGrace + 5.0).Floor;
      if truncated <= 10 then 10 else truncated
    }

    function VisibilityTimeout(): int {
      if HardLimit() * 3 <= 60 then 60 else HardLimit() * 3
    }
  }

  /** For all valid settings, truncation included: a call ends within its lease, a lease ends before the worker
      is killed, and three such lives fit into the visibility timeout. */
  lemma LimitsOrdered(s: Settings)
    requires s.Valid()
    ensures forall host :: s.CallTimeout(host) < s.LeaseLength(host) < s.HardLimit() as real
    ensures 3 * s.HardLimit() <= s.VisibilityTimeout()
  {
  }

  /** The hard limit is the longer call timeout plus grace plus five seconds, cut to whole seconds, but at least ten;
      the visibility timeout is three times that, but at least a minute. */
  lemma LimitsExactly(s: Settings)
    requires s.Valid()
    ensures var longest := if s.jobTimeout <= s.hostJobTimeout then s.hostJobTimeout else s.jobTimeout;
      var hard, limit := s.HardLimit(), longest + s.leaseGrace + 5.0;
      && (hard as real <= limit || hard == 10) && limit < (hard + 1) as real && hard >= 10
      && (hard > 10 ==> hard as real <= limit)
    ensures var hard, visible := s.HardLimit(), s.VisibilityTimeout();
      visible >= 60 && visible >= 3 * hard && (visible == 60 || visible == 3 * hard)
    ensures s.CallTimeout(true) == s.hostJobTimeout && s.CallTimeout(false) == s.jobTimeout
  {
  }

  function Pow2(n: nat): (p: nat)
    ensures p >= 1
  {
    if n == 0 then 1 else 2 * Pow2(n - 1)
  }

  /** `base` doubled `n` times. */
  function Doubled(base: Time, n: nat): Time {
    if n == 0 then base else 2.0 * Doubled(base, n - 1)
  }

  lemma {:induction false} DoubledIsProduct(base: Time, n: nat)
    ensures Doubled(base, n) == base * Pow2(n) as real
  {
    if n > 0 {
      DoubledIsProduct(base, n - 1);
      var p := Pow2(n - 1) as real;
      assert base * (2.0 * p) == 2.0 * (base * p);
    }
  }

  /** The wait after the `attempts`-th failed attempt. */
  function Delay(s: Settings, attempts: AttemptNumber): Time {
    Min(Doubled(s.backoff, attempts - 1), s.backoffMax)
  }

  /** The waits after attempts `from`, ..., `to - 1`. */
  function DelaySum(s: Settings, from: AttemptNumber, to: nat): Time
    decreases to
  {
    if to <= from then 0.0 else DelaySum(s, from, to - 1) + Delay(s, to - 1)
  }

  lemma {:induction false} DoubledGrows(base: Time, n: nat)
    requires 0.0 < base
    ensures base <= Doubled(base, n) < Doubled(base, n + 1)
  {
    if n > 0 {
      DoubledGrows(base, n - 1);
    }
  }

  /** The wait after attempt `n + 1` is base * 2^n or the cap. */
  lemma DelayInClosedForm(s: Settings, n: nat)
    ensures Delay(s, n + 1) == Min(s.backoff * Pow2(n) as real, s.backoffMax)
  {
    DoubledIsProduct(s.backoff, n);
    assert n + 1 - 1 == n;
  }

  /** Every wait lies in [base, cap], never shrinks, and doubles until the cap is reached. */
  lemma BackoffLaw(s: Settings, k: AttemptNumber)
    requires s.Valid()
    ensures s.backoff <= Delay(s, k) <= s.backoffMax
    ensures Delay(s, k) <= Delay(s, k + 1) == Min(2.0 * Delay(s, k), s.backoffMax)
  {
    DoubledGrows(s.backoff, k - 1);
    assert Doubled(s.backoff, k) == 2.0 * Doubled(s.backoff, k - 1);
  }

  /** The first `n` waits sum to at most base * (2^n - 1), the sum without the cap ... */
  lemma {:induction false} BackoffSumDoubling(s: Settings, n: nat)
    requires s.Valid()
    ensures 0.0 <= DelaySum(s, 1, n + 1) <= Doubled(s.backoff, n) - s.backoff
    ensures Doubled(s.backoff, n) - s.backoff == s.backoff * (Pow2(n) - 1) as real
  {
    DoubledIsProduct(s.backoff, n);
    var p := Pow2(n) as real;
    assert s.backoff * (p - 1.0) == s.backoff * p - s.backoff;
    if n > 0 {
      BackoffSumDoubling(s, n - 1);
      DoubledGrows(s.backoff, n - 1);
    }
  }

  lemma CapStep(cap: real, n: AttemptNumber, sum: real, delay: real)
    requires sum <= cap * (n - 1) as real && delay <= cap
    ensures sum + delay <= cap * n as real
  {
    var x := (n - 1) as real;
    assert cap * (x + 1.0) == cap * x + cap;
  }

  /** ... and to at most n * cap. */
  lemma {:induction false} BackoffSumCapped(s: Settings, n: nat)
    ensures DelaySum(s, 1, n + 1) <= s.backoffMax * n as real
  {
    if n == 0 {
      assert DelaySum(s, 1, 1) == 0.0;
    } else {
      BackoffSumCapped(s, n - 1);
      CapStep(s.backoffMax, n, DelaySum(s, 1, n), Delay(s, n));
    }
  }
}
