/** Retry delays: the three curves, the clamp and the equal jitter, over the reals. */
module Backoff {
  import opened Common

  datatype Strategy = Fixed | Linear | Exponential

  // The CHECK constraints on the frozen retry columns of a job.
  type Factor = f: real | f >= 1.0 witness 1.0
  type Positive = n: nat | n >= 1 witness 1

  datatype Curve = Curve(strategy: Strategy, baseDelayMs: nat, backoffFactor: Factor, maxDelayMs: Option<int>)

  datatype RetryPolicy = RetryPolicy(curve: Curve, maxAttempts: Positive)

  const DEFAULT_RETRY: RetryPolicy := RetryPolicy(Curve(Exponential, 1000, 2.0, Some(60000)), 3)

  function PowNat(x: Factor, n: nat): (r: real)
    ensures r >= 1.0
  {
    if n == 0 then 1.0 else
      var p := PowNat(x, n - 1);
      assert x * p >= p;
      x * p
  }

  function Pow(x: Factor, n: int): real {
    if n < 0 then 1.0 / PowNat(x, -n) else PowNat(x, n)
  }

  /** The delay before clamp and jitter, `attempt` being the attempt that just failed. */
  function RawDelayMs(c: Curve, attempt: nat): real {
    match c.strategy
    case Fixed => c.baseDelayMs as real
    case Linear => c.baseDelayMs as real * attempt as real
    case Exponential => c.baseDelayMs as real * Pow(c.backoffFactor, attempt - 1)
  }

  function ClampedDelayMs(c: Curve, attempt: nat): real {
    var raw := RawDelayMs(c, attempt);
    match c.maxDelayMs
    case None => raw
    case Some(cap) => if raw <= cap as real then raw else cap as real
  }

  /** Rounds half up, as `Math.round` does. */
  function Round(x: real): int {
    (x + 0.5).Floor
  }

  function Jittered(d: real, rand: real): real {
    d / 2.0 + rand * (d / 2.0)
  }

  function ComputeBackoffMs(c: Curve, attempt: nat, rand: real): int {
    Round(Jittered(ClampedDelayMs(c, attempt), rand))
  }

  predicate ShouldRetry(attempt: nat, maxAttempts: nat) {
    attempt < maxAttempts
  }

  lemma {:induction false} PowMonotone(x: Factor, m: nat, n: nat)
    requires m <= n
    ensures PowNat(x, m) <= PowNat(x, n)
    decreases n - m
  {
    if m < n {
      PowMonotone(x, m, n - 1);
      var p := PowNat(x, n - 1);
      assert x * p >= p;
    }
  }

  lemma ScaleMonotone(b: real, x: real, y: real)
    requires b >= 0.0 && x <= y
    ensures b * x <= b * y
  {
    assert b * (y - x) >= 0.0;
  }

  lemma RawNondecreasing(c: Curve, a: nat, b: nat)
    requires 1 <= a <= b
    ensures RawDelayMs(c, a) <= RawDelayMs(c, b)
  {
    var base := c.baseDelayMs as real;
    match c.strategy {
      case Fixed =>
      case Linear => ScaleMonotone(base, a as real, b as real);
      case Exponential =>
        var x, y := Pow(c.backoffFactor, a - 1), Pow(c.backoffFactor, b - 1);
        PowMonotone(c.backoffFactor, a - 1, b - 1);
        ScaleMonotone(base, x, y);
        assert RawDelayMs(c, a) == base * x && RawDelayMs(c, b) == base * y;
    }
  }

  // ---- the curves, told without powers

  /** A number multiplied so many times by a factor. */
  function Multiplied(base: real, factor: Factor, times: nat): real {
    if times == 0 then base else Multiplied(base, factor, times - 1) * factor
  }

  /** What the n-th failure of a job waits for at most: the base, n times the base, or the base multiplied n - 1 times
      by the factor; no more than the cap. */
  function NominalDelayMs(c: Curve, n: Positive): real {
    var base := c.baseDelayMs as real;
    var d := if c.strategy.Fixed? then base
             else if c.strategy.Linear? then n as real * base
             else Multiplied(base, c.backoffFactor, n - 1);
    if c.maxDelayMs.Some? && d > c.maxDelayMs.value as real then c.maxDelayMs.value as real else d
  }

  /** Every curve starts at its base delay. */
  lemma RawStartsAtBase(c: Curve)
    ensures RawDelayMs(c, 1) == c.baseDelayMs as real
  {
    assert PowNat(c.backoffFactor, 0) == 1.0;
  }

  /** From one failure to the next a fixed delay stays, a linear one grows by the base, an exponential one is multiplied
      by the factor. */
  lemma RawGrowth(c: Curve, a: Positive)
    ensures c.strategy.Fixed? ==> RawDelayMs(c, a + 1) == RawDelayMs(c, a)
    ensures c.strategy.Linear? ==> RawDelayMs(c, a + 1) == RawDelayMs(c, a) + c.baseDelayMs as real
    ensures c.strategy.Exponential? ==> RawDelayMs(c, a + 1) == c.backoffFactor * RawDelayMs(c, a)
  {
    var base, x := c.baseDelayMs as real, c.backoffFactor;
    if c.strategy.Exponential? {
      assert RawDelayMs(c, a + 1) == base * (x * PowNat(x, a - 1));
      assert base * (x * PowNat(x, a - 1)) == x * (base * PowNat(x, a - 1));
    } else if c.strategy.Linear? {
      assert base * (a + 1) as real == base * a as real + base;
    }
  }

  lemma {:induction false} RawIsMultiplied(c: Curve, n: Positive)
    requires c.strategy.Exponential?
    ensures RawDelayMs(c, n) == Multiplied(c.baseDelayMs as real, c.backoffFactor, n - 1)
  {
    if n == 1 {
      RawStartsAtBase(c);
    } else {
      RawIsMultiplied(c, n - 1);
      RawGrowth(c, n - 1);
    }
  }

  /** The delay before the jitter is the nominal one. */
  lemma ClampedIsNominal(c: Curve, n: Positive)
    ensures ClampedDelayMs(c, n) == NominalDelayMs(c, n)
  {
    if c.strategy.Exponential? {
      RawIsMultiplied(c, n);
    }
  }

  /** The jitter is even: the draw 0 halves the delay, the draw 1 keeps it, and half-way is half-way. */
  lemma JitterIsEven(d: real, x: real, y: real)
    ensures Jittered(d, 0.0) == d / 2.0 && Jittered(d, 1.0) == d
    ensures Jittered(d, (x + y) / 2.0) == (Jittered(d, x) + Jittered(d, y)) / 2.0
  {
    var h := d / 2.0;
    assert (x + y) / 2.0 * h == (x * h + y * h) / 2.0;
  }

  /** The delay lies between half and all of the nominal one, up to half a millisecond of rounding, and is exactly
      that for the least and the greatest draw. (A negative cap makes the half the greater.) */
  predicate NearNominal(c: Curve, n: Positive, rand: real, delayMs: int) {
    var d := NominalDelayMs(c, n);
    && (if d >= 0.0 then d / 2.0 - 0.5 <= delayMs as real <= d + 0.5 else d - 0.5 <= delayMs as real <= d / 2.0 + 0.5)
    && (rand == 0.0 ==> delayMs == Round(d / 2.0))
    && (rand == 1.0 ==> delayMs == Round(d))
  }

  lemma NegativeJitterRange(d: real, rand: real)
    requires d < 0.0 && 0.0 <= rand <= 1.0
    ensures d <= Jittered(d, rand) <= d / 2.0
  {
    var h := -d / 2.0;
    ScaleMonotone(h, 0.0, rand);
    ScaleMonotone(h, rand, 1.0);
    assert rand * (d / 2.0) == -(h * rand);
  }

  /** The delay computed for the n-th failure is near the nominal one, whatever the curve and the cap. */
  lemma DelayIsNearNominal(c: Curve, n: Positive, rand: real)
    requires 0.0 <= rand <= 1.0
    ensures NearNominal(c, n, rand, ComputeBackoffMs(c, n, rand))
  {
    ClampedIsNominal(c, n);
    var d := ClampedDelayMs(c, n);
    if d >= 0.0 {
      JitterBounds(d, rand);
    } else {
      NegativeJitterRange(d, rand);
      RoundNear(Jittered(d, rand));
    }
    JitterIsEven(d, 0.0, 1.0);
  }

  /** The default contract: three attempts, of which the first failure waits for one second and the second for two, at
      most; were there more, none would wait for more than a minute. */
  lemma DefaultDelays(n: Positive)
    ensures DEFAULT_RETRY.maxAttempts == 3
    ensures NominalDelayMs(DEFAULT_RETRY.curve, 1) == 1000.0 && NominalDelayMs(DEFAULT_RETRY.curve, 2) == 2000.0
    ensures NominalDelayMs(DEFAULT_RETRY.curve, n) <= 60000.0
    ensures n >= 7 ==> NominalDelayMs(DEFAULT_RETRY.curve, n) == 60000.0
  {
    var c := DEFAULT_RETRY.curve;
    assert Multiplied(1000.0, 2.0, 1) == Multiplied(1000.0, 2.0, 0) * 2.0;
    if n >= 7 {
      SixDoublings();
      RawIsMultiplied(c, 7);
      RawNondecreasing(c, 7, n);
      RawIsMultiplied(c, n);
    }
  }

  lemma SixDoublings()
    ensures Multiplied(1000.0, 2.0, 6) == 64000.0
  {
    assert Multiplied(1000.0, 2.0, 2) == 4000.0;
    assert Multiplied(1000.0, 2.0, 4) == 16000.0;
  }

  /** A later failure never waits for a shorter time, on any curve and under any clamp. */
  lemma DelayNondecreasing(c: Curve, a: nat, b: nat)
    requires 1 <= a <= b
    ensures ClampedDelayMs(c, a) <= ClampedDelayMs(c, b)
  {
    RawNondecreasing(c, a, b);
  }

  lemma PowPositive(x: Factor, n: int)
    ensures Pow(x, n) >= 0.0
  {
    var p := PowNat(x, if n < 0 then -n else n);
    assert 1.0 / p >= 0.0;
  }

  lemma ClampedNonnegative(c: Curve, attempt: nat)
    requires c.maxDelayMs.Some? ==> c.maxDelayMs.value >= 0
    ensures ClampedDelayMs(c, attempt) >= 0.0
  {
    RawNonnegative(c, attempt);
  }

  lemma RawNonnegative(c: Curve, attempt: nat)
    ensures RawDelayMs(c, attempt) >= 0.0
  {
    var base := c.baseDelayMs as real;
    match c.strategy {
      case Fixed =>
      case Linear => ScaleMonotone(base, 0.0, attempt as real);
      case Exponential =>
        PowPositive(c.backoffFactor, attempt - 1);
        ScaleMonotone(base, 0.0, Pow(c.backoffFactor, attempt - 1));
    }
  }

  lemma JitterRange(d: real, rand: real)
    requires d >= 0.0 && 0.0 <= rand <= 1.0
    ensures d / 2.0 <= Jittered(d, rand) <= d
  {
    var h := d / 2.0;
    ScaleMonotone(h, 0.0, rand);
    ScaleMonotone(h, rand, 1.0);
    assert rand * h == h * rand;
  }

  lemma RoundNear(y: real)
    ensures y - 0.5 <= Round(y) as real <= y + 0.5
  {}

  lemma RoundWhole(n: int, y: real)
    requires n as real / 2.0 <= y <= n as real
    ensures n as real / 2.0 <= Round(y) as real <= n as real
  {
    var k := n / 2;
    assert Round(y) <= n;
    if n % 2 == 0 {
      assert n as real / 2.0 == k as real;
      assert Round(y) >= k;
    } else {
      assert n as real / 2.0 == k as real + 0.5;
      assert Round(y) >= k + 1;
    }
  }

  /** Equal jitter keeps at least half of the clamped delay and never passes it, up to the rounding; on
      a whole delay the rounding costs nothing. */
  lemma JitterKeepsHalf(c: Curve, attempt: nat, rand: real)
    requires 0.0 <= rand <= 1.0
    requires c.maxDelayMs.Some? ==> c.maxDelayMs.value >= 0
    ensures var d, r := ClampedDelayMs(c, attempt), ComputeBackoffMs(c, attempt, rand) as real;
            && d / 2.0 - 0.5 <= r <= d + 0.5
            && (d == d.Floor as real ==> d / 2.0 <= r <= d)
  {
    ClampedNonnegative(c, attempt);
    var d := ClampedDelayMs(c, attempt);
    JitterBounds(d, rand);
  }

  lemma JitterBounds(d: real, rand: real)
    requires d >= 0.0 && 0.0 <= rand <= 1.0
    ensures d / 2.0 - 0.5 <= Round(Jittered(d, rand)) as real <= d + 0.5
    ensures d == d.Floor as real ==> d / 2.0 <= Round(Jittered(d, rand)) as real <= d
  {
    JitterRange(d, rand);
    var y := Jittered(d, rand);
    RoundNear(y);
    if d == d.Floor as real {
      RoundWhole(d.Floor, y);
    }
  }

  lemma NegativeCapOvershoots(cap: int)
    requires cap < 0
    ensures Round(Jittered(cap as real, 0.0)) > cap
  {
    var d := cap as real;
    assert 0.0 * (d / 2.0) == 0.0;
    assert Jittered(d, 0.0) == d / 2.0;
    assert d / 2.0 + 0.5 >= d + 1.0;
  }

  lemma CapBoundsDraw(c: Curve, attempt: nat, rand: real)
    requires c.maxDelayMs.Some? && c.maxDelayMs.value >= 0 && 0.0 <= rand <= 1.0
    ensures ComputeBackoffMs(c, attempt, rand) <= c.maxDelayMs.value
  {
    ClampedNonnegative(c, attempt);
    var d := ClampedDelayMs(c, attempt);
    JitterRange(d, rand);
    var y := Jittered(d, rand);
    assert y <= c.maxDelayMs.value as real;
  }

  /** The cap bounds the jittered delay for every draw exactly when it is not negative. */
  lemma CapHoldsIffNonnegative(c: Curve, attempt: nat)
    requires c.maxDelayMs.Some?
    ensures (forall rand: real | 0.0 <= rand <= 1.0 :: ComputeBackoffMs(c, attempt, rand) <= c.maxDelayMs.value)
            <==> c.maxDelayMs.value >= 0
  {
    var cap := c.maxDelayMs.value;
    if cap >= 0 {
      forall rand: real | 0.0 <= rand <= 1.0
        ensures ComputeBackoffMs(c, attempt, rand) <= cap
      {
        CapBoundsDraw(c, attempt, rand);
      }
    } else {
      RawNonnegative(c, attempt);
      assert ClampedDelayMs(c, attempt) == cap as real;
      NegativeCapOvershoots(cap);
      assert ComputeBackoffMs(c, attempt, 0.0) > cap;
    }
  }

  predicate InRange(c: Curve, attempt: nat, rand: real) {
    var d, r := ClampedDelayMs(c, attempt), ComputeBackoffMs(c, attempt, rand) as real;
    d / 2.0 - 0.5 <= r <= d + 0.5
  }

  /** The jittered delay stays between half and whole of the clamped one for every draw exactly when no negative cap
      clamps it. */
  lemma InRangeIffNoNegativeCap(c: Curve, attempt: nat)
    ensures (forall rand: real | 0.0 <= rand <= 1.0 :: InRange(c, attempt, rand))
            <==> (c.maxDelayMs.Some? ==> c.maxDelayMs.value >= 0)
  {
    if c.maxDelayMs.Some? && c.maxDelayMs.value < 0 {
      RawNonnegative(c, attempt);
      NegativeCapOvershoots(c.maxDelayMs.value);
      assert !InRange(c, attempt, 0.0);
    } else {
      forall rand: real | 0.0 <= rand <= 1.0 ensures InRange(c, attempt, rand) {
        JitterKeepsHalf(c, attempt, rand);
      }
    }
  }
}
