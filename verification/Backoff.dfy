/**
 Capped exponential backoff (supervisor/backoff.go). Durations are whole nanoseconds; the float64
 arithmetic is modelled over the reals.
 */
module Backoff {
  import opened Common

  const DEFAULT_MIN: int := 100_000_000
  const DEFAULT_MAX: int := 10 * SECOND
  const DEFAULT_FACTOR: real := 2.0

  datatype Backoff = Backoff(min: int, max: int, factor: real, jitter: real)

  function EffectiveMin(b: Backoff): int { if b.min <= 0 then DEFAULT_MIN else b.min }

  function EffectiveMax(b: Backoff): int { if b.max <= 0 then DEFAULT_MAX else b.max }

  function EffectiveFactor(b: Backoff): real { if b.factor <= 1.0 then DEFAULT_FACTOR else b.factor }

  /** Conversion of a float64 to an integer: towards zero. */
  function Truncate(x: real): int {
    if x >= 0.0 then x.Floor else -(-x).Floor
  }

  function Pow(x: real, n: nat): real {
    if n == 0 then 1.0 else x * Pow(x, n - 1)
  }

  function MinReal(x: real, y: real): real { if x <= y then x else y }

  function Clamp(x: int, low: int, high: int): int {
    if x < low then low else if x > high then high else x
  }

  /** `x` multiplied `n` times by `factor`. */
  function Grown(x: real, factor: real, n: nat): real {
    if n == 0 then x else Grown(x, factor, n - 1) * factor
  }

  /** min * factor^(attempt - 1), capped at max. */
  function Base(b: Backoff, attempt: nat): real
    requires attempt >= 1
  {
    MinReal(EffectiveMax(b) as real, Grown(EffectiveMin(b) as real, EffectiveFactor(b), attempt - 1))
  }

  /** How far the jitter reaches from a base. */
  function Range(base: real, jitter: real): real {
    base * jitter
  }

  /** `draw` comes from rand.Float64 and decides how much of the range, and in which direction. */
  function Offset(range: real, draw: real): real {
    (draw * 2.0 - 1.0) * range
  }

  /** The base moved by up to jitter * base either way. */
  function Jittered(b: Backoff, base: real, draw: real): real {
    if b.jitter > 0.0 then base + Offset(Range(base, b.jitter), draw) else base
  }

  /** The delay before the restart that follows attempt `attempt`. */
  function Delay(b: Backoff, attempt: int, draw: real): int {
    if attempt <= 1 then b.min
    else Clamp(Truncate(Jittered(b, Base(b, attempt), draw)), EffectiveMin(b), EffectiveMax(b))
  }

  /** Duration, with `draw` the value drawn from rand.Float64. */
  method Duration(b: Backoff, attempt: int, draw: real) returns (result: int)
    requires 0.0 <= draw < 1.0
    ensures result == Delay(b, attempt, draw)
  {
    if attempt <= 1 {
      return b.min;
    }
    var min, max, factor := b.min, b.max, b.factor;
    if min <= 0 {
      min := DEFAULT_MIN;
    }
    if max <= 0 {
      max := DEFAULT_MAX;
    }
    if factor <= 1.0 {
      factor := DEFAULT_FACTOR;
    }
    var dur := Growth(min as real, max as real, factor, attempt);
    assert dur == Base(b, attempt);
    dur := AddJitter(b, dur, draw);
    result := Truncate(dur);
    if result < min {
      return min;
    }
    if result > max {
      return max;
    }
  }

  /** The growth loop, with its early exit at the cap. */
  method Growth(min: real, max: real, factor: real, attempt: nat) returns (dur: real)
    requires min >= 0.0 && factor > 1.0 && attempt >= 2
    ensures dur == MinReal(max, Grown(min, factor, attempt - 1))
  {
    dur := min;
    var i := 1;
    while i < attempt
      invariant 1 <= i <= attempt
      invariant dur == Grown(min, factor, i - 1)
      invariant i > 1 ==> dur < max
    {
      dur := dur * factor;
      if dur >= max {
        Grows(min, factor, i, attempt - 1);
        return max;
      }
      i := i + 1;
    }
  }

  method AddJitter(b: Backoff, base: real, draw: real) returns (dur: real)
    ensures dur == Jittered(b, base, draw)
  {
    dur := base;
    if b.jitter > 0.0 {
      var jitterRange := dur * b.jitter;
      var jitterOffset := (draw * 2.0 - 1.0) * jitterRange;
      dur := dur + jitterOffset;
    }
  }

  lemma MulMonotone(x: real, a: real, b: real)
    requires x >= 0.0 && a <= b
    ensures x * a <= x * b
  {}

  lemma {:induction false} Grows(x: real, f: real, m: nat, n: nat)
    requires x >= 0.0 && f >= 1.0 && m <= n
    ensures 0.0 <= x <= Grown(x, f, m) <= Grown(x, f, n)
    decreases n, m
  {
    if m < n {
      Grows(x, f, m, n - 1);
      MulMonotone(Grown(x, f, n - 1), 1.0, f);
    } else if m > 0 {
      Grows(x, f, m - 1, m - 1);
      MulMonotone(Grown(x, f, m - 1), 1.0, f);
    }
  }

  lemma {:induction false} GrownIsProduct(x: real, f: real, n: nat)
    ensures Grown(x, f, n) == x * Pow(f, n)
  {
    if n > 0 {
      GrownIsProduct(x, f, n - 1);
      Associate(x, Pow(f, n - 1), f);
    }
  }

  lemma Associate(x: real, p: real, f: real)
    ensures x * p * f == x * (f * p)
  {}

  /** Growth by a factor above one exceeds growth by a constant step. */
  lemma {:induction false} Bernoulli(x: real, f: real, n: nat)
    requires x >= 1.0 && f >= 1.0
    ensures Grown(x, f, n) >= 1.0 + n as real * (f - 1.0)
  {
    if n > 0 {
      Bernoulli(x, f, n - 1);
      Grows(x, f, 0, n - 1);
      BernoulliStep(Grown(x, f, n - 1), f - 1.0, (n - 1) as real);
      assert n as real == (n - 1) as real + 1.0;
    }
  }

  lemma BernoulliStep(g: real, d: real, k: real)
    requires g >= 1.0 && d >= 0.0 && g >= 1.0 + k * d
    ensures g * (d + 1.0) >= 1.0 + (k + 1.0) * d
  {
    MulMonotone(d, 1.0, g);
    assert g * (d + 1.0) == g + d * g;
    assert (k + 1.0) * d == k * d + d;
  }

  // ------------------------------------------------------------------------------------------
  // What the delays are
  // ------------------------------------------------------------------------------------------

  /** Minimum and maximum, after the defaults, are in order. */
  predicate InOrder(b: Backoff) {
    EffectiveMin(b) <= EffectiveMax(b)
  }

  lemma TruncateMonotone(x: real, y: real)
    requires x <= y
    ensures Truncate(x) <= Truncate(y)
  {}

  lemma BaseInRange(b: Backoff, attempt: nat)
    requires InOrder(b) && attempt >= 1
    ensures 1.0 <= EffectiveMin(b) as real <= Base(b, attempt) <= EffectiveMax(b) as real
  {
    Grows(EffectiveMin(b) as real, EffectiveFactor(b), 0, attempt - 1);
  }

  /** With minimum and maximum out of order the base is the maximum at once. */
  lemma BaseOutOfOrder(b: Backoff, attempt: nat)
    requires !InOrder(b) && attempt >= 1
    ensures Base(b, attempt) == EffectiveMax(b) as real
  {
    Grows(EffectiveMin(b) as real, EffectiveFactor(b), 0, attempt - 1);
  }

  /** The closed form: without jitter the early-exit loop computes min(Max, Min * Factor^(n-1)),
      truncated. */
  lemma ClosedForm(b: Backoff, attempt: nat, draw: real)
    requires 0 < b.min <= b.max && b.factor > 1.0 && b.jitter <= 0.0 && attempt >= 1
    ensures var exact := (b.min as real * Pow(b.factor, attempt - 1)).Floor;
            Delay(b, attempt, draw) == if exact <= b.max then exact else b.max
  {
    hide Grown, Pow, Delay;
    GrownIsProduct(b.min as real, b.factor, attempt - 1);
    DelayIsFloor(b, attempt, draw);
  }

  /** The defaults: from the second attempt on, a field that is not positive counts as 100 ms or 10 s,
      and a factor that is not above one as 2; every other field counts as it is. The first attempt
      waits the configured Min, whatever it is. */
  lemma Defaults(b: Backoff, attempt: int, draw: real)
    ensures attempt > 1 ==>
              Delay(b, attempt, draw) ==
              Delay(Backoff(if b.min <= 0 then 100_000_000 else b.min,
                            if b.max <= 0 then 10_000_000_000 else b.max,
                            if b.factor <= 1.0 then 2.0 else b.factor, b.jitter), attempt, draw)
    ensures attempt <= 1 ==> Delay(b, attempt, draw) == b.min
  {}

  /** The closed form with jitter: the base is moved by a share of Jitter * base between -1 and 1 that
      the draw decides, and what leaves the range from Min to Max is clamped. */
  lemma JitteredForm(b: Backoff, attempt: nat, draw: real, base: real, moved: real)
    requires 0 < b.min <= b.max && b.factor > 1.0 && b.jitter > 0.0 && attempt >= 2
    requires var grown := b.min as real * Pow(b.factor, attempt - 1);
             base == if grown <= b.max as real then grown else b.max as real
    requires moved == base + (2.0 * draw - 1.0) * (b.jitter * base)
    ensures Delay(b, attempt, draw) ==
            if moved < b.min as real then b.min
            else if moved >= (b.max + 1) as real then b.max
            else moved.Floor
  {
    hide Grown, Pow, Jittered;
    GrownIsProduct(b.min as real, b.factor, attempt - 1);
    assert Base(b, attempt) == base;
    MovedIsJittered(b, base, draw, moved);
    TruncateBelowIff(moved, b.min);
    TruncateBelowIff(moved, b.max + 1);
  }

  lemma MovedIsJittered(b: Backoff, base: real, draw: real, moved: real)
    requires b.jitter > 0.0 && moved == base + (2.0 * draw - 1.0) * (b.jitter * base)
    ensures Jittered(b, base, draw) == moved
  {
    assert base * b.jitter == b.jitter * base;
  }

  /** Min 100 ms, Max 10 s, Factor 3, no jitter: 100, 300 and 900 ms, then 2.7 s, 8.1 s and 10 s. */
  lemma TripledDelays(draw: real)
    ensures var b := Backoff(100_000_000, 10_000_000_000, 3.0, 0.0);
            && Delay(b, 1, draw) == 100_000_000 && Delay(b, 2, draw) == 300_000_000
            && Delay(b, 3, draw) == 900_000_000 && Delay(b, 4, draw) == 2_700_000_000
            && Delay(b, 5, draw) == 8_100_000_000 && Delay(b, 6, draw) == 10_000_000_000
  {
    var b := Backoff(100_000_000, 10_000_000_000, 3.0, 0.0);
    assert Pow(3.0, 1) == 3.0 && Pow(3.0, 2) == 9.0;
    assert Pow(3.0, 3) == 27.0 && Pow(3.0, 4) == 81.0 && Pow(3.0, 5) == 243.0;
    ClosedForm(b, 1, draw);
    ClosedForm(b, 2, draw);
    ClosedForm(b, 3, draw);
    ClosedForm(b, 4, draw);
    ClosedForm(b, 5, draw);
    ClosedForm(b, 6, draw);
  }

  lemma DelayIsFloor(b: Backoff, attempt: nat, draw: real)
    requires InOrder(b) && b.jitter <= 0.0 && attempt >= 1 && (attempt > 1 || b.min > 0)
    ensures var exact := Grown(EffectiveMin(b) as real, EffectiveFactor(b), attempt - 1).Floor;
            Delay(b, attempt, draw) == if exact <= EffectiveMax(b) then exact else EffectiveMax(b)
  {
    var min, max, factor := EffectiveMin(b), EffectiveMax(b), EffectiveFactor(b);
    var exact := Grown(min as real, factor, attempt - 1);
    Grows(min as real, factor, 0, attempt - 1);
    if exact <= max as real {
      TruncateMonotone(min as real, exact);
      TruncateMonotone(exact, max as real);
    } else {
      TruncateMonotone(max as real, exact);
    }
  }

  /** Without jitter, a later attempt never waits less, whatever the configuration. */
  lemma NonDecreasing(b: Backoff, m: int, n: int, draw: real)
    requires b.jitter <= 0.0 && m <= n
    ensures Delay(b, m, draw) <= Delay(b, n, draw)
  {
    if m > 1 {
      Grows(EffectiveMin(b) as real, EffectiveFactor(b), m - 1, n - 1);
      TruncateMonotone(Base(b, m), Base(b, n));
      if !InOrder(b) {
        BaseOutOfOrder(b, m);
        BaseOutOfOrder(b, n);
      }
    } else if n > 1 {
      FirstIsLeast(b, n, draw);
    }
  }

  lemma FirstIsLeast(b: Backoff, n: nat, draw: real)
    requires b.jitter <= 0.0 && n > 1
    ensures b.min <= Delay(b, n, draw)
  {
    if InOrder(b) {
      BaseInRange(b, n);
      TruncateMonotone(EffectiveMin(b) as real, Base(b, n));
    } else {
      BaseOutOfOrder(b, n);
    }
  }

  /** Without jitter, all attempts from some finite one on wait exactly Max, or Min if that is more. */
  lemma EventuallyMax(b: Backoff) returns (from: nat)
    requires b.jitter <= 0.0
    ensures from >= 1
    ensures forall n: nat, draw: real :: n >= from ==>
              Delay(b, n, draw) == if InOrder(b) then EffectiveMax(b) else EffectiveMin(b)
  {
    var d := EffectiveFactor(b) - 1.0;
    var needed := EffectiveMax(b) as real / d;
    assert needed * d == EffectiveMax(b) as real;
    from := needed.Floor + 2;
    forall n: nat, draw: real | n >= from
      ensures Delay(b, n, draw) == if InOrder(b) then EffectiveMax(b) else EffectiveMin(b)
    {
      CappedFrom(b, n, needed, draw);
    }
  }

  lemma ReachesCap(b: Backoff, n: nat, needed: real)
    requires n >= 2 && (n - 1) as real >= needed
    requires needed * (EffectiveFactor(b) - 1.0) == EffectiveMax(b) as real
    ensures Base(b, n) == EffectiveMax(b) as real
  {
    hide Grown;
    var factor, k := EffectiveFactor(b), (n - 1) as real;
    Steps(factor - 1.0, needed, k, EffectiveMax(b) as real);
    Bernoulli(EffectiveMin(b) as real, factor, n - 1);
  }

  lemma Steps(d: real, needed: real, k: real, max: real)
    requires d >= 0.0 && needed <= k && needed * d == max
    ensures k * d >= max
  {
    MulMonotone(d, needed, k);
    assert d * needed == needed * d && d * k == k * d;
  }

  lemma CappedFrom(b: Backoff, n: nat, needed: real, draw: real)
    requires b.jitter <= 0.0 && n >= 2 && (n - 1) as real >= needed
    requires needed * (EffectiveFactor(b) - 1.0) == EffectiveMax(b) as real
    ensures Delay(b, n, draw) == if InOrder(b) then EffectiveMax(b) else EffectiveMin(b)
  {
    if InOrder(b) {
      ReachesCap(b, n, needed);
    } else {
      BaseOutOfOrder(b, n);
    }
  }

  lemma OffsetInRange(range: real, draw: real)
    requires range >= 0.0 && 0.0 <= draw < 1.0
    ensures -range == Offset(range, 0.0) <= Offset(range, draw) <= range
    ensures range > 0.0 ==> Offset(range, draw) < range && (Offset(range, draw) < 0.0 <==> draw < 0.5)
  {
    var share := draw * 2.0 - 1.0;
    MulMonotone(range, -1.0, share);
    MulMonotone(range, share, 1.0);
    assert share * range == range * share;
    if range > 0.0 {
      assert range * (1.0 - share) > 0.0;
      assert range * (1.0 - share) == range - range * share;
      if share < 0.0 {
        assert range * -share > 0.0;
      } else {
        MulMonotone(range, 0.0, share);
      }
    }
  }

  lemma Spread(base: real, jitter: real)
    requires base >= 0.0 && jitter > 0.0
    ensures base * (1.0 - jitter) == base - Range(base, jitter)
    ensures base * (1.0 + jitter) == base + Range(base, jitter)
    ensures Range(base, jitter) >= 0.0 && (base > 0.0 ==> Range(base, jitter) > 0.0)
  {}

  /** How far the draws move a base: to the lower end exactly, to the upper end never quite. */
  lemma OffsetBounds(b: Backoff, base: real, draw: real)
    requires base >= 0.0 && b.jitter > 0.0 && 0.0 <= draw < 1.0
    ensures base * (1.0 - b.jitter) == Jittered(b, base, 0.0) <= Jittered(b, base, draw)
    ensures Jittered(b, base, draw) <= base * (1.0 + b.jitter)
    ensures base > 0.0 ==> Jittered(b, base, draw) < base * (1.0 + b.jitter)
  {
    hide Offset, Range;
    Spread(base, b.jitter);
    OffsetInRange(Range(base, b.jitter), draw);
  }

  lemma ClippedWindow(x: real, low: real, high: real, min: int, max: int)
    requires low <= x <= high && min <= max
    ensures min <= Clamp(Truncate(x), min, max) <= max
    ensures Clamp(Truncate(low), min, max) <= Clamp(Truncate(x), min, max) <= Clamp(Truncate(high), min, max)
  {
    TruncateMonotone(low, x);
    TruncateMonotone(x, high);
  }

  /** With jitter J, the delay lies in [Min, Max], and within base * (1 - J) .. base * (1 + J)
      clipped to that range, where base is the delay without jitter before truncation. */
  lemma JitterWindow(b: Backoff, attempt: nat, base: real, draw: real)
    requires InOrder(b) && attempt >= 1 && (attempt > 1 || b.min > 0)
    requires b.jitter > 0.0 && base == Base(b, attempt) && 0.0 <= draw < 1.0
    ensures EffectiveMin(b) <= Delay(b, attempt, draw) <= EffectiveMax(b)
    ensures Clamp(Truncate(base * (1.0 - b.jitter)), EffectiveMin(b), EffectiveMax(b)) <= Delay(b, attempt, draw)
    ensures Delay(b, attempt, draw) <= Clamp(Truncate(base * (1.0 + b.jitter)), EffectiveMin(b), EffectiveMax(b))
  {
    var low, high := base * (1.0 - b.jitter), base * (1.0 + b.jitter);
    BaseInRange(b, attempt);
    OffsetBounds(b, base, draw);
    if attempt > 1 {
      ClippedWindow(Jittered(b, base, draw), low, high, EffectiveMin(b), EffectiveMax(b));
    } else {
      assert base == b.min as real;
      assert low <= base <= high;
      ClippedWindow(base, low, high, b.min, EffectiveMax(b));
    }
  }

  lemma ClampInRangeIff(x: int, low: int, high: int)
    ensures low <= Clamp(x, low, high) <= high <==> low <= high
  {}

  /** For every configuration: the delay lies between the effective minimum and the effective
      maximum exactly when these are in order and, for the first attempt, which returns the raw
      Min, that Min is positive. */
  lemma InRangeIff(b: Backoff, attempt: int, draw: real)
    ensures EffectiveMin(b) <= Delay(b, attempt, draw) <= EffectiveMax(b)
            <==> InOrder(b) && (attempt > 1 || b.min > 0)
  {
    if attempt > 1 {
      ClampInRangeIff(Truncate(Jittered(b, Base(b, attempt), draw)), EffectiveMin(b), EffectiveMax(b));
    }
  }

  // ------------------------------------------------------------------------------------------
  // When jitter shortens a delay
  // ------------------------------------------------------------------------------------------

  /** The delay before attempt `attempt` would get without jitter. */
  function Plain(b: Backoff, attempt: int): int {
    Delay(b.(jitter := 0.0), attempt, 0.0)
  }

  ghost predicate CanFallBelow(b: Backoff, attempt: int) {
    exists draw :: 0.0 <= draw < 1.0 && Delay(b, attempt, draw) < Plain(b, attempt)
  }

  /** A draw below one half lowers the value before truncation, and no other does. */
  lemma DrawLowersIff(b: Backoff, base: real, draw: real)
    requires base > 0.0 && b.jitter > 0.0 && 0.0 <= draw < 1.0
    ensures Jittered(b, base, draw) < base <==> draw < 0.5
  {
    hide Offset, Range;
    Spread(base, b.jitter);
    OffsetInRange(Range(base, b.jitter), draw);
  }

  lemma TruncateBelowIff(x: real, k: int)
    requires k >= 1
    ensures Truncate(x) < k <==> x < k as real
  {}

  /** For every configuration, some draw makes the delay shorter than it is without jitter exactly
      if the attempt is not the first, there is jitter, and: where Min and Max are in order, the base
      exceeds Min by at least one nanosecond and the jitter reaches below the base's whole part; where
      they are not, the jitter reaches from Max up to beyond Min, where the clamping returns Max. */
  lemma FallsBelowIff(b: Backoff, attempt: int)
    ensures CanFallBelow(b, attempt) <==>
              && attempt > 1 && b.jitter > 0.0
              && var min, max, base := EffectiveMin(b), EffectiveMax(b), Base(b, attempt);
                 if InOrder(b) then base.Floor > min && base * (1.0 - b.jitter) < base.Floor as real
                 else max as real * (1.0 + b.jitter) > min as real
  {
    if attempt > 1 && b.jitter > 0.0 {
      if InOrder(b) {
        FallsBelowInOrder(b, attempt);
      } else {
        FallsBelowOutOfOrder(b, attempt);
      }
    }
  }

  lemma FallsBelowInOrder(b: Backoff, attempt: nat)
    requires attempt > 1 && b.jitter > 0.0 && InOrder(b)
    ensures CanFallBelow(b, attempt) <==>
              var base := Base(b, attempt);
              base.Floor > EffectiveMin(b) && base * (1.0 - b.jitter) < base.Floor as real
  {
    hide Delay, Base, EffectiveMin;
    LowestFallsBelowIff(b, attempt);
    forall draw | 0.0 <= draw < 1.0
      ensures Delay(b, attempt, 0.0) <= Delay(b, attempt, draw)
    {
      LowestDrawIsLeast(b, attempt, draw);
    }
  }

  lemma LowestFallsBelowIff(b: Backoff, attempt: nat)
    requires attempt > 1 && b.jitter > 0.0 && InOrder(b)
    ensures Delay(b, attempt, 0.0) < Plain(b, attempt) <==>
              var base := Base(b, attempt);
              base.Floor > EffectiveMin(b) && base * (1.0 - b.jitter) < base.Floor as real
  {
    hide Base, Jittered, EffectiveMin, EffectiveMax, Plain;
    var base := Base(b, attempt);
    BaseInRange(b, attempt);
    PlainIsFloor(b, attempt);
    OffsetBounds(b, base, 0.0);
    ClampBelowIff(Jittered(b, base, 0.0), EffectiveMin(b), EffectiveMax(b), base.Floor);
  }

  lemma ClampBelowIff(x: real, min: int, max: int, k: int)
    requires 1 <= min <= k <= max
    ensures Clamp(Truncate(x), min, max) < k <==> k > min && x < k as real
  {
    TruncateBelowIff(x, k);
  }

  lemma PlainIsFloor(b: Backoff, attempt: nat)
    requires attempt > 1 && InOrder(b)
    ensures Plain(b, attempt) == Base(b, attempt).Floor
  {
    var base := Base(b, attempt);
    BaseInRange(b, attempt);
    TruncateMonotone(EffectiveMin(b) as real, base);
    TruncateMonotone(base, EffectiveMax(b) as real);
    assert Base(b.(jitter := 0.0), attempt) == base;
  }

  lemma LowestDrawIsLeast(b: Backoff, attempt: nat, draw: real)
    requires attempt > 1 && b.jitter > 0.0 && InOrder(b) && 0.0 <= draw < 1.0
    ensures Delay(b, attempt, 0.0) <= Delay(b, attempt, draw)
  {
    hide Offset, Range, Grown;
    var base := Base(b, attempt);
    BaseInRange(b, attempt);
    OffsetBounds(b, base, draw);
    ClippedWindow(Jittered(b, base, draw), Jittered(b, base, 0.0), Jittered(b, base, draw),
                  EffectiveMin(b), EffectiveMax(b));
  }

  lemma FallsBelowOutOfOrder(b: Backoff, attempt: nat)
    requires attempt > 1 && b.jitter > 0.0 && !InOrder(b)
    ensures CanFallBelow(b, attempt) <==> EffectiveMax(b) as real * (1.0 + b.jitter) > EffectiveMin(b) as real
  {
    hide Offset, Range, Base, Delay, Plain, Jittered;
    var min, max := EffectiveMin(b) as real, EffectiveMax(b) as real;
    if max * (1.0 + b.jitter) > min {
      var draw := ReachingDraw(b, max, min);
      DrawFallsBelowIff(b, attempt, draw);
    } else {
      forall draw | 0.0 <= draw < 1.0
        ensures Delay(b, attempt, draw) >= Plain(b, attempt)
      {
        OffsetBounds(b, max, draw);
        DrawFallsBelowIff(b, attempt, draw);
      }
    }
  }

  lemma DrawFallsBelowIff(b: Backoff, attempt: nat, draw: real)
    requires attempt > 1 && b.jitter > 0.0 && !InOrder(b)
    ensures Delay(b, attempt, draw) < Plain(b, attempt) <==>
            Jittered(b, EffectiveMax(b) as real, draw) >= EffectiveMin(b) as real
  {
    hide Offset, Range, Base;
    BaseOutOfOrder(b, attempt);
    BaseOutOfOrder(b.(jitter := 0.0), attempt);
    TruncateBelowIff(Jittered(b, EffectiveMax(b) as real, draw), EffectiveMin(b));
  }

  /** A target within reach above the base is hit by some draw. */
  lemma ReachingDraw(b: Backoff, base: real, target: real) returns (draw: real)
    requires 0.0 < base < target < base * (1.0 + b.jitter) && b.jitter > 0.0
    ensures 0.0 <= draw < 1.0 && Jittered(b, base, draw) == target
  {
    hide Offset, Range;
    Spread(base, b.jitter);
    draw := DrawFor(Range(base, b.jitter), target - base);
  }

  lemma DrawFor(range: real, offset: real) returns (draw: real)
    requires 0.0 < offset < range
    ensures 0.0 <= draw < 1.0 && Offset(range, draw) == offset
  {
    var share := offset / range;
    assert share * range == offset;
    QuotientBelowOne(share, range, offset);
    draw := (share + 1.0) / 2.0;
    assert draw * 2.0 - 1.0 == share;
  }

  lemma QuotientBelowOne(q: real, range: real, offset: real)
    requires 0.0 < offset < range && q * range == offset
    ensures 0.0 <= q < 1.0
  {
    if q < 0.0 {
      MulMonotone(range, q, 0.0);
    } else if q >= 1.0 {
      MulMonotone(range, 1.0, q);
    }
  }

  /** DefaultBackoff. */
  const DEFAULT := Backoff(DEFAULT_MIN, DEFAULT_MAX, DEFAULT_FACTOR, 0.1)

  /** With the default configuration the second delay can be 180 ms instead of 200 ms. */
  lemma DefaultFallsBelow()
    ensures Delay(DEFAULT, 2, 0.0) == 180_000_000 && Plain(DEFAULT, 2) == 200_000_000
  {
    assert Grown(100_000_000.0, 2.0, 0) == 100_000_000.0;
    assert Base(DEFAULT, 2) == 200_000_000.0;
    assert Jittered(DEFAULT, 200_000_000.0, 0.0) == 180_000_000.0;
  }
}
