/** Adaptive reconnect backoff (packages/core/src/resilience/adaptive-backoff.ts), over the reals. */
module Backoff {

  /** A JavaScript number: NonFinite stands for NaN and the infinities. */
  datatype Num = Finite(value: real) | NonFinite

  datatype Options = Options(baseDelayMs: Num, jitterRatio: Num, maxDelayMs: Num)

  const MAX_MS := 300_000.0
  const DEFAULTS := Options(Finite(1000.0), Finite(0.1), Finite(MAX_MS))

  function Pow2(n: nat): (p: real)
    ensures p >= 1.0
  {
    if n == 0 then 1.0 else 2.0 * Pow2(n - 1)
  }

  function Clamp01(x: real): real {
    if x < 0.0 then 0.0 else if x > 1.0 then 1.0 else x
  }

  function Lesser(x: real, y: real): real {
    if x <= y then x else y
  }

  function Attempt(a: Num): nat {
    if a.Finite? && a.value.Floor > 0 then a.value.Floor else 0
  }

  function Rate(r: Num): real {
    if r.Finite? then Clamp01(r.value) else 0.0
  }

  function Base(o: Options): real {
    if o.baseDelayMs.Finite? && o.baseDelayMs.value > 0.0 then o.baseDelayMs.value else 1000.0
  }

  function JitterRatio(o: Options): real {
    if o.jitterRatio.Finite? then Clamp01(o.jitterRatio.value) else 0.1
  }

  function Cap(o: Options): real {
    if o.maxDelayMs.Finite? && o.maxDelayMs.value > 0.0 then o.maxDelayMs.value else MAX_MS
  }

  function BaseDelay(attempt: Num, o: Options): real {
    Base(o) * Pow2(Attempt(attempt))
  }

  /** The delay `e`, stretched by the failure rate and by a random part of the jitter. */
  function Stretched(e: real, rate: real, random: real, jitterRatio: real): real {
    var jitter := random * e * jitterRatio;
    e * (1.0 + rate) + jitter
  }

  function CalculateBackoff(attempt: Num, failureRate: Num, o: Options, random: real): real {
    Lesser(Stretched(BaseDelay(attempt, o), Rate(failureRate), random, JitterRatio(o)), Cap(o))
  }

  lemma Scaled(x: real, lo: real, hi: real)
    requires x >= 0.0 && lo <= hi
    ensures x * lo <= x * hi
  {
  }

  lemma JitterBounds(e: real, random: real, j: real)
    requires e >= 0.0 && 0.0 <= random < 1.0 && 0.0 <= j
    ensures 0.0 <= random * e * j <= e * j
  {
    var x := random * e;
    assert 0.0 <= x <= e by {
      Scaled(e, 0.0, random);
      Scaled(e, random, 1.0);
    }
    Scaled(j, 0.0, x);
    Scaled(j, x, e);
    assert x * j == j * x && e * j == j * e;
  }

  lemma StretchBounds(e: real, rate: real, random: real, j: real)
    requires e >= 0.0 && 0.0 <= rate <= 1.0 && 0.0 <= random < 1.0 && 0.0 <= j
    ensures e <= Stretched(e, rate, random, j) <= e * 2.0 + e * j
  {
    RateBounds(e, rate);
    JitterBounds(e, random, j);
  }

  lemma RateBounds(e: real, rate: real)
    requires e >= 0.0 && 0.0 <= rate <= 1.0
    ensures e <= e * (1.0 + rate) <= e * 2.0
  {
    Scaled(e, 1.0, 1.0 + rate);
    Scaled(e, 1.0 + rate, 2.0);
  }

  lemma StretchDoubles(e: real, rate: real, random: real, j: real)
    ensures Stretched(2.0 * e, rate, random, j) == 2.0 * Stretched(e, rate, random, j)
  {
    assert (2.0 * e) * (1.0 + rate) == 2.0 * (e * (1.0 + rate));
    var x := random * e;
    assert random * (2.0 * e) == 2.0 * x;
    assert (2.0 * x) * j == 2.0 * (x * j);
  }

  lemma BaseDelayPositive(attempt: Num, o: Options)
    ensures BaseDelay(attempt, o) > 0.0
  {
    Scaled(Base(o), 1.0, Pow2(Attempt(attempt)));
  }

  /** Between the pure exponential and the exponential with full jitter, never above the cap. */
  lemma BackoffBounds(attempt: Num, failureRate: Num, o: Options, random: real)
    requires 0.0 <= random < 1.0
    ensures var d, e := CalculateBackoff(attempt, failureRate, o, random), BaseDelay(attempt, o);
            Lesser(e, Cap(o)) <= d <= Lesser(e * 2.0 + e * JitterRatio(o), Cap(o)) && d > 0.0
  {
    BaseDelayPositive(attempt, o);
    StretchBounds(BaseDelay(attempt, o), Rate(failureRate), random, JitterRatio(o));
  }

  lemma DefaultBackoffBounds(attempt: nat, failureRate: Num, random: real)
    requires 0.0 <= random < 1.0
    ensures 1000.0 <= Lesser(1000.0 * Pow2(attempt), MAX_MS)
            <= CalculateBackoff(Finite(attempt as real), failureRate, DEFAULTS, random) <= MAX_MS
  {
    BackoffBounds(Finite(attempt as real), failureRate, DEFAULTS, random);
    assert Attempt(Finite(attempt as real)) == attempt;
    assert BaseDelay(Finite(attempt as real), DEFAULTS) == 1000.0 * Pow2(attempt);
  }

  lemma BaseDelayDoubles(n: nat, o: Options)
    ensures BaseDelay(Finite((n + 1) as real), o) == 2.0 * BaseDelay(Finite(n as real), o)
  {
    assert Attempt(Finite((n + 1) as real)) == n + 1 && Attempt(Finite(n as real)) == n;
    var b, p := Base(o), Pow2(n);
    assert Pow2(n + 1) == 2.0 * p;
    assert b * (2.0 * p) == 2.0 * (b * p);
  }

  /** Without jitter the delay is exactly base * 2^n, stretched by the failure rate: by half for a
      bot that fails half its actions, by the whole for one that fails all of them. Full jitter adds
      its random share. */
  lemma BackoffIs(n: nat, base: real, cap: real, random: real)
    requires base > 0.0 && cap > 0.0
    ensures var attempt := Finite(n as real);
            var plain, jittery := Options(Finite(base), Finite(0.0), Finite(cap)), Options(Finite(base), Finite(1.0), Finite(cap));
            var e := BaseDelay(attempt, plain);
            && e == base * Pow2(n)
            && CalculateBackoff(attempt, Finite(0.0), plain, random) == Lesser(e, cap)
            && CalculateBackoff(attempt, Finite(0.5), plain, random) == Lesser(1.5 * e, cap)
            && CalculateBackoff(attempt, Finite(1.0), plain, random) == Lesser(2.0 * e, cap)
            && CalculateBackoff(attempt, Finite(0.0), jittery, random) == Lesser(e + random * e, cap)
  {
    hide Pow2, BaseDelay, Stretched;
    var plain := Options(Finite(base), Finite(0.0), Finite(cap));
    BaseDelayIs(n, base, 0.0, cap);
    BaseDelayIs(n, base, 1.0, cap);
    Stretches(BaseDelay(Finite(n as real), plain), random);
  }

  lemma BaseDelayIs(n: nat, base: real, ratio: real, cap: real)
    requires base > 0.0
    ensures BaseDelay(Finite(n as real), Options(Finite(base), Finite(ratio), Finite(cap))) == base * Pow2(n)
  {
    hide Pow2;
    assert Attempt(Finite(n as real)) == n;
  }

  lemma Stretches(e: real, random: real)
    ensures Stretched(e, 0.0, random, 0.0) == e && Stretched(e, 0.5, random, 0.0) == 1.5 * e
    ensures Stretched(e, 1.0, random, 0.0) == 2.0 * e && Stretched(e, 0.0, random, 1.0) == e + random * e
  {
    var x := random * e;
    assert x * 0.0 == 0.0 && x * 1.0 == x;
  }

  /** Arguments outside their range count as the nearest sensible ones: attempts are cut down to
      whole numbers from 0, rates and ratios to between 0 and 1, everything else is the default. */
  lemma OddArguments(attempt: Num, failureRate: Num, o: Options, random: real)
    ensures var delay := CalculateBackoff(attempt, failureRate, o, random);
      && delay == CalculateBackoff(Finite(if attempt.Finite? && attempt.value >= 1.0 then attempt.value.Floor as real else 0.0),
                                   failureRate, o, random)
      && (failureRate == NonFinite || failureRate.value <= 0.0 ==> delay == CalculateBackoff(attempt, Finite(0.0), o, random))
      && (failureRate.Finite? && failureRate.value >= 1.0 ==> delay == CalculateBackoff(attempt, Finite(1.0), o, random))
      && (o.baseDelayMs == NonFinite || o.baseDelayMs.value <= 0.0 ==>
            delay == CalculateBackoff(attempt, failureRate, o.(baseDelayMs := Finite(1000.0)), random))
      && (o.jitterRatio == NonFinite ==> delay == CalculateBackoff(attempt, failureRate, o.(jitterRatio := Finite(0.1)), random))
      && (o.jitterRatio.Finite? && o.jitterRatio.value <= 0.0 ==>
            delay == CalculateBackoff(attempt, failureRate, o.(jitterRatio := Finite(0.0)), random))
      && (o.jitterRatio.Finite? && o.jitterRatio.value >= 1.0 ==>
            delay == CalculateBackoff(attempt, failureRate, o.(jitterRatio := Finite(1.0)), random))
      && (o.maxDelayMs == NonFinite || o.maxDelayMs.value <= 0.0 ==>
            delay == CalculateBackoff(attempt, failureRate, o.(maxDelayMs := Finite(300_000.0)), random))
  {
    hide BaseDelay, Stretched, Lesser, Attempt;
    WholeAttempts(attempt);
    var whole := Finite(if attempt.Finite? && attempt.value >= 1.0 then attempt.value.Floor as real else 0.0);
    SameBaseDelay(attempt, whole, o, o);
    SameBaseDelay(attempt, attempt, o, o.(jitterRatio := Finite(0.0)));
    SameBaseDelay(attempt, attempt, o, o.(jitterRatio := Finite(0.1)));
    SameBaseDelay(attempt, attempt, o, o.(jitterRatio := Finite(1.0)));
    SameBaseDelay(attempt, attempt, o, o.(maxDelayMs := Finite(300_000.0)));
    if Base(o) == 1000.0 { SameBaseDelay(attempt, attempt, o, o.(baseDelayMs := Finite(1000.0))); }
  }

  lemma SameBaseDelay(attempt: Num, attempt': Num, o: Options, o': Options)
    requires Attempt(attempt) == Attempt(attempt') && Base(o) == Base(o')
    ensures BaseDelay(attempt, o) == BaseDelay(attempt', o')
  {
  }

  lemma WholeAttempts(attempt: Num)
    ensures Attempt(attempt)
            == Attempt(Finite(if attempt.Finite? && attempt.value >= 1.0 then attempt.value.Floor as real else 0.0))
  {
    if attempt.Finite? && attempt.value >= 1.0 {
      var n := attempt.value.Floor;
      assert (n as real).Floor == n;
    }
  }

  /** Each further attempt doubles the delay until the cap is reached, and stays there. */
  lemma BackoffDoubles(n: nat, failureRate: Num, o: Options, random: real)
    requires 0.0 <= random < 1.0
    ensures CalculateBackoff(Finite((n + 1) as real), failureRate, o, random)
            == Lesser(2.0 * CalculateBackoff(Finite(n as real), failureRate, o, random), Cap(o))
  {
    BaseDelayDoubles(n, o);
    StretchDoubles(BaseDelay(Finite(n as real), o), Rate(failureRate), random, JitterRatio(o));
    BaseDelayPositive(Finite(n as real), o);
  }

  /** A bot that fails more never waits less. */
  lemma BackoffGrowsWithFailures(attempt: Num, low: Num, high: Num, o: Options, random: real)
    requires Rate(low) <= Rate(high)
    ensures CalculateBackoff(attempt, low, o, random) <= CalculateBackoff(attempt, high, o, random)
  {
    BaseDelayPositive(attempt, o);
    StretchGrows(BaseDelay(attempt, o), Rate(low), Rate(high), random, JitterRatio(o));
  }

  lemma StretchGrows(e: real, low: real, high: real, random: real, j: real)
    requires e >= 0.0 && low <= high
    ensures Stretched(e, low, random, j) <= Stretched(e, high, random, j)
  {
    var jitter := random * e * j;
    Scaled(e, 1.0 + low, 1.0 + high);
    assert e * (1.0 + low) + jitter <= e * (1.0 + high) + jitter;
  }
}
