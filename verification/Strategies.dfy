/** Trading indicators over the reals (packages/core/src/crypto/strategies.ts). */
module Strategies {
  import opened Common

  datatype Direction = Buy | Sell

  // ---- Averages ----

  function Sum(xs: seq<real>): real {
    if xs == [] then 0.0 else Sum(xs[..|xs| - 1]) + xs[|xs| - 1]
  }

  /** A period parameter is any number; only whole ones of at least `least` are usable. */
  function Whole(period: real, least: nat): Option<nat> {
    if period == period.Floor as real && period.Floor >= least then Some(period.Floor) else None
  }

  function Mean(xs: seq<real>): real
    requires xs != []
  {
    Sum(xs) / |xs| as real
  }

  function Last(xs: seq<real>, n: nat): seq<real>
    requires n <= |xs|
  {
    xs[|xs| - n..]
  }

  function SmaOf(values: seq<real>, period: real): Option<real> {
    var p := Whole(period, 1);
    if p == None || |values| < p.value then None else Some(Mean(Last(values, p.value)))
  }

  method Sma(values: seq<real>, period: real) returns (r: Option<real>)
    ensures r == SmaOf(values, period)
  {
    if !(period == period.Floor as real) || period < 1.0 { return None; }
    var p := period.Floor;
    if |values| < p { return None; }
    var sum, start := 0.0, |values| - p;
    for i := start to |values|
      invariant sum == Sum(values[start..i])
    {
      sum := sum + values[i];
      assert values[start..i + 1][..i - start] == values[start..i];
    }
    assert values[start..] == values[start..|values|];
    r := Some(sum / p as real);
  }

  function SmaCross(closes: seq<real>, fast: real, slow: real): Option<Direction> {
    if Whole(fast, 1) == None || Whole(slow, 1) == None || fast >= slow then None
    else if |closes| < slow.Floor + 1 then None
    else
      var before := closes[..|closes| - 1];
      var prev, cur := Gap(before, fast.Floor, slow.Floor), Gap(closes, fast.Floor, slow.Floor);
      if prev <= 0.0 && cur > 0.0 then Some(Buy)
      else if prev >= 0.0 && cur < 0.0 then Some(Sell)
      else None
  }

  /** How far the fast average stands above the slow one. */
  function Gap(closes: seq<real>, fast: nat, slow: nat): real
    requires 1 <= fast <= slow <= |closes|
  {
    Mean(Last(closes, fast)) - Mean(Last(closes, slow))
  }

  /** Both periods are whole, the fast one is the shorter, and there is a close before the slow one. */
  predicate Windows(closes: seq<real>, fast: real, slow: real) {
    1.0 <= fast < slow < |closes| as real && fast == fast.Floor as real && slow == slow.Floor as real
  }

  /** The fast average was not above the slow one before the last close, and is now. */
  ghost predicate CrossedUp(closes: seq<real>, fast: nat, slow: nat)
    requires 1 <= fast < slow < |closes|
  {
    var before := closes[..|closes| - 1];
    Mean(Last(before, fast)) <= Mean(Last(before, slow)) && Mean(Last(closes, fast)) > Mean(Last(closes, slow))
  }

  ghost predicate CrossedDown(closes: seq<real>, fast: nat, slow: nat)
    requires 1 <= fast < slow < |closes|
  {
    var before := closes[..|closes| - 1];
    Mean(Last(before, fast)) >= Mean(Last(before, slow)) && Mean(Last(closes, fast)) < Mean(Last(closes, slow))
  }

  method CrossOf(closes: seq<real>, fast: real, slow: real) returns (r: Option<Direction>)
    ensures r == SmaCross(closes, fast, slow)
    ensures r == Some(Buy) <==> Windows(closes, fast, slow) && CrossedUp(closes, fast.Floor, slow.Floor)
    ensures r == Some(Sell) <==> Windows(closes, fast, slow) && CrossedDown(closes, fast.Floor, slow.Floor)
  {
    if Whole(fast, 1) == None || Whole(slow, 1) == None || fast >= slow { return None; }
    if |closes| < slow.Floor + 1 { return None; }
    var before := closes[..|closes| - 1];
    var prevFast := Sma(before, fast);
    var prevSlow := Sma(before, slow);
    var curFast := Sma(closes, fast);
    var curSlow := Sma(closes, slow);
    if prevFast == None || prevSlow == None || curFast == None || curSlow == None { return None; }
    if prevFast.value <= prevSlow.value && curFast.value > curSlow.value { return Some(Buy); }
    if prevFast.value >= prevSlow.value && curFast.value < curSlow.value { return Some(Sell); }
    r := None;
  }

  // ---- Wilder's RSI ----

  function Gain(diff: real): real {
    if diff >= 0.0 then diff else 0.0
  }

  function Loss(diff: real): real {
    if diff < 0.0 then -diff else 0.0
  }

  function Gains(closes: seq<real>): seq<real> {
    seq(if closes == [] then 0 else |closes| - 1, i requires 0 <= i < |closes| - 1 => Gain(closes[i + 1] - closes[i]))
  }

  function Losses(closes: seq<real>): seq<real> {
    seq(if closes == [] then 0 else |closes| - 1, i requires 0 <= i < |closes| - 1 => Loss(closes[i + 1] - closes[i]))
  }

  function Fraction(x: real, period: nat): real
    requires period >= 1
  {
    x / period as real
  }

  function Blend(average: real, move: real, period: nat): real
    requires period >= 1
  {
    Fraction(Weighted(average, period) + move, period)
  }

  function Weighted(average: real, period: nat): real {
    average * (period - 1) as real
  }

  /** The mean of the first `period` moves, then each later one blended in with weight 1/period. */
  function Smoothed(moves: seq<real>, period: nat): real
    requires 1 <= period <= |moves|
  {
    if |moves| == period then Fraction(Sum(moves), period)
    else Blend(Smoothed(moves[..|moves| - 1], period), moves[|moves| - 1], period)
  }

  /** The index from the two averages. */
  function Index(gain: real, loss: real): real
    requires gain >= 0.0 && loss >= 0.0
  {
    if loss == 0.0 then (if gain == 0.0 then 50.0 else 100.0)
    else
      RatioPositive(gain, loss);
      100.0 - 100.0 / (1.0 + gain / loss)
  }

  function RsiOf(closes: seq<real>, period: real): Option<real> {
    var p := Whole(period, 2);
    if p == None || |closes| < p.value + 1 then None
    else
      AveragesNotNegative(closes, p.value);
      Some(Index(Smoothed(Gains(closes), p.value), Smoothed(Losses(closes), p.value)))
  }

  lemma RatioPositive(gain: real, loss: real)
    requires gain >= 0.0 && loss > 0.0
    ensures gain / loss >= 0.0
  {
  }

  lemma {:induction false} SmoothedNotNegative(moves: seq<real>, period: nat)
    requires 1 <= period <= |moves| && forall i :: 0 <= i < |moves| ==> moves[i] >= 0.0
    ensures Smoothed(moves, period) >= 0.0
  {
    if |moves| == period {
      SumNotNegative(moves);
    } else {
      SmoothedNotNegative(moves[..|moves| - 1], period);
    }
  }

  lemma {:induction false} SumNotNegative(xs: seq<real>)
    requires forall i :: 0 <= i < |xs| ==> xs[i] >= 0.0
    ensures Sum(xs) >= 0.0
  {
    if xs != [] { SumNotNegative(xs[..|xs| - 1]); }
  }

  lemma AveragesNotNegative(closes: seq<real>, period: nat)
    requires 1 <= period < |closes|
    ensures Smoothed(Gains(closes), period) >= 0.0 && Smoothed(Losses(closes), period) >= 0.0
  {
    SmoothedNotNegative(Gains(closes), period);
    SmoothedNotNegative(Losses(closes), period);
  }

  /** What one more close adds to the sums and to the smoothed averages. */
  lemma OneMoreMove(closes: seq<real>, i: nat, period: nat)
    requires 1 <= i < |closes| && 1 <= period
    ensures var gains, losses, diff := Gains(closes), Losses(closes), closes[i] - closes[i - 1];
            && |gains| == |losses| == |closes| - 1
            && Sum(gains[..i]) == Sum(gains[..i - 1]) + Gain(diff)
            && Sum(losses[..i]) == Sum(losses[..i - 1]) + Loss(diff)
            && (i == period ==> Smoothed(gains[..i], period) == Fraction(Sum(gains[..i]), period)
                                && Smoothed(losses[..i], period) == Fraction(Sum(losses[..i]), period))
            && (i > period ==> Smoothed(gains[..i], period) == Blend(Smoothed(gains[..i - 1], period), Gain(diff), period)
                               && Smoothed(losses[..i], period) == Blend(Smoothed(losses[..i - 1], period), Loss(diff), period))
  {
    hide Blend, Fraction;
    var gains, losses := Gains(closes), Losses(closes);
    assert gains[..i][..i - 1] == gains[..i - 1] && losses[..i][..i - 1] == losses[..i - 1];
  }

  method Rsi(closes: seq<real>, period: real) returns (r: Option<real>)
    ensures r == RsiOf(closes, period)
  {
    hide Sum, Smoothed, Index, Gains, Losses, Blend, Fraction;
    if !(period == period.Floor as real) || period < 2.0 { return None; }
    var p := period.Floor;
    if |closes| < p + 1 { return None; }
    ghost var gains, losses := Gains(closes), Losses(closes);
    var avgGain, avgLoss := 0.0, 0.0;
    assert avgGain == Sum(gains[..0]) && avgLoss == Sum(losses[..0]) by { SumOfNone(gains, losses); }
    OneMoreMove(closes, 1, p);
    for i := 1 to p + 1
      invariant avgGain == Sum(gains[..i - 1]) && avgLoss == Sum(losses[..i - 1])
    {
      var diff := closes[i] - closes[i - 1];
      if diff >= 0.0 { avgGain := avgGain + diff; } else { avgLoss := avgLoss - diff; }
      OneMoreMove(closes, i, p);
    }
    OneMoreMove(closes, p, p);
    avgGain, avgLoss := Fraction(avgGain, p), Fraction(avgLoss, p);
    for i := p + 1 to |closes|
      invariant avgGain == Smoothed(gains[..i - 1], p) && avgLoss == Smoothed(losses[..i - 1], p)
    {
      var diff := closes[i] - closes[i - 1];
      var gain := if diff >= 0.0 then diff else 0.0;
      var loss := if diff < 0.0 then -diff else 0.0;
      avgGain := Blend(avgGain, gain, p);
      avgLoss := Blend(avgLoss, loss, p);
      OneMoreMove(closes, i, p);
    }
    OneMoreMove(closes, |closes| - 1, p);
    assert gains[..|closes| - 1] == gains && losses[..|closes| - 1] == losses;
    AveragesNotNegative(closes, p);
    var index := IndexFrom(avgGain, avgLoss);
    r := Some(index);
  }

  lemma SumOfNone(gains: seq<real>, losses: seq<real>)
    ensures Sum(gains[..0]) == 0.0 == Sum(losses[..0])
  {
  }

  method IndexFrom(avgGain: real, avgLoss: real) returns (index: real)
    requires avgGain >= 0.0 && avgLoss >= 0.0
    ensures index == Index(avgGain, avgLoss)
  {
    if avgLoss == 0.0 { return if avgGain == 0.0 then 50.0 else 100.0; }
    RatioPositive(avgGain, avgLoss);
    index := 100.0 - 100.0 / (1.0 + avgGain / avgLoss);
  }

  function RsiSignal(closes: seq<real>, period: real, oversold: real, overbought: real): Option<Direction> {
    var value := RsiOf(closes, period);
    if value == None then None
    else if value.value <= oversold then Some(Buy)
    else if value.value >= overbought then Some(Sell)
    else None
  }

  // ---- Rescaled, shifted and mirrored series ----

  function Times(k: real, x: real): real {
    k * x
  }

  function Scaled(xs: seq<real>, k: real): seq<real> {
    seq(|xs|, i requires 0 <= i < |xs| => Times(k, xs[i]))
  }

  function Shifted(xs: seq<real>, d: real): seq<real> {
    seq(|xs|, i requires 0 <= i < |xs| => xs[i] + d)
  }

  function Mirrored(d: Option<Direction>): Option<Direction> {
    match d
    case None => None
    case Some(Buy) => Some(Sell)
    case Some(Sell) => Some(Buy)
  }

  lemma ScaledParts(xs: seq<real>, k: real, n: nat)
    requires n <= |xs|
    ensures Scaled(xs, k)[..n] == Scaled(xs[..n], k) && Scaled(xs, k)[n..] == Scaled(xs[n..], k)
  {
    forall i | 0 <= i < n ensures Scaled(xs, k)[..n][i] == Scaled(xs[..n], k)[i] {}
    forall i | 0 <= i < |xs| - n ensures Scaled(xs, k)[n..][i] == Scaled(xs[n..], k)[i] {
      assert xs[n..][i] == xs[n + i];
    }
  }

  lemma {:induction false} SumScaled(xs: seq<real>, k: real)
    ensures Sum(Scaled(xs, k)) == Times(k, Sum(xs))
  {
    if xs != [] {
      SumScaled(xs[..|xs| - 1], k);
      ScaledParts(xs, k, |xs| - 1);
    }
  }

  lemma {:induction false} SumShifted(xs: seq<real>, d: real)
    ensures Sum(Shifted(xs, d)) == Sum(xs) + |xs| as real * d
  {
    if xs != [] {
      SumShifted(xs[..|xs| - 1], d);
      assert Shifted(xs, d)[..|xs| - 1] == Shifted(xs[..|xs| - 1], d);
      assert |xs| as real * d == (|xs| - 1) as real * d + d;
    }
  }

  lemma {:induction false} SmoothedScaled(moves: seq<real>, k: real, period: nat)
    requires 1 <= period <= |moves|
    ensures Smoothed(Scaled(moves, k), period) == Times(k, Smoothed(moves, period))
  {
    hide Blend, Fraction, Times, Sum;
    if |moves| == period {
      SumScaled(moves, k);
      FractionScaled(Sum(moves), k, period);
    } else {
      SmoothedScaled(moves[..|moves| - 1], k, period);
      ScaledParts(moves, k, |moves| - 1);
      assert Scaled(moves, k)[|moves| - 1] == Times(k, moves[|moves| - 1]);
      BlendScaled(Smoothed(moves[..|moves| - 1], period), moves[|moves| - 1], k, period);
    }
  }

  lemma FractionScaled(x: real, k: real, period: nat)
    requires period >= 1
    ensures Fraction(Times(k, x), period) == Times(k, Fraction(x, period))
  {
    var n := period as real;
    assert (k * x) / n == k * (x / n);
  }

  lemma BlendScaled(average: real, move: real, k: real, period: nat)
    requires period >= 1
    ensures Blend(Times(k, average), Times(k, move), period) == Times(k, Blend(average, move, period))
  {
    hide Fraction, Weighted, Times;
    WeightedScaled(average, move, k, period);
    FractionScaled(Weighted(average, period) + move, k, period);
  }

  lemma WeightedScaled(average: real, move: real, k: real, period: nat)
    ensures Weighted(Times(k, average), period) + Times(k, move) == Times(k, Weighted(average, period) + move)
  {
    var w := (period - 1) as real;
    assert (k * average) * w + k * move == k * (average * w + move);
  }

  /** Multiplying both averages by the same positive factor does not move the index ... */
  lemma IndexScaled(gain: real, loss: real, k: real)
    requires gain >= 0.0 && loss >= 0.0 && k > 0.0
    ensures Times(k, gain) >= 0.0 && Times(k, loss) >= 0.0 && Index(Times(k, gain), Times(k, loss)) == Index(gain, loss)
  {
    if loss > 0.0 {
      CommonFactor(gain, loss, k);
    } else if gain > 0.0 {
      assert k * gain > 0.0;
    }
  }

  lemma CommonFactor(gain: real, loss: real, k: real)
    requires loss > 0.0 && k > 0.0
    ensures k * loss > 0.0 && (k * gain) / (k * loss) == gain / loss
  {
    var ratio := gain / loss;
    assert ratio * loss == gain;
    assert k * (ratio * loss) == ratio * (k * loss);
    QuotientIs(k * gain, k * loss, ratio);
  }

  lemma QuotientIs(x: real, y: real, q: real)
    requires y > 0.0 && q * y == x
    ensures x / y == q
  {
    var r := x / y;
    assert r * y == x;
    assert (r - q) * y == 0.0;
  }

  /** ... and exchanging them turns it into its complement. */
  lemma IndexSwapped(gain: real, loss: real)
    requires gain >= 0.0 && loss >= 0.0
    ensures Index(loss, gain) == 100.0 - Index(gain, loss)
    ensures 0.0 <= Index(gain, loss) <= 100.0
  {
    if gain > 0.0 && loss > 0.0 {
      IndexIsShare(gain, loss);
      IndexIsShare(loss, gain);
      Shares(gain, loss);
    } else if loss > 0.0 {
      assert gain / loss == 0.0;
    } else if gain > 0.0 {
      assert loss / gain == 0.0;
    }
  }

  /** The index is the gains' share of all movement, in percent. */
  lemma IndexIsShare(gain: real, loss: real)
    requires gain >= 0.0 && loss > 0.0
    ensures Index(gain, loss) == 100.0 * gain / (gain + loss)
  {
    var ratio := gain / loss;
    RatioPositive(gain, loss);
    assert ratio * loss == gain;
    assert (1.0 + ratio) * loss == gain + loss;
    assert 100.0 / (1.0 + ratio) == 100.0 * loss / (gain + loss);
  }

  lemma Shares(gain: real, loss: real)
    requires gain > 0.0 && loss > 0.0
    ensures 100.0 * gain / (gain + loss) + 100.0 * loss / (gain + loss) == 100.0
    ensures 0.0 <= 100.0 * gain / (gain + loss) <= 100.0
  {
  }

  /** The result of rsi always lies in [0, 100]. */
  lemma RsiRange(closes: seq<real>, period: real)
    ensures RsiOf(closes, period).Some? ==> 0.0 <= RsiOf(closes, period).value <= 100.0
    ensures RsiOf(closes, period).Some? <==> Whole(period, 2).Some? && |closes| > Whole(period, 2).value
  {
    if RsiOf(closes, period).Some? {
      var p := Whole(period, 2).value;
      AveragesNotNegative(closes, p);
      IndexSwapped(Smoothed(Gains(closes), p), Smoothed(Losses(closes), p));
    }
  }

  /** It does not depend on the unit of price ... */
  lemma RsiScaled(closes: seq<real>, period: real, k: real)
    requires k > 0.0
    ensures RsiOf(Scaled(closes, k), period) == RsiOf(closes, period)
  {
    hide Index, Smoothed, Gains, Losses, Times;
    ScaledAt(closes, k);
    if RsiOf(closes, period).Some? {
      var p := Whole(period, 2).value;
      MovesScaled(closes, k);
      MoveAt(closes, 0);
      SmoothedScaled(Gains(closes), k, p);
      SmoothedScaled(Losses(closes), k, p);
      AveragesNotNegative(closes, p);
      IndexScaled(Smoothed(Gains(closes), p), Smoothed(Losses(closes), p), k);
    }
  }

  lemma MoveScaled(from: real, to: real, k: real)
    requires k > 0.0
    ensures Gain(Times(k, to) - Times(k, from)) == Times(k, Gain(to - from))
    ensures Loss(Times(k, to) - Times(k, from)) == Times(k, Loss(to - from))
  {
    assert k * to - k * from == k * (to - from);
    SignKept(k, to - from);
  }

  lemma MovesScaled(closes: seq<real>, k: real)
    requires k > 0.0
    ensures Gains(Scaled(closes, k)) == Scaled(Gains(closes), k) && Losses(Scaled(closes, k)) == Scaled(Losses(closes), k)
  {
    hide Gain, Loss, Gains, Losses, Scaled, Times;
    ScaledAt(closes, k);
    ScaledAt(Gains(closes), k);
    ScaledAt(Losses(closes), k);
    MoveCount(closes);
    MoveCount(Scaled(closes, k));
    forall i | 0 <= i < |closes| - 1
      ensures Gains(Scaled(closes, k))[i] == Scaled(Gains(closes), k)[i]
              && Losses(Scaled(closes, k))[i] == Scaled(Losses(closes), k)[i]
    {
      MoveAt(closes, i);
      MoveAt(Scaled(closes, k), i);
      MoveScaled(closes[i], closes[i + 1], k);
    }
  }

  lemma ScaledAt(xs: seq<real>, k: real)
    ensures |Scaled(xs, k)| == |xs| && forall i :: 0 <= i < |xs| ==> Scaled(xs, k)[i] == Times(k, xs[i])
  {
  }

  lemma MoveCount(closes: seq<real>)
    ensures |Gains(closes)| == |Losses(closes)| == if closes == [] then 0 else |closes| - 1
  {
  }

  lemma MoveAt(closes: seq<real>, i: nat)
    requires i < |closes| - 1
    ensures |Gains(closes)| == |Losses(closes)| == |closes| - 1
    ensures Gains(closes)[i] == Gain(closes[i + 1] - closes[i]) && Losses(closes)[i] == Loss(closes[i + 1] - closes[i])
  {
    hide Gain, Loss;
  }

  /** ... nor on its level ... */
  lemma RsiShifted(closes: seq<real>, period: real, d: real)
    ensures RsiOf(Shifted(closes, d), period) == RsiOf(closes, period)
  {
    hide Index, Smoothed, Gains, Losses;
    MovesShifted(closes, d);
  }

  lemma MovesShifted(closes: seq<real>, d: real)
    ensures Gains(Shifted(closes, d)) == Gains(closes) && Losses(Shifted(closes, d)) == Losses(closes)
  {
    hide Gain, Loss, Gains, Losses;
    var shifted := Shifted(closes, d);
    MoveCount(closes);
    MoveCount(shifted);
    forall i | 0 <= i < |closes| - 1 ensures Gains(shifted)[i] == Gains(closes)[i] && Losses(shifted)[i] == Losses(closes)[i] {
      MoveAt(closes, i);
      MoveAt(shifted, i);
      assert shifted[i + 1] - shifted[i] == closes[i + 1] - closes[i];
    }
  }

  /** ... and the mirrored series has the complementary index, flat series included. */
  lemma RsiMirrored(closes: seq<real>, period: real)
    requires RsiOf(closes, period).Some?
    ensures RsiOf(Scaled(closes, -1.0), period) == Some(100.0 - RsiOf(closes, period).value)
  {
    hide Index, Smoothed;
    var p := Whole(period, 2).value;
    assert Gains(Scaled(closes, -1.0)) == Losses(closes);
    assert Losses(Scaled(closes, -1.0)) == Gains(closes);
    AveragesNotNegative(closes, p);
    IndexSwapped(Smoothed(Gains(closes), p), Smoothed(Losses(closes), p));
  }

  /** With complementary thresholds the mirrored series gives the opposite signal. */
  lemma RsiSignalMirrored(closes: seq<real>, period: real, oversold: real, overbought: real)
    requires oversold < overbought
    ensures RsiSignal(Scaled(closes, -1.0), period, 100.0 - overbought, 100.0 - oversold)
            == Mirrored(RsiSignal(closes, period, oversold, overbought))
  {
    if RsiOf(closes, period).Some? { RsiMirrored(closes, period); }
  }

  /** A higher last close never lowers the index: it answers to the market in the right direction. */
  lemma RsiRisesWithLastClose(closes: seq<real>, period: real, last: real)
    requires RsiOf(closes, period).Some? && last >= closes[|closes| - 1]
    ensures RsiOf(closes[|closes| - 1 := last], period).Some?
            && RsiOf(closes[|closes| - 1 := last], period).value >= RsiOf(closes, period).value
  {
    hide Index, Smoothed, Gains, Losses;
    var p, n := Whole(period, 2).value, |closes| - 1;
    var higher := closes[n := last];
    MovesRaised(closes, last);
    SmoothedGrows(Gains(closes), Gains(higher), p);
    SmoothedGrows(Losses(higher), Losses(closes), p);
    AveragesNotNegative(closes, p);
    AveragesNotNegative(higher, p);
    IndexGrows(Smoothed(Gains(closes), p), Smoothed(Losses(closes), p), Smoothed(Gains(higher), p), Smoothed(Losses(higher), p));
  }

  lemma MovesRaised(closes: seq<real>, last: real)
    requires |closes| >= 2 && last >= closes[|closes| - 1]
    ensures var n, higher := |closes| - 1, closes[|closes| - 1 := last];
            && |Gains(higher)| == |Gains(closes)| == |Losses(higher)| == |Losses(closes)| == n
            && Gains(higher)[..n - 1] == Gains(closes)[..n - 1] && Gains(closes)[n - 1] <= Gains(higher)[n - 1]
            && Losses(higher)[..n - 1] == Losses(closes)[..n - 1] && Losses(higher)[n - 1] <= Losses(closes)[n - 1]
  {
    hide Gains, Losses;
    var n, higher := |closes| - 1, closes[|closes| - 1 := last];
    MoveCount(closes);
    MoveCount(higher);
    MoveAt(closes, n - 1);
    MoveAt(higher, n - 1);
    forall i | 0 <= i < n - 1 ensures Gains(higher)[i] == Gains(closes)[i] && Losses(higher)[i] == Losses(closes)[i] {
      MoveAt(closes, i);
      MoveAt(higher, i);
    }
  }

  lemma SmoothedGrows(a: seq<real>, b: seq<real>, period: nat)
    requires 1 <= period <= |a| == |b| && a[..|a| - 1] == b[..|b| - 1] && a[|a| - 1] <= b[|b| - 1]
    ensures Smoothed(a, period) <= Smoothed(b, period)
  {
    hide Blend, Fraction;
    if |a| == period {
      FractionGrows(Sum(a), Sum(b), period);
    } else {
      BlendGrows(Smoothed(a[..|a| - 1], period), a[|a| - 1], b[|b| - 1], period);
    }
  }

  lemma FractionGrows(x: real, y: real, period: nat)
    requires period >= 1 && x <= y
    ensures Fraction(x, period) <= Fraction(y, period)
  {
    var n := period as real;
    assert x / n <= y / n;
  }

  lemma BlendGrows(average: real, low: real, high: real, period: nat)
    requires period >= 1 && low <= high
    ensures Blend(average, low, period) <= Blend(average, high, period)
  {
    hide Fraction;
    var before := Weighted(average, period);
    FractionGrows(before + low, before + high, period);
  }

  lemma IndexGrows(gain: real, loss: real, gain': real, loss': real)
    requires 0.0 <= gain <= gain' && 0.0 <= loss' <= loss
    ensures Index(gain, loss) <= Index(gain', loss')
  {
    IndexSwapped(gain, loss);
    IndexSwapped(gain', loss');
    if loss' > 0.0 {
      RatioGrows(gain, loss, gain', loss');
    } else if gain' == 0.0 && loss > 0.0 {
      assert gain / loss == 0.0;
    }
  }

  lemma RatioGrows(gain: real, loss: real, gain': real, loss': real)
    requires 0.0 <= gain <= gain' && 0.0 < loss' <= loss
    ensures gain >= 0.0 && Index(gain, loss) <= Index(gain', loss')
  {
    var r, r' := gain / loss, gain' / loss';
    assert r * loss == gain && r' * loss' == gain';
    RatioPositive(gain, loss);
    RatioPositive(gain', loss');
    Quotients(r, loss, r', loss');
    assert 100.0 / (1.0 + r') <= 100.0 / (1.0 + r);
  }

  lemma Quotients(r: real, loss: real, r': real, loss': real)
    requires r' >= 0.0 && 0.0 < loss' <= loss && r * loss <= r' * loss'
    ensures r <= r'
  {
    assert r' * (loss - loss') >= 0.0;
    assert (r' - r) * loss >= 0.0;
  }

  // ---- Crossing averages ----

  lemma GapScaled(closes: seq<real>, fast: nat, slow: nat, k: real)
    requires 1 <= fast <= slow <= |closes|
    ensures Gap(Scaled(closes, k), fast, slow) == Times(k, Gap(closes, fast, slow))
  {
    MeanScaled(closes, fast, k);
    MeanScaled(closes, slow, k);
  }

  lemma MeanScaled(closes: seq<real>, n: nat, k: real)
    requires 1 <= n <= |closes|
    ensures Mean(Last(Scaled(closes, k), n)) == Times(k, Mean(Last(closes, n)))
  {
    ScaledParts(closes, k, |closes| - n);
    SumScaled(Last(closes, n), k);
    FractionScaled(Sum(Last(closes, n)), k, n);
  }

  lemma GapShifted(closes: seq<real>, fast: nat, slow: nat, d: real)
    requires 1 <= fast <= slow <= |closes|
    ensures Gap(Shifted(closes, d), fast, slow) == Gap(closes, fast, slow)
  {
    MeanShifted(closes, fast, d);
    MeanShifted(closes, slow, d);
  }

  lemma MeanShifted(closes: seq<real>, n: nat, d: real)
    requires 1 <= n <= |closes|
    ensures Mean(Last(Shifted(closes, d), n)) == Mean(Last(closes, n)) + d
  {
    assert Last(Shifted(closes, d), n) == Shifted(Last(closes, n), d);
    SumShifted(Last(closes, n), d);
    ShiftedQuotient(Sum(Last(closes, n)), n as real, d);
  }

  lemma ShiftedQuotient(s: real, m: real, d: real)
    requires m > 0.0
    ensures (s + m * d) / m == s / m + d
  {
    var q := s / m;
    assert q * m == s;
    assert (q + d) * m == q * m + m * d;
    QuotientIs(s + m * d, m, q + d);
  }

  /** smaCross gives the same signal in any unit and at any level, and the mirrored series
      swaps buy and sell. */
  lemma SmaCrossSymmetries(closes: seq<real>, fast: real, slow: real, k: real, d: real)
    requires k > 0.0
    ensures SmaCross(Scaled(closes, k), fast, slow) == SmaCross(closes, fast, slow)
    ensures SmaCross(Shifted(closes, d), fast, slow) == SmaCross(closes, fast, slow)
    ensures SmaCross(Scaled(closes, -1.0), fast, slow) == Mirrored(SmaCross(closes, fast, slow))
  {
    hide Gap;
    if Whole(fast, 1).Some? && Whole(slow, 1).Some? && fast < slow && |closes| >= slow.Floor + 1 {
      var f, s, before := fast.Floor, slow.Floor, closes[..|closes| - 1];
      ScaledParts(closes, k, |closes| - 1);
      ScaledParts(closes, -1.0, |closes| - 1);
      assert Shifted(closes, d)[..|closes| - 1] == Shifted(before, d);
      GapScaled(before, f, s, k);
      GapScaled(closes, f, s, k);
      GapScaled(before, f, s, -1.0);
      GapScaled(closes, f, s, -1.0);
      GapShifted(before, f, s, d);
      GapShifted(closes, f, s, d);
      SignKept(k, Gap(before, f, s));
      SignKept(k, Gap(closes, f, s));
    }
  }

  lemma SignKept(k: real, x: real)
    requires k > 0.0
    ensures (k * x > 0.0 <==> x > 0.0) && (k * x < 0.0 <==> x < 0.0)
  {
  }

  /** As a series grows, two buy signals are never in a row: between them there is a sell signal,
      unless the averages met exactly. */
  lemma SignalsAlternate(closes: seq<real>, fast: real, slow: real, i: nat, j: nat) returns (k: nat)
    requires i < j <= |closes|
    requires SmaCross(closes[..i], fast, slow) == Some(Buy) && SmaCross(closes[..j], fast, slow) == Some(Buy)
    ensures i < k < j
    ensures SmaCross(closes[..k], fast, slow) == Some(Sell) || Gap(closes[..k], fast.Floor, slow.Floor) == 0.0
  {
    hide Gap;
    var f, s := fast.Floor, slow.Floor;
    assert closes[..j][..j - 1] == closes[..j - 1];
    k := i + 1;
    while Gap(closes[..k], f, s) > 0.0
      invariant i < k <= j && f <= s <= i && 1 <= f
      invariant Gap(closes[..k - 1], f, s) > 0.0
      decreases j - k
    {
      if k == j { assert false; }
      k := k + 1;
    }
    assert closes[..k][..k - 1] == closes[..k - 1];
  }

  // ---- How the smoothing weighs the moves ----

  function Pow(x: real, n: nat): real {
    if n == 0 then 1.0 else x * Pow(x, n - 1)
  }

  /** What each bar keeps of the average before it. */
  function Keep(period: nat): real
    requires period >= 1
  {
    (period as real - 1.0) / period as real
  }

  function Share(move: real, period: nat): real
    requires period >= 1
  {
    move / period as real
  }

  /** The moves from position `period` up to n, each weighted by its age at position `last`. */
  function Recent(moves: seq<real>, period: nat, n: nat, last: nat): real
    requires 1 <= period <= n <= |moves| && n <= last
  {
    if n == period then 0.0
    else Recent(moves, period, n - 1, last) + Pow(Keep(period), last - n) * Share(moves[n - 1], period)
  }

  /** The smoothed average in closed form: the mean of the first `period` moves and each later move
      divided by the period, all of them reduced by (period - 1) / period for every bar since. */
  lemma {:induction false} SmoothedIsWeighted(moves: seq<real>, period: nat)
    requires 1 <= period <= |moves|
    ensures Smoothed(moves, period)
            == Pow(Keep(period), |moves| - period) * Mean(moves[..period]) + Recent(moves, period, |moves|, |moves|)
  {
    hide Blend, Fraction, Mean, Keep, Share, Sum, Pow, Recent;
    var n := |moves|;
    if n == period {
      assert moves[..period] == moves;
      WeightedAtFirst(moves);
    } else {
      var front, q := moves[..n - 1], Keep(period);
      SmoothedIsWeighted(front, period);
      assert front[..period] == moves[..period];
      RecentOfFront(moves, period, n - 1, n - 1);
      RecentAges(moves, period, n - 1, n - 1);
      BlendIs(Smoothed(front, period), moves[n - 1], period);
      OlderByOne(q, Pow(q, n - 1 - period), Mean(moves[..period]), Recent(moves, period, n - 1, n - 1));
      OneMoreWeight(moves, period);
    }
  }

  lemma WeightedAtFirst(moves: seq<real>)
    requires moves != []
    ensures var n := |moves|;
            Fraction(Sum(moves), n) == Pow(Keep(n), 0) * Mean(moves) + Recent(moves, n, n, n)
  {
    hide Sum, Keep;
  }

  lemma OneMoreWeight(moves: seq<real>, period: nat)
    requires 1 <= period < |moves|
    ensures var n, q := |moves|, Keep(period);
            && Pow(q, n - period) == q * Pow(q, n - 1 - period)
            && Recent(moves, period, n, n) == Recent(moves, period, n - 1, n) + Share(moves[n - 1], period)
  {
    hide Keep, Share;
    assert Pow(Keep(period), 0) == 1.0;
  }

  lemma OlderByOne(q: real, weight: real, mean: real, recent: real)
    ensures q * (weight * mean + recent) == (q * weight) * mean + q * recent
  {
  }

  lemma BlendIs(average: real, move: real, period: nat)
    requires period >= 1
    ensures Blend(average, move, period) == Keep(period) * average + Share(move, period)
  {
    var n := period as real;
    assert (period - 1) as real == n - 1.0;
    SumOverN(average * (n - 1.0), move, n);
    ProductOverN(average, n - 1.0, n);
  }

  lemma SumOverN(x: real, y: real, n: real)
    requires n > 0.0
    ensures (x + y) / n == x / n + y / n
  {
    var a, b := x / n, y / n;
    assert a * n == x && b * n == y;
    assert (a + b) * n == a * n + b * n;
    QuotientIs(x + y, n, a + b);
  }

  lemma ProductOverN(a: real, b: real, n: real)
    requires n > 0.0
    ensures (a * b) / n == (b / n) * a
  {
    var q := b / n;
    assert q * n == b;
    assert (q * a) * n == a * (q * n);
    QuotientIs(a * b, n, q * a);
  }

  lemma {:induction false} RecentOfFront(moves: seq<real>, period: nat, n: nat, last: nat)
    requires 1 <= period <= n < |moves| && n <= last
    ensures Recent(moves[..|moves| - 1], period, n, last) == Recent(moves, period, n, last)
  {
    hide Pow, Keep, Share;
    if n > period { RecentOfFront(moves, period, n - 1, last); }
  }

  /** One bar later every weight is Keep times what it was. */
  lemma {:induction false} RecentAges(moves: seq<real>, period: nat, n: nat, last: nat)
    requires 1 <= period <= n <= |moves| && n <= last
    ensures Recent(moves, period, n, last + 1) == Keep(period) * Recent(moves, period, n, last)
  {
    hide Keep, Share;
    if n > period {
      RecentAges(moves, period, n - 1, last);
      var q, w, m := Keep(period), Pow(Keep(period), last - n), Share(moves[n - 1], period);
      assert Pow(q, last + 1 - n) == q * w;
      assert q * (Recent(moves, period, n - 1, last) + w * m) == q * Recent(moves, period, n - 1, last) + (q * w) * m;
    }
  }

  /** The average lies between the least and the greatest move; equal moves average to themselves. */
  lemma {:induction false} SmoothedBetween(moves: seq<real>, period: nat, low: real, high: real)
    requires 1 <= period <= |moves| && forall i :: 0 <= i < |moves| ==> low <= moves[i] <= high
    ensures low <= Smoothed(moves, period) <= high
  {
    hide Blend, Fraction;
    if |moves| == period {
      SumBetween(moves, low, high);
      FractionBetween(Sum(moves), period, low, high);
    } else {
      SmoothedBetween(moves[..|moves| - 1], period, low, high);
      BlendBetween(Smoothed(moves[..|moves| - 1], period), moves[|moves| - 1], period, low, high);
    }
  }

  lemma {:induction false} SumBetween(xs: seq<real>, low: real, high: real)
    requires forall i :: 0 <= i < |xs| ==> low <= xs[i] <= high
    ensures Times(|xs| as real, low) <= Sum(xs) <= Times(|xs| as real, high)
  {
    hide Times, Weighted;
    if xs == [] {
      assert Times(0.0, low) == 0.0 == Times(0.0, high) by { ZeroTimes(low); ZeroTimes(high); }
    } else {
      var n := |xs|;
      SumBetween(xs[..n - 1], low, high);
      OneShareMore(low, n);
      OneShareMore(high, n);
      WeightedIsTimes(low, n);
      WeightedIsTimes(high, n);
    }
  }

  lemma ZeroTimes(x: real)
    ensures Times(0.0, x) == 0.0
  {
  }

  lemma WeightedIsTimes(x: real, period: nat)
    requires period >= 1
    ensures Weighted(x, period) == Times((period - 1) as real, x)
  {
  }

  lemma FractionBetween(x: real, period: nat, low: real, high: real)
    requires period >= 1 && Times(period as real, low) <= x <= Times(period as real, high)
    ensures low <= Fraction(x, period) <= high
  {
    var n, q := period as real, Fraction(x, period);
    assert Times(n, q) == x;
    hide Fraction, Times;
    if q < low { Grows(n, q, low); }
    if high < q { Grows(n, high, q); }
  }

  lemma Grows(n: real, x: real, y: real)
    requires x < y && n > 0.0
    ensures Times(n, x) < Times(n, y)
  {
    assert n * (y - x) > 0.0;
  }

  lemma BlendBetween(average: real, move: real, period: nat, low: real, high: real)
    requires period >= 1 && low <= average <= high && low <= move <= high
    ensures low <= Blend(average, move, period) <= high
  {
    hide Weighted, Times, Fraction;
    WeightedGrows(low, average, period);
    WeightedGrows(average, high, period);
    OneShareMore(low, period);
    OneShareMore(high, period);
    FractionBetween(Weighted(average, period) + move, period, low, high);
  }

  lemma WeightedGrows(x: real, y: real, period: nat)
    requires x <= y && period >= 1
    ensures Weighted(x, period) <= Weighted(y, period)
  {
    var w := (period - 1) as real;
    assert (y - x) * w >= 0.0;
  }

  lemma OneShareMore(x: real, period: nat)
    requires period >= 1
    ensures Times(period as real, x) == Weighted(x, period) + x
  {
    var w := (period - 1) as real;
    assert period as real == w + 1.0;
    assert (w + 1.0) * x == x * w + x;
  }

  // ---- Plain trends ----

  /** A series that never falls and has risen at the start is at 100, one that never rises and has
      fallen at 0, and a flat one at 50. */
  lemma TrendsAtTheEnds(closes: seq<real>, period: real)
    requires RsiOf(closes, period).Some?
    ensures (forall i :: 0 <= i < |closes| - 1 ==> closes[i] < closes[i + 1]) ==> RsiOf(closes, period) == Some(100.0)
    ensures (forall i :: 0 <= i < |closes| - 1 ==> closes[i] > closes[i + 1]) ==> RsiOf(closes, period) == Some(0.0)
    ensures (forall i :: 0 <= i < |closes| - 1 ==> closes[i] == closes[i + 1]) ==> RsiOf(closes, period) == Some(50.0)
  {
    hide Smoothed, Gains, Losses, RsiOf;
    RsiIs(closes, period);
    var p := Whole(period, 2).value;
    if forall i :: 0 <= i < |closes| - 1 ==> closes[i] <= closes[i + 1] {
      NothingLost(closes, p);
      if forall i :: 0 <= i < |closes| - 1 ==> closes[i] < closes[i + 1] { SomethingGained(closes, p); }
    }
    if forall i :: 0 <= i < |closes| - 1 ==> closes[i] >= closes[i + 1] {
      NothingGained(closes, p);
      if forall i :: 0 <= i < |closes| - 1 ==> closes[i] > closes[i + 1] { SomethingLost(closes, p); }
    }
  }

  lemma RsiIs(closes: seq<real>, period: real)
    requires RsiOf(closes, period).Some?
    ensures Whole(period, 2).Some?
    ensures var p := Whole(period, 2).value;
            && 2 <= p < |closes| && |Gains(closes)| == |Losses(closes)| == |closes| - 1
            && Smoothed(Gains(closes), p) >= 0.0 && Smoothed(Losses(closes), p) >= 0.0
            && RsiOf(closes, period) == Some(Index(Smoothed(Gains(closes), p), Smoothed(Losses(closes), p)))
  {
    hide Smoothed, Index;
    AveragesNotNegative(closes, Whole(period, 2).value);
    MoveCount(closes);
  }

  lemma NothingLost(closes: seq<real>, p: nat)
    requires 1 <= p < |closes| && |Losses(closes)| == |closes| - 1
    requires forall i :: 0 <= i < |closes| - 1 ==> closes[i] <= closes[i + 1]
    ensures Smoothed(Losses(closes), p) == 0.0
  {
    hide Smoothed, Gains, Losses;
    forall i | 0 <= i < |closes| - 1 ensures Losses(closes)[i] == 0.0 { MoveAt(closes, i); }
    SmoothedBetween(Losses(closes), p, 0.0, 0.0);
  }

  lemma NothingGained(closes: seq<real>, p: nat)
    requires 1 <= p < |closes| && |Gains(closes)| == |closes| - 1
    requires forall i :: 0 <= i < |closes| - 1 ==> closes[i] >= closes[i + 1]
    ensures Smoothed(Gains(closes), p) == 0.0
  {
    hide Smoothed, Gains, Losses;
    forall i | 0 <= i < |closes| - 1 ensures Gains(closes)[i] == 0.0 { MoveAt(closes, i); }
    SmoothedBetween(Gains(closes), p, 0.0, 0.0);
  }

  lemma SomethingGained(closes: seq<real>, p: nat)
    requires 1 <= p < |closes| && |Gains(closes)| == |closes| - 1
    requires forall i :: 0 <= i < |closes| - 1 ==> closes[i] < closes[i + 1]
    ensures Smoothed(Gains(closes), p) > 0.0
  {
    hide Smoothed, Gains, Losses;
    forall i | 0 <= i < |closes| - 1 ensures Gains(closes)[i] > 0.0 { MoveAt(closes, i); }
    SmoothedPositive(Gains(closes), p);
  }

  lemma SomethingLost(closes: seq<real>, p: nat)
    requires 1 <= p < |closes| && |Losses(closes)| == |closes| - 1
    requires forall i :: 0 <= i < |closes| - 1 ==> closes[i] > closes[i + 1]
    ensures Smoothed(Losses(closes), p) > 0.0
  {
    hide Smoothed, Gains, Losses;
    forall i | 0 <= i < |closes| - 1 ensures Losses(closes)[i] > 0.0 { MoveAt(closes, i); }
    SmoothedPositive(Losses(closes), p);
  }

  lemma {:induction false} SmoothedPositive(moves: seq<real>, period: nat)
    requires 1 <= period <= |moves| && forall i :: 0 <= i < |moves| ==> moves[i] > 0.0
    ensures Smoothed(moves, period) > 0.0
  {
    var least := Least(moves);
    SmoothedBetween(moves, period, least, Greatest(moves));
  }

  function Least(xs: seq<real>): (m: real)
    requires xs != []
    ensures m in xs && forall i :: 0 <= i < |xs| ==> m <= xs[i]
  {
    if |xs| == 1 then xs[0]
    else
      var m := Least(xs[..|xs| - 1]);
      if m <= xs[|xs| - 1] then m else xs[|xs| - 1]
  }

  function Greatest(xs: seq<real>): (m: real)
    requires xs != []
    ensures forall i :: 0 <= i < |xs| ==> xs[i] <= m
  {
    if |xs| == 1 then xs[0]
    else
      var m := Greatest(xs[..|xs| - 1]);
      if m >= xs[|xs| - 1] then m else xs[|xs| - 1]
  }

  /** A low index is a signal to buy and a high one to sell. */
  lemma SignalOfTrend(closes: seq<real>, period: real, oversold: real, overbought: real)
    requires RsiOf(closes, period).Some? && 0.0 <= oversold < overbought <= 100.0
    ensures (forall i :: 0 <= i < |closes| - 1 ==> closes[i] < closes[i + 1]) ==>
              RsiSignal(closes, period, oversold, overbought) == Some(Sell)
    ensures (forall i :: 0 <= i < |closes| - 1 ==> closes[i] > closes[i + 1]) ==>
              RsiSignal(closes, period, oversold, overbought) == Some(Buy)
  {
    hide RsiOf;
    TrendsAtTheEnds(closes, period);
  }

  // ---- Which way averages cross ----

  /** Raising the last close raises the fast average by more than the slow one. */
  lemma GapRises(closes: seq<real>, fast: nat, slow: nat, last: real)
    requires 1 <= fast < slow <= |closes| && last >= closes[|closes| - 1]
    ensures Gap(closes[|closes| - 1 := last], fast, slow) >= Gap(closes, fast, slow)
  {
    hide Mean, Last;
    var rise := last - closes[|closes| - 1];
    MeanRises(closes, fast, last);
    MeanRises(closes, slow, last);
    SmallerShare(rise, fast as real, slow as real);
  }

  lemma MeanRises(closes: seq<real>, n: nat, last: real)
    requires 1 <= n <= |closes|
    ensures Mean(Last(closes[|closes| - 1 := last], n)) == Mean(Last(closes, n)) + (last - closes[|closes| - 1]) / n as real
  {
    var xs, ys := Last(closes, n), Last(closes[|closes| - 1 := last], n);
    assert ys[..n - 1] == xs[..n - 1];
    SumOverN(Sum(xs), last - closes[|closes| - 1], n as real);
  }

  lemma SmallerShare(x: real, m: real, n: real)
    requires x >= 0.0 && 0.0 < m <= n
    ensures x / m >= x / n
  {
    Quotients(x / n, n, x / m, m);
  }

  /** Buy means that the fast average has come to stand above the slow one, and a still higher last
      close leaves it a buy; sell is the reverse. */
  lemma CrossDirection(closes: seq<real>, fast: real, slow: real, last: real)
    requires closes != []
    ensures var n, raised := |closes| - 1, closes[|closes| - 1 := last];
            && (SmaCross(closes, fast, slow) == Some(Buy) && last >= closes[n] ==> SmaCross(raised, fast, slow) == Some(Buy))
            && (SmaCross(closes, fast, slow) == Some(Sell) && last <= closes[n] ==> SmaCross(raised, fast, slow) == Some(Sell))
  {
    hide Gap;
    var n, raised := |closes| - 1, closes[|closes| - 1 := last];
    if SmaCross(closes, fast, slow).Some? {
      assert raised[..n] == closes[..n];
      if last >= closes[n] {
        GapRises(closes, fast.Floor, slow.Floor, last);
      } else {
        GapRises(raised, fast.Floor, slow.Floor, closes[n]);
        assert raised[n := closes[n]] == closes;
      }
      GapSame(closes, raised, fast.Floor, slow.Floor);
    }
  }

  lemma GapSame(closes: seq<real>, raised: seq<real>, fast: nat, slow: nat)
    requires 1 <= fast <= slow <= |closes| == |raised|
    ensures closes == raised ==> Gap(closes, fast, slow) == Gap(raised, fast, slow)
  {
  }
}
