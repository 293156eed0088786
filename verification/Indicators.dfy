/** Technical indicators: rolling simple moving average, Wilder RSI and the death-cross test. */
module Indicators {
  import opened Wrappers

  /** Look-back lengths. A length below one makes the source raise, so it is not a value here. */
  type Period = n: int | 1 <= n witness 1

  /** How far below the long average the short one must fall for a death cross. */
  const GAP: real := 0.002

  function Sum(xs: seq<real>): real {
    if |xs| == 0 then 0.0 else Sum(xs[..|xs| - 1]) + xs[|xs| - 1]
  }

  lemma {:induction false} SumDropFirst(xs: seq<real>)
    requires |xs| > 0
    ensures Sum(xs) == xs[0] + Sum(xs[1..])
  {
    if |xs| > 1 {
      var init := xs[..|xs| - 1];
      SumDropFirst(init);
      assert init[1..] == xs[1..][..|xs[1..]| - 1];
    }
  }

  /** Moving a window one place to the right adds the new last price and drops the old first one. */
  lemma WindowSlide(xs: seq<real>, a: nat, b: nat)
    requires a < b < |xs|
    ensures Sum(xs[a + 1..b + 1]) == Sum(xs[a..b]) + (xs[b] - xs[a])
  {
    SumDropFirst(xs[a..b]);
    assert xs[a..b][1..] == xs[a + 1..b];
    assert xs[a + 1..b + 1][..b - a - 1] == xs[a + 1..b];
    if a + 1 == b {
      assert xs[a + 1..b + 1] == [xs[b]];
    }
  }

  lemma {:induction false} SumPositive(xs: seq<real>)
    requires |xs| > 0
    requires forall i :: 0 <= i < |xs| ==> xs[i] > 0.0
    ensures Sum(xs) > 0.0
  {
    if |xs| == 1 {
      assert xs[..0] == [];
      assert Sum(xs) == Sum(xs[..0]) + xs[0];
    } else {
      SumPositive(xs[..|xs| - 1]);
    }
  }

  /** The direct definition: the mean of the last `period` prices up to and including index i. */
  function WindowMean(prices: seq<real>, period: Period, i: int): real
    requires period - 1 <= i < |prices|
  {
    Sum(prices[i + 1 - period..i + 1]) / period as real
  }

  function SmaAt(prices: seq<real>, period: Period, i: int): Option<real>
    requires 0 <= i < |prices|
  {
    if i < period - 1 then None else Some(WindowMean(prices, period, i))
  }

  lemma NoMeanYet(prices: seq<real>, period: Period)
    ensures forall i :: 0 <= i < |prices| && i < period - 1 ==> SmaAt(prices, period, i) == None
  {
  }

  lemma MeanOfWindow(prices: seq<real>, period: Period, i: int, sum: real)
    requires period - 1 <= i < |prices| && sum == Sum(prices[i + 1 - period..i + 1])
    ensures SmaAt(prices, period, i) == Some(sum / period as real)
  {
  }

  /** Moving average with a running window sum. */
  method CalculateSma(prices: seq<real>, period: Period) returns (result: seq<Option<real>>)
    ensures |result| == |prices|
    ensures forall i :: 0 <= i < |prices| ==> result[i] == SmaAt(prices, period, i)
  {
    hide Sum, SmaAt;
    result := seq(|prices|, _ => None);
    NoMeanYet(prices, period);
    if |prices| < period {
      return;
    }
    var windowSum := Sum(prices[0..period]);
    MeanOfWindow(prices, period, period - 1, windowSum);
    result := result[period - 1 := Some(windowSum / period as real)];
    for i := period to |prices|
      invariant |result| == |prices|
      invariant windowSum == Sum(prices[i - period..i])
      invariant forall k :: 0 <= k < i ==> result[k] == SmaAt(prices, period, k)
    {
      WindowSlide(prices, i - period, i);
      windowSum := windowSum + (prices[i] - prices[i - period]);
      MeanOfWindow(prices, period, i, windowSum);
      result := result[i := Some(windowSum / period as real)];
    }
  }

  /** Death cross on the last close: the short average is more than the gap below the long one,
      and one close earlier it was not below it. */
  ghost predicate DeathCross(closes: seq<real>, short: Period, long: Period) {
    var n := |closes|;
    && n >= long + 1
    && n - 2 >= short - 1
    && WindowMean(closes, short, n - 1) < WindowMean(closes, long, n - 1) * (1.0 - GAP)
    && WindowMean(closes, short, n - 2) >= WindowMean(closes, long, n - 2)
  }

  method CheckDeathCross(closes: seq<real>, short: Period, long: Period) returns (crossed: bool)
    ensures crossed == DeathCross(closes, short, long)
  {
    if |closes| < long + 1 {
      return false;
    }
    var smaShort := CalculateSma(closes, short);
    var smaLong := CalculateSma(closes, long);
    var n := |closes|;
    var currS, currL, prevS, prevL := smaShort[n - 1], smaLong[n - 1], smaShort[n - 2], smaLong[n - 2];
    if currS.None? || currL.None? || prevS.None? || prevL.None? {
      return false;
    }
    return currS.value < currL.value * (1.0 - GAP) && prevS.value >= prevL.value;
  }

  /** Only the last long + 1 closes matter, so fetching that many loses nothing. */
  lemma DeathCrossLocal(closes: seq<real>, short: Period, long: Period, keep: nat)
    requires short <= long < keep <= |closes|
    ensures DeathCross(closes, short, long) == DeathCross(closes[|closes| - keep..], short, long)
  {
    var n := |closes|;
    MeanOfTail(closes, keep, short, n - 1);
    MeanOfTail(closes, keep, long, n - 1);
    MeanOfTail(closes, keep, short, n - 2);
    MeanOfTail(closes, keep, long, n - 2);
    hide WindowMean;
  }

  lemma MeanOfTail(closes: seq<real>, keep: nat, period: Period, i: int)
    requires keep <= |closes| && |closes| - keep + period - 1 <= i < |closes|
    ensures WindowMean(closes[|closes| - keep..], period, i - (|closes| - keep)) == WindowMean(closes, period, i)
  {
    SliceOfTail(closes, |closes| - keep, i + 1 - period, i + 1);
    hide Sum;
  }

  lemma SliceOfTail(s: seq<real>, from: nat, a: nat, b: nat)
    requires from <= a <= b <= |s|
    ensures s[from..][a - from..b - from] == s[a..b]
  {
  }

  /** With positive prices the signal cannot be raised on two consecutive closes. */
  lemma DeathCrossNotTwice(closes: seq<real>, next: real, short: Period, long: Period)
    requires forall i :: 0 <= i < |closes| ==> closes[i] > 0.0
    requires DeathCross(closes, short, long)
    ensures !DeathCross(closes + [next], short, long)
  {
    var n := |closes|;
    var all := closes + [next];
    SumPositive(closes[n - long..n]);
    QuotientPositive(Sum(closes[n - long..n]), long as real);
    MeanOfExtension(closes, next, short, n - 1);
    MeanOfExtension(closes, next, long, n - 1);
  }

  lemma MeanOfExtension(closes: seq<real>, next: real, period: Period, i: int)
    requires period - 1 <= i < |closes|
    ensures WindowMean(closes + [next], period, i) == WindowMean(closes, period, i)
  {
    assert (closes + [next])[i + 1 - period..i + 1] == closes[i + 1 - period..i + 1];
  }

  // ---------------------------------------------------------------- Wilder RSI

  /** Rises (and, for negated prices, falls) between neighbouring closes. */
  function Gains(closes: seq<real>): (g: seq<real>)
    ensures |closes| > 0 ==> |g| == |closes| - 1
    ensures forall i :: 0 <= i < |g| ==> g[i] >= 0.0
  {
    if |closes| == 0 then [] else
      seq(|closes| - 1, i requires 0 <= i < |closes| - 1 => MaxReal(closes[i + 1] - closes[i], 0.0))
  }

  function Losses(closes: seq<real>): (l: seq<real>)
    ensures |closes| > 0 ==> |l| == |closes| - 1
    ensures forall i :: 0 <= i < |l| ==> l[i] >= 0.0
  {
    if |closes| == 0 then [] else
      seq(|closes| - 1, i requires 0 <= i < |closes| - 1 => MaxReal(closes[i] - closes[i + 1], 0.0))
  }

  /** One smoothing step: the old average keeps period - 1 parts, the new value gets one. */
  function Blend(w: real, x: real, period: Period): real {
    (w * (period - 1) as real + x) / period as real
  }

  /** Wilder's smoothed average of the first n values: a plain mean of the first `period`,
      then one smoothing step for each further value. */
  function Wilder(xs: seq<real>, period: Period, n: int): real
    requires period <= n <= |xs|
    decreases n
  {
    if n == period then Sum(xs[..period]) / period as real
    else Blend(Wilder(xs, period, n - 1), xs[n - 1], period)
  }

  function RsiOf(avgGain: real, avgLoss: real): real
    requires avgGain >= 0.0 && avgLoss >= 0.0
  {
    if avgLoss == 0.0 then 100.0 else 100.0 - 100.0 / (1.0 + avgGain / avgLoss)
  }

  /** RSI of given rises and falls. */
  function RsiOfMoves(gains: seq<real>, losses: seq<real>, period: Period): real
    requires period <= |gains| == |losses|
    requires forall i :: 0 <= i < |gains| ==> gains[i] >= 0.0 && losses[i] >= 0.0
  {
    WilderNonNegative(gains, period, |gains|);
    WilderNonNegative(losses, period, |losses|);
    RsiOf(Wilder(gains, period, |gains|), Wilder(losses, period, |losses|))
  }

  function Rsi(closes: seq<real>, period: Period): (r: Option<real>)
    ensures r.Some? <==> |closes| > period
  {
    if |closes| < period + 1 then None
    else Some(RsiOfMoves(Gains(closes), Losses(closes), period))
  }

  lemma {:induction false} SumNonNegative(xs: seq<real>)
    requires forall i :: 0 <= i < |xs| ==> xs[i] >= 0.0
    ensures Sum(xs) >= 0.0
  {
    if |xs| > 0 {
      SumNonNegative(xs[..|xs| - 1]);
    }
  }

  lemma QuotientPositive(a: real, b: real)
    requires a > 0.0 && b > 0.0
    ensures a / b > 0.0
  {
  }

  lemma QuotientNonNegative(a: real, b: real)
    requires a >= 0.0 && b > 0.0
    ensures a / b >= 0.0
  {
  }

  lemma BlendNonNegative(w: real, x: real, period: Period)
    requires w >= 0.0 && x >= 0.0
    ensures Blend(w, x, period) >= 0.0
  {
    var kept := w * (period - 1) as real;
    assert kept >= 0.0;
    QuotientNonNegative(kept + x, period as real);
  }

  lemma {:induction false} WilderNonNegative(xs: seq<real>, period: Period, n: int)
    requires period <= n <= |xs|
    requires forall i :: 0 <= i < |xs| ==> xs[i] >= 0.0
    ensures Wilder(xs, period, n) >= 0.0
    decreases n
  {
    if n == period {
      SumNonNegative(xs[..period]);
      QuotientNonNegative(Sum(xs[..period]), period as real);
    } else {
      WilderNonNegative(xs, period, n - 1);
      BlendNonNegative(Wilder(xs, period, n - 1), xs[n - 1], period);
    }
  }

  // ---------------------------------------------------------------- Wilder's average as a weighted sum

  function Pow(q: real, n: nat): real {
    if n == 0 then 1.0 else q * Pow(q, n - 1)
  }

  /** What a smoothing step leaves of an average. */
  function Kept(period: Period): real {
    1.0 - 1.0 / period as real
  }

  /** Value k in the smoothed average of the first n: one part in `period` when it comes in, and that part shrinks
      by the same factor with every value after it; the first `period` values come in together. */
  function Part(xs: seq<real>, period: Period, n: int, k: int): real
    requires period <= n <= |xs| && 0 <= k < n
  {
    Pow(Kept(period), n - MaxInt(k + 1, period)) * (xs[k] / period as real)
  }

  /** The first m parts. */
  function Parts(xs: seq<real>, period: Period, n: int, m: nat): real
    requires period <= n && m <= n <= |xs|
  {
    if m == 0 then 0.0 else Parts(xs, period, n, m - 1) + Part(xs, period, n, m - 1)
  }

  lemma BlendIs(w: real, x: real, period: Period)
    ensures Blend(w, x, period) == Kept(period) * w + x / period as real
  {
    var p := period as real;
    assert (w * (p - 1.0) + x) / p == w * (p - 1.0) / p + x / p;
    assert w * (p - 1.0) / p == (1.0 - 1.0 / p) * w;
    assert (period - 1) as real == p - 1.0;
  }

  lemma PartShrinks(xs: seq<real>, period: Period, n: int, k: int)
    requires period <= n < |xs| && 0 <= k < n
    ensures Part(xs, period, n + 1, k) == Kept(period) * Part(xs, period, n, k)
  {
    var q, m, x := Kept(period), n - MaxInt(k + 1, period), xs[k] / period as real;
    hide Kept;
    assert Pow(q, m + 1) == q * Pow(q, m);
    hide Pow;
    Reassociated(q, Pow(q, m), x);
  }

  lemma {:induction false} PartsShrink(xs: seq<real>, period: Period, n: int, m: nat)
    requires period <= n < |xs| && m <= n
    ensures Parts(xs, period, n + 1, m) == Kept(period) * Parts(xs, period, n, m)
  {
    hide Part, Kept;
    if m > 0 {
      PartsShrink(xs, period, n, m - 1);
      PartShrinks(xs, period, n, m - 1);
      Distributed(Kept(period), Parts(xs, period, n, m - 1), Part(xs, period, n, m - 1));
    }
  }

  lemma {:induction false} FirstMean(xs: seq<real>, period: Period, m: nat)
    requires m <= period <= |xs|
    ensures Parts(xs, period, period, m) == Sum(xs[..m]) / period as real
  {
    hide Part;
    if m > 0 {
      FirstMean(xs, period, m - 1);
      assert xs[..m][..m - 1] == xs[..m - 1];
      FirstPart(xs, period, m - 1);
      AddedPart(Sum(xs[..m - 1]), xs[m - 1], period as real);
    }
  }

  lemma FirstPart(xs: seq<real>, period: Period, k: int)
    requires 0 <= k < period <= |xs|
    ensures Part(xs, period, period, k) == xs[k] / period as real
  {
    hide Kept;
    assert Pow(Kept(period), 0) == 1.0;
  }

  lemma AddedPart(sum: real, x: real, p: real)
    requires p != 0.0
    ensures sum / p + x / p == (sum + x) / p
  {
  }

  /** Wilder's average is the sum of these parts, for every period and length. */
  lemma {:induction false} WilderIsWeighted(xs: seq<real>, period: Period, n: int)
    requires period <= n <= |xs|
    ensures Wilder(xs, period, n) == Parts(xs, period, n, n)
    decreases n
  {
    if n == period {
      FirstMean(xs, period, period);
    } else {
      WilderIsWeighted(xs, period, n - 1);
      NextParts(xs, period, n, Wilder(xs, period, n - 1));
      hide Blend, Part, Parts;
    }
  }

  lemma NextParts(xs: seq<real>, period: Period, n: int, w: real)
    requires period < n <= |xs| && w == Parts(xs, period, n - 1, n - 1)
    ensures Parts(xs, period, n, n) == Blend(w, xs[n - 1], period)
  {
    hide *;
    PartsShrink(xs, period, n - 1, n - 1);
    NewestPart(xs, period, n);
    BlendIs(w, xs[n - 1], period);
    SameFactor(Kept(period), Parts(xs, period, n, n - 1), Parts(xs, period, n - 1, n - 1), w);
  }

  lemma SameFactor(q: real, a: real, b: real, w: real)
    requires a == q * b && b == w
    ensures a == q * w
  {
  }

  lemma NewestPart(xs: seq<real>, period: Period, n: int)
    requires period < n <= |xs|
    ensures Parts(xs, period, n, n) == Parts(xs, period, n, n - 1) + xs[n - 1] / period as real
  {
    hide Kept;
    assert Pow(Kept(period), 0) == 1.0;
  }

  /** Equal averages on the close before count as not yet below. */
  lemma DeathCrossFromFlat()
    ensures DeathCross([100.0, 100.0, 100.0, 100.0, 94.0], 2, 4)
    ensures !DeathCross([100.0, 100.0, 100.0, 100.0, 100.0], 2, 4)
    ensures !DeathCross([100.0, 100.0, 100.0, 94.0, 94.0], 2, 4)
  {
    var a := [100.0, 100.0, 100.0, 100.0, 94.0];
    var b := [100.0, 100.0, 100.0, 100.0, 100.0];
    var c := [100.0, 100.0, 100.0, 94.0, 94.0];
    SumOfTwo(a, 3);
    SumOfTwo(a, 2);
    SumOfFour(a, 1);
    SumOfFour(a, 0);
    SumOfTwo(b, 3);
    SumOfFour(b, 1);
    SumOfTwo(c, 2);
    SumOfFour(c, 0);
    hide Sum;
  }

  lemma SumOfTwo(xs: seq<real>, i: nat)
    requires i + 2 <= |xs|
    ensures Sum(xs[i..i + 2]) == xs[i] + xs[i + 1]
  {
    var w := xs[i..i + 2];
    assert w[..1][..0] == [];
    assert Sum(w) == Sum(w[..1]) + w[1] && Sum(w[..1]) == Sum(w[..1][..0]) + w[0];
  }

  lemma SumOfFour(xs: seq<real>, i: nat)
    requires i + 4 <= |xs|
    ensures Sum(xs[i..i + 4]) == xs[i] + xs[i + 1] + xs[i + 2] + xs[i + 3]
  {
    var w := xs[i..i + 4];
    SumOfTwo(xs, i);
    assert w[..3][..2] == xs[i..i + 2];
    assert Sum(w) == Sum(w[..3]) + w[3] && Sum(w[..3]) == Sum(w[..3][..2]) + w[2];
  }

  /** RSI as the indicator module computes it. */
  method CalculateRsi(closes: seq<real>, period: Period) returns (r: Option<real>)
    ensures r == Rsi(closes, period)
  {
    if |closes| < period + 1 {
      return None;
    }
    var gains, losses := Moves(closes);
    MovesArePointwise(closes, gains, losses);
    var avgGain, avgLoss := SmoothedAverages(gains, losses, period);
    WilderNonNegative(gains, period, |gains|);
    WilderNonNegative(losses, period, |losses|);
    return Some(RsiOf(avgGain, avgLoss));
  }

  lemma MovesArePointwise(closes: seq<real>, gains: seq<real>, losses: seq<real>)
    requires |gains| == |losses| == |closes| - 1
    requires forall k :: 0 <= k < |gains| ==> gains[k] == MaxReal(closes[k + 1] - closes[k], 0.0)
    requires forall k :: 0 <= k < |losses| ==> losses[k] == MaxReal(closes[k] - closes[k + 1], 0.0)
    ensures gains == Gains(closes) && losses == Losses(closes)
  {
  }

  /** Rises and falls collected in one pass. */
  method Moves(closes: seq<real>) returns (gains: seq<real>, losses: seq<real>)
    requires |closes| > 0
    ensures |gains| == |losses| == |closes| - 1
    ensures forall k :: 0 <= k < |gains| ==> gains[k] == MaxReal(closes[k + 1] - closes[k], 0.0)
    ensures forall k :: 0 <= k < |losses| ==> losses[k] == MaxReal(closes[k] - closes[k + 1], 0.0)
  {
    gains, losses := [], [];
    for i := 1 to |closes|
      invariant |gains| == |losses| == i - 1
      invariant forall k :: 0 <= k < i - 1 ==> gains[k] == MaxReal(closes[k + 1] - closes[k], 0.0)
      invariant forall k :: 0 <= k < i - 1 ==> losses[k] == MaxReal(closes[k] - closes[k + 1], 0.0)
    {
      var delta := closes[i] - closes[i - 1];
      gains := gains + [MaxReal(0.0, delta)];
      losses := losses + [MaxReal(0.0, -delta)];
    }
  }

  /** The averaging loop of both RSI routines. */
  method SmoothedAverages(gains: seq<real>, losses: seq<real>, period: Period)
    returns (avgGain: real, avgLoss: real)
    requires period <= |gains| == |losses|
    ensures avgGain == Wilder(gains, period, |gains|)
    ensures avgLoss == Wilder(losses, period, |losses|)
  {
    avgGain := Sum(gains[..period]) / period as real;
    avgLoss := Sum(losses[..period]) / period as real;
    for i := period to |gains|
      invariant avgGain == Wilder(gains, period, i)
      invariant avgLoss == Wilder(losses, period, i)
    {
      avgGain := Blend(avgGain, gains[i], period);
      avgLoss := Blend(avgLoss, losses[i], period);
    }
  }

  lemma MulDivCancel(a: real, b: real)
    requires b != 0.0
    ensures (a / b) * b == a
    ensures (a * b) / b == a
  {
  }

  /** The usual closed form: the share of the rises in all movement. */
  lemma RsiShare(g: real, l: real)
    requires g >= 0.0 && l > 0.0
    ensures RsiOf(g, l) * (g + l) == 100.0 * g
    ensures 0.0 <= RsiOf(g, l) <= 100.0
  {
    var rs := g / l;
    QuotientNonNegative(g, l);
    MulDivCancel(g, l);
    var q := 100.0 / (1.0 + rs);
    MulDivCancel(100.0, 1.0 + rs);
    assert q * (1.0 + rs) == 100.0;
    assert (1.0 + rs) * l == l + g;
    assert q * (l + g) == 100.0 * l by {
      assert q * ((1.0 + rs) * l) == (q * (1.0 + rs)) * l;
    }
    QuotientNonNegative(100.0, 1.0 + rs);
    assert q * rs >= 0.0;
  }

  lemma RsiOfInRange(g: real, l: real)
    requires g >= 0.0 && l >= 0.0
    ensures 0.0 <= RsiOf(g, l) <= 100.0
  {
    if l > 0.0 {
      RsiShare(g, l);
    }
  }

  /** The reading, from the closes alone: with rises and falls averaged as weighted sums it is the share of the
      rises in both, in per cent; and one hundred when nothing fell. */
  lemma RsiMeaning(closes: seq<real>, period: Period, rises: seq<real>, falls: seq<real>)
    requires |closes| > period && |rises| == |falls| == |closes| - 1
    requires forall k :: 0 <= k < |rises| ==> rises[k] == MaxReal(closes[k + 1] - closes[k], 0.0)
    requires forall k :: 0 <= k < |falls| ==> falls[k] == MaxReal(closes[k] - closes[k + 1], 0.0)
    ensures Rsi(closes, period).Some?
    ensures IsShareOfRises(Rsi(closes, period).value, Parts(rises, period, |rises|, |rises|),
                           Parts(falls, period, |falls|, |falls|))
  {
    hide IsShareOfRises, RsiOf;
    MovesArePointwise(closes, rises, falls);
    WilderNonNegative(rises, period, |rises|);
    WilderNonNegative(falls, period, |falls|);
    WilderIsWeighted(rises, period, |rises|);
    WilderIsWeighted(falls, period, |falls|);
    RsiUnfolded(closes, period);
    hide Wilder, Parts, Gains, Losses, Rsi;
    ShareOfRises(Parts(rises, period, |rises|, |rises|), Parts(falls, period, |falls|, |falls|),
                 Rsi(closes, period).value);
  }

  /** The share of the rises in both, in per cent; one hundred without falls. */
  predicate IsShareOfRises(rsi: real, up: real, down: real) {
    && up >= 0.0 && down >= 0.0
    && (down > 0.0 ==> rsi * (up + down) == 100.0 * up)
    && (down == 0.0 ==> rsi == 100.0)
  }

  lemma ShareOfRises(up: real, down: real, rsi: real)
    requires up >= 0.0 && down >= 0.0 && rsi == RsiOf(up, down)
    ensures IsShareOfRises(rsi, up, down)
  {
    if down > 0.0 {
      RsiShare(up, down);
      hide RsiOf;
    }
  }

  lemma RsiInRange(closes: seq<real>, period: Period)
    ensures Rsi(closes, period).Some? <==> |closes| > period
    ensures Rsi(closes, period).Some? ==> 0.0 <= Rsi(closes, period).value <= 100.0
  {
    if |closes| > period {
      var gains, losses := Gains(closes), Losses(closes);
      WilderNonNegative(gains, period, |gains|);
      WilderNonNegative(losses, period, |losses|);
      RsiOfInRange(Wilder(gains, period, |gains|), Wilder(losses, period, |losses|));
    }
  }

  function Scale(c: real, xs: seq<real>): (ys: seq<real>)
    ensures |ys| == |xs|
  {
    if xs == [] then [] else Scale(c, xs[..|xs| - 1]) + [c * xs[|xs| - 1]]
  }

  lemma {:induction false} ScaleAt(c: real, xs: seq<real>, i: nat)
    requires i < |xs|
    ensures Scale(c, xs)[i] == c * xs[i]
  {
    if i < |xs| - 1 {
      ScaleAt(c, xs[..|xs| - 1], i);
    }
  }

  lemma {:induction false} ScalePrefix(c: real, xs: seq<real>, k: nat)
    requires k <= |xs|
    ensures Scale(c, xs)[..k] == Scale(c, xs[..k])
  {
    if k < |xs| {
      ScalePrefix(c, xs[..|xs| - 1], k);
      assert xs[..|xs| - 1][..k] == xs[..k];
    } else {
      assert xs[..k] == xs;
    }
  }

  lemma SumLast(xs: seq<real>)
    requires |xs| > 0
    ensures Sum(xs) == Sum(xs[..|xs| - 1]) + xs[|xs| - 1]
  {
  }

  lemma SumsScaled(c: real, head: real, last: real, sum: real, scaledHead: real, scaledLast: real, scaledSum: real)
    requires sum == head + last && scaledSum == scaledHead + scaledLast
    requires scaledHead == c * head && scaledLast == c * last
    ensures scaledSum == c * sum
  {
    Distributed(c, head, last);
  }

  lemma {:induction false} SumScale(c: real, xs: seq<real>)
    ensures Sum(Scale(c, xs)) == c * Sum(xs)
  {
    hide Scale;
    if |xs| > 0 {
      var k := |xs| - 1;
      var ys := Scale(c, xs);
      SumLast(xs);
      SumLast(ys);
      hide Sum;
      SumScale(c, xs[..k]);
      ScalePrefix(c, xs, k);
      ScaleAt(c, xs, k);
      SumsScaled(c, Sum(xs[..k]), xs[k], Sum(xs), Sum(ys[..k]), ys[k], Sum(ys));
    }
  }

  lemma DivScale(c: real, a: real, ca: real, b: real)
    requires b != 0.0 && ca == c * a
    ensures ca / b == c * (a / b)
  {
    var q := a / b;
    MulDivCancel(a, b);
    Reassociated(c, q, b);
    MulDivCancel(c * q, b);
  }

  lemma BlendScale(c: real, w: real, x: real, cw: real, cx: real, period: Period)
    requires cw == c * w && cx == c * x
    ensures Blend(cw, cx, period) == c * Blend(w, x, period)
  {
    var p := (period - 1) as real;
    Reassociated(c, w, p);
    Distributed(c, w * p, x);
    DivScale(c, w * p + x, cw * p + cx, period as real);
  }

  lemma MeanScale(c: real, xs: seq<real>, period: Period)
    requires period <= |xs|
    ensures Sum(Scale(c, xs)[..period]) / period as real == c * (Sum(xs[..period]) / period as real)
  {
    hide Scale;
    SumScale(c, xs[..period]);
    ScalePrefix(c, xs, period);
    DivScale(c, Sum(xs[..period]), Sum(Scale(c, xs)[..period]), period as real);
  }

  lemma WilderScaleStep(c: real, xs: seq<real>, ys: seq<real>, period: Period, n: int)
    requires period < n <= |xs| == |ys|
    requires ys[n - 1] == c * xs[n - 1]
    requires Wilder(ys, period, n - 1) == c * Wilder(xs, period, n - 1)
    ensures Wilder(ys, period, n) == c * Wilder(xs, period, n)
  {
    BlendScale(c, Wilder(xs, period, n - 1), xs[n - 1], Wilder(ys, period, n - 1), ys[n - 1], period);
  }

  lemma {:induction false} WilderScale(c: real, xs: seq<real>, period: Period, n: int)
    requires period <= n <= |xs|
    ensures Wilder(Scale(c, xs), period, n) == c * Wilder(xs, period, n)
    decreases n
  {
    if n == period {
      MeanScale(c, xs, period);
    } else {
      WilderScale(c, xs, period, n - 1);
      ScaleAt(c, xs, n - 1);
      WilderScaleStep(c, xs, Scale(c, xs), period, n);
    }
  }

  lemma ScaledMove(c: real, a: real, b: real, move: real, ca: real, cb: real, scaled: real)
    requires c > 0.0 && ca == c * a && cb == c * b
    requires move == MaxReal(a - b, 0.0) && scaled == MaxReal(ca - cb, 0.0)
    ensures scaled == c * move
  {
    var d := a - b;
    Distributed(c, a, b);
    assert ca - cb == c * d;
    SignOfProduct(d, c);
    assert c * d > 0.0 <==> d > 0.0;
  }

  lemma MovesAt(closes: seq<real>, i: nat)
    requires i + 1 < |closes|
    ensures Gains(closes)[i] == MaxReal(closes[i + 1] - closes[i], 0.0)
    ensures Losses(closes)[i] == MaxReal(closes[i] - closes[i + 1], 0.0)
  {
  }

  lemma RiseScaled(closes: seq<real>, ys: seq<real>, c: real, i: nat)
    requires c > 0.0 && |ys| == |closes| && i + 1 < |closes|
    requires ys[i] == c * closes[i] && ys[i + 1] == c * closes[i + 1]
    ensures Gains(ys)[i] == c * Gains(closes)[i]
  {
    MovesAt(closes, i);
    MovesAt(ys, i);
    hide Gains, Losses, MaxReal;
    var a, b, ca, cb := closes[i + 1], closes[i], ys[i + 1], ys[i];
    ScaledMove(c, a, b, Gains(closes)[i], ca, cb, Gains(ys)[i]);
  }

  lemma FallScaled(closes: seq<real>, ys: seq<real>, c: real, i: nat)
    requires c > 0.0 && |ys| == |closes| && i + 1 < |closes|
    requires ys[i] == c * closes[i] && ys[i + 1] == c * closes[i + 1]
    ensures Losses(ys)[i] == c * Losses(closes)[i]
  {
    MovesAt(closes, i);
    MovesAt(ys, i);
    hide Gains, Losses, MaxReal;
    var a, b, ca, cb := closes[i], closes[i + 1], ys[i], ys[i + 1];
    ScaledMove(c, a, b, Losses(closes)[i], ca, cb, Losses(ys)[i]);
  }

  lemma ScaledMovesAt(closes: seq<real>, c: real, i: nat)
    requires c > 0.0 && i + 1 < |closes|
    ensures Gains(Scale(c, closes))[i] == Scale(c, Gains(closes))[i]
    ensures Losses(Scale(c, closes))[i] == Scale(c, Losses(closes))[i]
  {
    hide Scale, Gains, Losses;
    ScaleAt(c, closes, i);
    ScaleAt(c, closes, i + 1);
    ScaleAt(c, Gains(closes), i);
    ScaleAt(c, Losses(closes), i);
    RiseScaled(closes, Scale(c, closes), c, i);
    FallScaled(closes, Scale(c, closes), c, i);
  }

  lemma ScaledMoves(closes: seq<real>, c: real)
    requires c > 0.0 && |closes| > 0
    ensures Gains(Scale(c, closes)) == Scale(c, Gains(closes))
    ensures Losses(Scale(c, closes)) == Scale(c, Losses(closes))
  {
    forall i: nat | i < |closes| - 1
      ensures Gains(Scale(c, closes))[i] == Scale(c, Gains(closes))[i]
      ensures Losses(Scale(c, closes))[i] == Scale(c, Losses(closes))[i]
    {
      ScaledMovesAt(closes, c, i);
    }
  }

  lemma RsiOfScale(c: real, g: real, l: real, cg: real, cl: real)
    requires c > 0.0 && g >= 0.0 && l >= 0.0
    requires cg == c * g && cl == c * l
    ensures cg >= 0.0 && cl >= 0.0
    ensures RsiOf(cg, cl) == RsiOf(g, l)
  {
    if l > 0.0 {
      assert cl > 0.0;
      var q := g / l;
      MulDivCancel(g, l);
      assert q * cl == cg by {
        assert q * (c * l) == c * (q * l);
      }
      MulDivCancel(q, cl);
    }
  }

  lemma RsiOfMovesScale(c: real, gains: seq<real>, losses: seq<real>, period: Period)
    requires c > 0.0
    requires period <= |gains| == |losses|
    requires forall i :: 0 <= i < |gains| ==> gains[i] >= 0.0 && losses[i] >= 0.0
    ensures forall i :: 0 <= i < |gains| ==> Scale(c, gains)[i] >= 0.0 && Scale(c, losses)[i] >= 0.0
    ensures RsiOfMoves(Scale(c, gains), Scale(c, losses), period) == RsiOfMoves(gains, losses, period)
  {
    hide Scale, Wilder, RsiOf;
    ScaleNonNegative(c, gains);
    ScaleNonNegative(c, losses);
    var n := |gains|;
    assert |Scale(c, gains)| == n && |Scale(c, losses)| == n;
    WilderScale(c, gains, period, n);
    WilderScale(c, losses, period, n);
    WilderNonNegative(gains, period, n);
    WilderNonNegative(losses, period, n);
    RsiOfScale(c, Wilder(gains, period, n), Wilder(losses, period, n),
               Wilder(Scale(c, gains), period, n), Wilder(Scale(c, losses), period, n));
  }

  lemma ScaleNonNegative(c: real, xs: seq<real>)
    requires c > 0.0
    requires forall i :: 0 <= i < |xs| ==> xs[i] >= 0.0
    ensures forall i :: 0 <= i < |xs| ==> Scale(c, xs)[i] >= 0.0
  {
    forall i | 0 <= i < |xs|
      ensures Scale(c, xs)[i] >= 0.0
    {
      ScaleAt(c, xs, i);
    }
  }

  /** Quoting every close in another (positive) unit leaves the RSI unchanged. */
  lemma RsiScaleInvariant(closes: seq<real>, c: real, period: Period)
    requires c > 0.0
    ensures Rsi(Scale(c, closes), period) == Rsi(closes, period)
  {
    hide Scale, RsiOfMoves;
    if |closes| > period {
      ScaledMoves(closes, c);
      RsiOfMovesScale(c, Gains(closes), Losses(closes), period);
    }
  }

  lemma MirroredMoves(closes: seq<real>)
    ensures Gains(Scale(-1.0, closes)) == Losses(closes)
    ensures Losses(Scale(-1.0, closes)) == Gains(closes)
  {
    hide Scale;
    forall i: nat | i < |closes|
      ensures Scale(-1.0, closes)[i] == -closes[i]
    {
      ScaleAt(-1.0, closes, i);
    }
  }

  /** Both smoothed averages are non-zero: there was at least one rise and one fall. */
  ghost predicate TwoSided(gains: seq<real>, losses: seq<real>, period: Period)
    requires period <= |gains| == |losses|
  {
    Wilder(gains, period, |gains|) != 0.0 && Wilder(losses, period, |losses|) != 0.0
  }

  lemma RsiOfMovesSwap(gains: seq<real>, losses: seq<real>, period: Period)
    requires period <= |gains| == |losses|
    requires forall i :: 0 <= i < |gains| ==> gains[i] >= 0.0 && losses[i] >= 0.0
    requires TwoSided(gains, losses, period)
    ensures RsiOfMoves(losses, gains, period) == 100.0 - RsiOfMoves(gains, losses, period)
  {
    WilderNonNegative(gains, period, |gains|);
    WilderNonNegative(losses, period, |losses|);
    SharesAddUp(Wilder(gains, period, |gains|), Wilder(losses, period, |losses|));
  }

  lemma RsiUnfolded(closes: seq<real>, period: Period)
    requires |closes| > period
    ensures Rsi(closes, period) == Some(RsiOfMoves(Gains(closes), Losses(closes), period))
  {
  }

  lemma SwappedMoves(closes: seq<real>, mirrored: seq<real>, period: Period)
    requires |mirrored| == |closes| > period
    requires Gains(mirrored) == Losses(closes) && Losses(mirrored) == Gains(closes)
    requires TwoSided(Gains(closes), Losses(closes), period)
    ensures Rsi(mirrored, period) == Some(100.0 - Rsi(closes, period).value)
  {
    hide *;
    var gains, losses := Gains(closes), Losses(closes);
    RsiUnfolded(closes, period);
    RsiUnfolded(mirrored, period);
    RsiOfMovesSwap(gains, losses, period);
    assert Rsi(mirrored, period) == Some(RsiOfMoves(losses, gains, period));
  }

  /** Mirroring the closes swaps gains and losses: the two readings add up to one hundred. */
  lemma RsiMirror(closes: seq<real>, period: Period)
    requires |closes| > period
    requires TwoSided(Gains(closes), Losses(closes), period)
    ensures Rsi(Scale(-1.0, closes), period) == Some(100.0 - Rsi(closes, period).value)
  {
    hide *;
    MirroredMoves(closes);
    SwappedMoves(closes, Scale(-1.0, closes), period);
  }

  lemma ZeroFactor(a: real, b: real)
    requires b != 0.0 && a * b == 0.0
    ensures a == 0.0
  {
  }

  lemma SharesAddUp(g: real, l: real)
    requires g > 0.0 && l > 0.0
    ensures RsiOf(l, g) == 100.0 - RsiOf(g, l)
  {
    RsiShare(g, l);
    RsiShare(l, g);
    var x, y, t := RsiOf(g, l), RsiOf(l, g), g + l;
    var excess := x + y - 100.0;
    assert x * t == 100.0 * g && y * t == 100.0 * l;
    assert excess * t == x * t + y * t - 100.0 * t == 0.0;
    ZeroFactor(excess, t);
  }
}
