/** The metrics engine: from a list of daily bars to an eleven-field record of
    nullable numbers (returns, moving averages, drawdown, RSI, volatility,
    volume z-score), and from that record to signal codes. */
module Metrics {
  import opened Common

  /** One daily bar (`PriceBarDaily`). The ISO date is a day number, so the
      `localeCompare` order on `YYYY-MM-DD` strings is the order of integers. */
  datatype Bar = Bar(date: int, open: real, high: real, low: real, close: real, volume: Option<real>)

  datatype BasicMetrics = BasicMetrics(
    price: Option<real>,
    return1D: Option<real>,
    return5D: Option<real>,
    return1M: Option<real>,
    return3M: Option<real>,
    volAnn: Option<real>,
    maxDrawdown: Option<real>,
    sma20: Option<real>,
    sma50: Option<real>,
    rsi14: Option<real>,
    volumeZScore: Option<real>)

  const AllNull := BasicMetrics(None, None, None, None, None, None, None, None, None, None, None)

  /** Prices are positive; the source divides by closes and by peaks. */
  predicate Positive(s: seq<real>)
  {
    forall i :: 0 <= i < |s| ==> s[i] > 0.0
  }

  predicate PositiveCloses(bars: seq<Bar>)
  {
    forall i :: 0 <= i < |bars| ==> bars[i].close > 0.0
  }

  // ---------------------------------------------------------------------------
  // round, percentChange, computeReturn, computeSma
  // ---------------------------------------------------------------------------

  /** `round(value, digits)`: null stays null, a number keeps its sign. */
  function RoundOpt(v: Option<real>, digits: nat): (r: Option<real>)
    ensures r.Some? <==> v.Some?
    ensures v.Some? && v.value >= 0.0 ==> r.value >= 0.0
    ensures v.Some? && v.value <= 0.0 ==> r.value <= 0.0
  {
    match v
    case None => None
    case Some(x) => RoundSign(x, digits); Some(Round(x, digits))
  }

  /** `((current - base) / base) * 100`. */
  function PercentChange(current: real, base: real): (r: real)
    requires base > 0.0
    ensures r > 0.0 <==> current > base
    ensures r < 0.0 <==> current < base
    ensures current > 0.0 ==> r > -100.0
  {
    QuotientFacts(current - base, base);
    (current - base) / base * 100.0
  }

  /** `computeReturn(lookback, closes)`: the change from the close `lookback`
      sessions before the last one, when there is such a close. */
  function ComputeReturn(lookback: nat, closes: seq<real>): (r: Option<real>)
    requires Positive(closes)
    ensures r.Some? <==> |closes| > lookback
    ensures r.Some? ==> r.value == PercentChange(closes[|closes| - 1], closes[|closes| - 1 - lookback])
    ensures r.Some? ==> r.value > -100.0
  {
    if |closes| > lookback then
      Some(PercentChange(closes[|closes| - 1], closes[|closes| - 1 - lookback]))
    else None
  }

  /** `computeSma(window, closes)`: the mean of the last `window` closes; it lies
      between the smallest and the largest of them. */
  function ComputeSma(window: nat, closes: seq<real>): (r: Option<real>)
    requires window > 0
    ensures r.Some? <==> |closes| >= window
    ensures r.Some? ==>
      SeqMin(closes[|closes| - window..]) <= r.value <= SeqMax(closes[|closes| - window..])
  {
    if |closes| >= window then
      var slice := closes[|closes| - window..];
      MeanBounds(slice, SeqMin(slice), SeqMax(slice));
      Some(Mean(slice))
    else None
  }

  // ---------------------------------------------------------------------------
  // computeMaxDrawdown
  // ---------------------------------------------------------------------------

  /** The running peak after close `i`: raised to each close above it. */
  function PeakAt(s: seq<real>, i: nat): (p: real)
    requires Positive(s) && i < |s|
    ensures p > 0.0 && p >= s[i]
    decreases i
  {
    if i == 0 then s[0]
    else
      var q := PeakAt(s, i - 1);
      if s[i] > q then s[i] else q
  }

  /** The running peak is the highest close up to and including position
      `i`: no close so far is above it, and it is one of them. */
  lemma {:induction false} PeakIsHighest(s: seq<real>, i: nat)
    requires Positive(s) && i < |s|
    ensures forall k :: 0 <= k <= i ==> s[k] <= PeakAt(s, i)
    ensures exists k :: 0 <= k <= i && PeakAt(s, i) == s[k]
    decreases i
  {
    if i > 0 {
      PeakIsHighest(s, i - 1);
    } else {
      assert PeakAt(s, 0) == s[0];
    }
  }

  /** The fall of close `i` below the running peak, as a fraction of it. */
  function DrawdownAt(s: seq<real>, i: nat): (d: real)
    requires Positive(s) && i < |s|
    ensures -1.0 < d <= 0.0
  {
    var p := PeakAt(s, i);
    QuotientFacts(s[i] - p, p);
    (s[i] - p) / p
  }

  /** The deepest drawdown among the first `n` closes, and 0 if there is none
      below 0 (the running minimum the loop keeps). */
  function WorstDrawdown(s: seq<real>, n: nat): (w: real)
    requires Positive(s) && n <= |s|
    ensures -1.0 < w <= 0.0
    decreases n
  {
    if n == 0 then 0.0
    else
      var w := WorstDrawdown(s, n - 1);
      var d := DrawdownAt(s, n - 1);
      if d < w then d else w
  }

  /** `WorstDrawdown` is the minimum of 0 and the drawdowns so far. */
  lemma {:induction false} WorstDrawdownIsMinimum(s: seq<real>, n: nat)
    requires Positive(s) && n <= |s|
    ensures forall i :: 0 <= i < n ==> WorstDrawdown(s, n) <= DrawdownAt(s, i)
    ensures WorstDrawdown(s, n) == 0.0 || exists i :: 0 <= i < n && WorstDrawdown(s, n) == DrawdownAt(s, i)
    decreases n
  {
    if n > 0 {
      WorstDrawdownIsMinimum(s, n - 1);
    }
  }

  lemma DrawdownAtPeak(s: seq<real>, i: nat)
    requires Positive(s) && i < |s| && PeakAt(s, i) == s[i]
    ensures DrawdownAt(s, i) == 0.0
  {
    var p := PeakAt(s, i);
    assert s[i] - p == 0.0;
  }

  /** What `computeMaxDrawdown` returns: null for fewer than two closes,
      otherwise the deepest drawdown in percent. */
  function MaxDrawdownOf(closes: seq<real>): (r: Option<real>)
    requires Positive(closes)
    ensures r.Some? <==> |closes| >= 2
    ensures r.Some? ==> -100.0 < r.value <= 0.0
  {
    if |closes| < 2 then None else Some(WorstDrawdown(closes, |closes|) * 100.0)
  }

  predicate NonDecreasing(s: seq<real>)
  {
    forall i, j :: 0 <= i <= j < |s| ==> s[i] <= s[j]
  }

  lemma {:induction false} WorstDrawdownOfNonDecreasing(s: seq<real>, n: nat)
    requires Positive(s) && NonDecreasing(s) && n <= |s|
    ensures WorstDrawdown(s, n) == 0.0
    decreases n
  {
    if n > 0 {
      WorstDrawdownOfNonDecreasing(s, n - 1);
      PeakIsHighest(s, n - 1);
      DrawdownAtPeak(s, n - 1);
    }
  }

  /** A series that never falls has no drawdown. */
  lemma MaxDrawdownOfNonDecreasing(closes: seq<real>)
    requires Positive(closes) && NonDecreasing(closes) && |closes| >= 2
    ensures MaxDrawdownOf(closes) == Some(0.0)
  {
    WorstDrawdownOfNonDecreasing(closes, |closes|);
  }

  /** `computeMaxDrawdown`: one pass keeping the running peak and the worst
      drawdown seen so far. */
  method ComputeMaxDrawdown(closes: seq<real>) returns (r: Option<real>)
    requires Positive(closes)
    ensures r == MaxDrawdownOf(closes)
  {
    if |closes| < 2 {
      return None;
    }
    var peak := closes[0];
    var worst := 0.0;
    var i := 0;
    while i < |closes|
      invariant 0 <= i <= |closes|
      invariant peak == PeakAt(closes, if i == 0 then 0 else i - 1)
      invariant worst == WorstDrawdown(closes, i)
    {
      var price := closes[i];
      if price > peak {
        peak := price;
      }
      var drawdown := (price - peak) / peak;
      if drawdown < worst {
        worst := drawdown;
      }
      i := i + 1;
    }
    return Some(worst * 100.0);
  }

  // ---------------------------------------------------------------------------
  // Log returns and annualised volatility
  // ---------------------------------------------------------------------------

  /** `Math.log(closes[i + 1] / closes[i])`. */
  function LogReturnAt(closes: seq<real>, ln: real -> real, i: nat): real
    requires Positive(closes) && i + 1 < |closes|
  {
    ln(closes[i + 1] / closes[i])
  }

  /** One log return per consecutive pair of closes. */
  function LogReturnsOf(closes: seq<real>, ln: real -> real): (r: seq<real>)
    requires Positive(closes)
    ensures |r| == if closes == [] then 0 else |closes| - 1
  {
    if closes == [] then []
    else seq(|closes| - 1, i requires 0 <= i < |closes| - 1 => LogReturnAt(closes, ln, i))
  }

  /** The loop that pushes one log return per consecutive pair of closes. */
  method LogReturns(closes: seq<real>, ln: real -> real) returns (logReturns: seq<real>)
    requires Positive(closes)
    ensures logReturns == LogReturnsOf(closes, ln)
  {
    logReturns := [];
    if closes == [] {
      return;
    }
    var i := 1;
    while i < |closes|
      invariant 1 <= i <= |closes|
      invariant |logReturns| == i - 1
      invariant forall k :: 0 <= k < i - 1 ==> logReturns[k] == LogReturnAt(closes, ln, k)
    {
      logReturns := logReturns + [LogReturnAt(closes, ln, i - 1)];
      i := i + 1;
    }
  }

  /** The `volAnn` block: with at least two log returns, their sample
      standard deviation scaled by `sqrt(252) * 100`; never negative. */
  function VolAnnFromReturns(logReturns: seq<real>, math: MathOps): (r: Option<real>)
    ensures r.Some? <==> |logReturns| >= 2
    ensures r.Some? && SqrtSound(math.sqrt) ==> r.value >= 0.0
  {
    if |logReturns| >= 2 then
      var a := math.sqrt(SampleVariance(logReturns));
      var b := math.sqrt(252.0);
      assert SqrtSound(math.sqrt) ==> a >= 0.0 && b >= 0.0;
      assert a >= 0.0 && b >= 0.0 ==> a * b >= 0.0;
      Some(a * b * 100.0)
    else None
  }

  /** `volAnn` before rounding: present only from three closes on. */
  function VolAnnOf(closes: seq<real>, math: MathOps): (r: Option<real>)
    requires Positive(closes)
    ensures r.Some? <==> |closes| >= 3
    ensures r.Some? && SqrtSound(math.sqrt) ==> r.value >= 0.0
  {
    VolAnnFromReturns(LogReturnsOf(closes, math.ln), math)
  }

  // ---------------------------------------------------------------------------
  // Wilder RSI-14
  // ---------------------------------------------------------------------------

  /** `closes[i] - closes[i - 1]` for every consecutive pair. */
  function Deltas(closes: seq<real>): (d: seq<real>)
    ensures |d| == if closes == [] then 0 else |closes| - 1
  {
    if closes == [] then []
    else seq(|closes| - 1, i requires 0 <= i < |closes| - 1 => closes[i + 1] - closes[i])
  }

  function Gain(delta: real): real { if delta > 0.0 then delta else 0.0 }
  function Loss(delta: real): real { if delta > 0.0 then 0.0 else -delta }

  /** Total gain over the first `n` deltas. */
  function SumGains(d: seq<real>, n: nat): (g: real)
    requires n <= |d|
    ensures g >= 0.0
    decreases n
  {
    if n == 0 then 0.0 else SumGains(d, n - 1) + Gain(d[n - 1])
  }

  /** Total loss over the first `n` deltas. */
  function SumLosses(d: seq<real>, n: nat): (l: real)
    requires n <= |d|
    ensures l >= 0.0
    decreases n
  {
    if n == 0 then 0.0 else SumLosses(d, n - 1) + Loss(d[n - 1])
  }

  /** The gain total is zero exactly when no delta rose, the loss total exactly
      when no delta fell. */
  lemma {:induction false} SumsZero(d: seq<real>, n: nat)
    requires n <= |d|
    ensures SumGains(d, n) == 0.0 <==> forall i :: 0 <= i < n ==> d[i] <= 0.0
    ensures SumLosses(d, n) == 0.0 <==> forall i :: 0 <= i < n ==> d[i] >= 0.0
    decreases n
  {
    if n > 0 {
      SumsZero(d, n - 1);
    }
  }

  datatype Averages = Averages(gain: real, loss: real)

  /** Wilder's smoothed average gain and loss after the first `n` deltas:
      plain averages over the first 14, then `(avg * 13 + x) / 14` per delta. */
  function Smoothed(d: seq<real>, n: nat): (a: Averages)
    requires 14 <= n <= |d|
    ensures a.gain >= 0.0 && a.loss >= 0.0
    decreases n
  {
    if n == 14 then Averages(SumGains(d, 14) / 14.0, SumLosses(d, 14) / 14.0)
    else
      var p := Smoothed(d, n - 1);
      Averages((p.gain * 13.0 + Gain(d[n - 1])) / 14.0, (p.loss * 13.0 + Loss(d[n - 1])) / 14.0)
  }

  lemma SmoothedStep(d: seq<real>, n: nat)
    requires 14 <= n < |d|
    ensures Smoothed(d, n + 1) == Averages(
      (Smoothed(d, n).gain * 13.0 + Gain(d[n])) / 14.0,
      (Smoothed(d, n).loss * 13.0 + Loss(d[n])) / 14.0)
  {}

  /** Each smoothed average is zero exactly when no delta so far moved its way. */
  lemma {:induction false} SmoothedZero(d: seq<real>, n: nat)
    requires 14 <= n <= |d|
    ensures Smoothed(d, n).gain == 0.0 <==> forall i :: 0 <= i < n ==> d[i] <= 0.0
    ensures Smoothed(d, n).loss == 0.0 <==> forall i :: 0 <= i < n ==> d[i] >= 0.0
    decreases n
  {
    if n == 14 {
      SumsZero(d, 14);
    } else {
      SmoothedZero(d, n - 1);
    }
  }

  lemma RsiRatio(g: real, l: real)
    requires g >= 0.0 && l > 0.0
    ensures 100.0 - 100.0 / (1.0 + g / l) == 100.0 * g / (g + l)
  {
    var rs := g / l;
    DivMulId(g, l);
    var t := 1.0 + rs;
    assert t * l == g + l;
    var u := 100.0 / t;
    DivMulId(100.0, t);
    assert u * (g + l) == 100.0 * l by {
      assert u * (g + l) == u * (t * l) == (u * t) * l;
    }
    var f := 100.0 * g / (g + l);
    DivMulId(100.0 * g, g + l);
    assert (100.0 - u) * (g + l) == 100.0 * g;
    CompareByProduct(100.0 - u, f, g + l);
  }

  lemma FractionFacts(f: real, g: real, l: real, s: real)
    requires g >= 0.0 && l > 0.0 && s == g + l && f * s == 100.0 * g
    ensures 0.0 <= f < 100.0
    ensures f > 50.0 <==> g > l
    ensures f < 50.0 <==> g < l
  {
    ProductSign(f, 100.0 * g, s);
    ProductSign(100.0 - f, 100.0 * l, s);
    ProductSign(f - 50.0, 50.0 * (g - l), s);
  }

  /** The RSI read off the two averages. It is in [0, 100]; above 50 exactly
      when gains outweigh losses and below 50 exactly when losses outweigh
      gains; 50 with no movement at all and 100 with gains but no losses. */
  function RsiFromAverages(a: Averages): (r: real)
    requires a.gain >= 0.0 && a.loss >= 0.0
    ensures 0.0 <= r <= 100.0
    ensures r > 50.0 <==> a.gain > a.loss
    ensures r < 50.0 <==> a.gain < a.loss
    ensures a.gain == 0.0 && a.loss == 0.0 ==> r == 50.0
    ensures a.gain > 0.0 && a.loss == 0.0 ==> r == 100.0
  {
    if a.loss == 0.0 && a.gain == 0.0 then 50.0
    else if a.loss == 0.0 then 100.0
    else
      RsiRatio(a.gain, a.loss);
      DivMulId(100.0 * a.gain, a.gain + a.loss);
      FractionFacts(100.0 * a.gain / (a.gain + a.loss), a.gain, a.loss, a.gain + a.loss);
      100.0 - 100.0 / (1.0 + a.gain / a.loss)
  }

  /** `rsi14` before rounding: null below 15 closes. */
  function RsiOf(closes: seq<real>): (r: Option<real>)
    ensures r.Some? <==> |closes| >= 15
    ensures r.Some? ==> 0.0 <= r.value <= 100.0
  {
    if |closes| < 15 then None
    else Some(RsiFromAverages(Smoothed(Deltas(closes), |closes| - 1)))
  }

  /** A flat series has RSI 50. */
  lemma RsiOfFlat(closes: seq<real>)
    requires |closes| >= 15
    requires forall i :: 0 <= i < |closes| ==> closes[i] == closes[0]
    ensures RsiOf(closes) == Some(50.0)
  {
    var d := Deltas(closes);
    assert forall i :: 0 <= i < |d| ==> d[i] == closes[i + 1] - closes[i];
    SmoothedZero(d, |closes| - 1);
  }

  /** A series that rises at least once and never falls has RSI 100. */
  lemma RsiOfRising(closes: seq<real>, k: nat)
    requires |closes| >= 15
    requires NonDecreasing(closes)
    requires 0 < k < |closes| && closes[k - 1] < closes[k]
    ensures RsiOf(closes) == Some(100.0)
  {
    var d := Deltas(closes);
    var n := |closes| - 1;
    forall i | 0 <= i < n
      ensures d[i] >= 0.0
    {
      assert closes[i] <= closes[i + 1];
    }
    assert d[k - 1] > 0.0;
    SmoothedZero(d, n);
    var a := Smoothed(d, n);
    assert a.loss == 0.0 && a.gain > 0.0;
    assert RsiOf(closes) == Some(RsiFromAverages(a));
  }

  /** The loop pushing `closes[i] - closes[i - 1]` for every `i >= 1`. */
  method ComputeDeltas(closes: seq<real>) returns (deltas: seq<real>)
    requires closes != []
    ensures deltas == Deltas(closes)
  {
    deltas := [];
    var i := 1;
    while i < |closes|
      invariant 1 <= i <= |closes|
      invariant |deltas| == i - 1
      invariant forall k :: 0 <= k < i - 1 ==> deltas[k] == closes[k + 1] - closes[k]
    {
      deltas := deltas + [closes[i] - closes[i - 1]];
      i := i + 1;
    }
  }

  /** The seed loop: gains and losses of the first 14 deltas, averaged. */
  method SeedAverages(deltas: seq<real>) returns (avgGain: real, avgLoss: real)
    requires |deltas| >= 14
    ensures Averages(avgGain, avgLoss) == Smoothed(deltas, 14)
  {
    var gainSum := 0.0;
    var lossSum := 0.0;
    var i := 0;
    while i < 14 && i < |deltas|
      invariant 0 <= i <= 14
      invariant gainSum == SumGains(deltas, i) && lossSum == SumLosses(deltas, i)
    {
      var delta := deltas[i];
      if delta > 0.0 {
        gainSum := gainSum + delta;
      } else {
        lossSum := lossSum + -delta;
      }
      i := i + 1;
    }
    avgGain := gainSum / 14.0;
    avgLoss := lossSum / 14.0;
  }

  /** The smoothing loop over the deltas after the first 14. */
  method SmoothAverages(deltas: seq<real>, avgGain0: real, avgLoss0: real)
    returns (avgGain: real, avgLoss: real)
    requires |deltas| >= 14
    requires Averages(avgGain0, avgLoss0) == Smoothed(deltas, 14)
    ensures Averages(avgGain, avgLoss) == Smoothed(deltas, |deltas|)
  {
    avgGain, avgLoss := avgGain0, avgLoss0;
    var i := 14;
    while i < |deltas|
      invariant 14 <= i <= |deltas|
      invariant Averages(avgGain, avgLoss) == Smoothed(deltas, i)
    {
      var delta := deltas[i];
      var gain := if delta > 0.0 then delta else 0.0;
      var loss := if -delta > 0.0 then -delta else 0.0;
      SmoothedStep(deltas, i);
      avgGain := (avgGain * 13.0 + gain) / 14.0;
      avgLoss := (avgLoss * 13.0 + loss) / 14.0;
      i := i + 1;
    }
  }

  /** The RSI block of `computeMetrics`: deltas, seed averages, smoothing, and
      the final reading. */
  method ComputeRsi(closes: seq<real>) returns (r: Option<real>)
    ensures r == RsiOf(closes)
  {
    if |closes| < 15 {
      return None;
    }
    var deltas := ComputeDeltas(closes);
    var g0, l0 := SeedAverages(deltas);
    var avgGain, avgLoss := SmoothAverages(deltas, g0, l0);
    var rsi;
    if avgLoss == 0.0 && avgGain == 0.0 {
      rsi := 50.0;
    } else if avgLoss == 0.0 {
      rsi := 100.0;
    } else {
      var rs := avgGain / avgLoss;
      QuotientFacts(avgGain, avgLoss);
      rsi := 100.0 - 100.0 / (1.0 + rs);
    }
    return Some(rsi);
  }

  // ---------------------------------------------------------------------------
  // computeVolumeZScore
  // ---------------------------------------------------------------------------

  /** The volumes of the bars that carry one, in bar order. */
  function Volumes(bars: seq<Bar>): (v: seq<real>)
    ensures |v| <= |bars|
  {
    Somes(seq(|bars|, i requires 0 <= i < |bars| => bars[i].volume))
  }

  /** `computeVolumeZScore`: how far the latest volume is from the mean of the
      last (up to) 20 volumes, in sample standard deviations. Null below two
      volumes; 0 when those volumes are all equal; and otherwise of the sign
      of the latest volume minus that mean. */
  function VolumeZScore(bars: seq<Bar>, sqrt: real -> real): (r: Option<real>)
    ensures r.Some? <==> |Volumes(bars)| >= 2
    ensures r.Some? && SqrtSound(sqrt) ==>
      var w := TakeLast(Volumes(bars), 20);
      (r.value > 0.0 ==> w[|w| - 1] > Mean(w)) && (r.value < 0.0 ==> w[|w| - 1] < Mean(w))
  {
    var withVolume := Volumes(bars);
    if |withVolume| == 0 then None
    else
      var latest := withVolume[|withVolume| - 1];
      var window := TakeLast(withVolume, 20);
      if |window| < 2 then None
      else
        assert window[|window| - 1] == latest;
        var mean := Mean(window);
        var stdDev := sqrt(SampleVariance(window));
        if stdDev == 0.0 then Some(0.0)
        else
          assert SqrtSound(sqrt) ==> stdDev > 0.0;
          Some((latest - mean) / stdDev)
  }

  lemma VolumeZScoreOfConstant(bars: seq<Bar>, sqrt: real -> real, c: real)
    requires SqrtSound(sqrt)
    requires |Volumes(bars)| >= 2
    requires forall i :: 0 <= i < |TakeLast(Volumes(bars), 20)| ==> TakeLast(Volumes(bars), 20)[i] == c
    ensures VolumeZScore(bars, sqrt) == Some(0.0)
  {
    var w := TakeLast(Volumes(bars), 20);
    ConstantVarianceIsZero(w, c);
  }

  // ---------------------------------------------------------------------------
  // computeMetrics
  // ---------------------------------------------------------------------------

  function DateKey(b: Bar): real { b.date as real }

  function SortedByDate(bars: seq<Bar>): (r: seq<Bar>)
    ensures |r| == |bars|
    ensures multiset(r) == multiset(bars)
    ensures SortedBy(r, DateKey)
  {
    SortBy(bars, DateKey)
  }

  function Closes(bars: seq<Bar>): (c: seq<real>)
    ensures |c| == |bars|
    ensures PositiveCloses(bars) ==> Positive(c)
  {
    seq(|bars|, i requires 0 <= i < |bars| => bars[i].close)
  }

  lemma SortedClosesPositive(bars: seq<Bar>)
    requires PositiveCloses(bars)
    ensures PositiveCloses(SortedByDate(bars))
  {
    var s := SortedByDate(bars);
    forall i | 0 <= i < |s| ensures s[i].close > 0.0 {
      assert s[i] in multiset(bars);
    }
  }

  /** The number of bars that carry a volume. */
  function VolumeCount(bars: seq<Bar>): nat
    decreases |bars|
  {
    if bars == [] then 0
    else VolumeCount(bars[..|bars| - 1]) + (if bars[|bars| - 1].volume.Some? then 1 else 0)
  }

  lemma {:induction false} VolumesCount(bars: seq<Bar>)
    ensures |Volumes(bars)| == VolumeCount(bars)
    decreases |bars|
  {
    if bars != [] {
      var n := |bars| - 1;
      var v := seq(|bars|, i requires 0 <= i < |bars| => bars[i].volume);
      assert v[..n] == seq(n, i requires 0 <= i < n => bars[..n][i].volume);
      VolumesCount(bars[..n]);
    }
  }

  lemma {:induction false} VolumeCountAppend(a: seq<Bar>, b: seq<Bar>)
    ensures VolumeCount(a + b) == VolumeCount(a) + VolumeCount(b)
    decreases |b|
  {
    if b != [] {
      var n := |b| - 1;
      assert (a + b)[..|a + b| - 1] == a + b[..n];
      VolumeCountAppend(a, b[..n]);
    } else {
      assert a + b == a;
    }
  }

  /** Removing bar `j` removes its volume, if it has one. */
  lemma VolumeCountRemove(b: seq<Bar>, j: nat)
    requires j < |b|
    ensures VolumeCount(b) == VolumeCount(b[..j] + b[j + 1..]) + (if b[j].volume.Some? then 1 else 0)
  {
    var x := b[j];
    PieceAround(b, j);
    VolumeCountAppend(b[..j], [x]);
    VolumeCountAppend(b[..j] + [x], b[j + 1..]);
    VolumeCountAppend(b[..j], b[j + 1..]);
    assert [x][..0] == [];
  }

  /** Reordering the bars keeps the number of volumes. */
  lemma {:induction false} VolumeCountPermutation(a: seq<Bar>, b: seq<Bar>)
    requires multiset(a) == multiset(b)
    ensures VolumeCount(a) == VolumeCount(b)
    decreases |a|
  {
    if a == [] {
      assert |b| == |multiset(b)| == 0;
    } else {
      var n := |a| - 1;
      var x := a[n];
      MultisetRemoveAt(a, n);
      assert a[..n] + a[n + 1..] == a[..n];
      assert x in multiset(b);
      var j :| 0 <= j < |b| && b[j] == x;
      var rest := b[..j] + b[j + 1..];
      MultisetRemoveAt(b, j);
      VolumeCountPermutation(a[..n], rest);
      VolumeCountRemove(b, j);
    }
  }

  /** `computeMetrics`: the eleven fields computed from the bars sorted by
      date, each rounded to 2 decimals (RSI to 0). Each field is null exactly
      below its own data threshold, and the bounded fields stay in range. */
  function MetricsOf(bars: seq<Bar>, math: MathOps): (m: BasicMetrics)
    requires PositiveCloses(bars)
    ensures |bars| == 0 ==> m == AllNull
    ensures m.price.Some? <==> |bars| >= 1
    ensures m.return1D.Some? <==> |bars| > 1
    ensures m.return5D.Some? <==> |bars| > 5
    ensures m.return1M.Some? <==> |bars| > 21
    ensures m.return3M.Some? <==> |bars| > 63
    ensures m.volAnn.Some? <==> |bars| >= 3
    ensures m.maxDrawdown.Some? <==> |bars| >= 2
    ensures m.sma20.Some? <==> |bars| >= 20
    ensures m.sma50.Some? <==> |bars| >= 50
    ensures m.rsi14.Some? <==> |bars| >= 15
    ensures m.volumeZScore.Some? <==> |Volumes(bars)| >= 2
  {
    if |bars| == 0 then AllNull
    else
      var sorted := SortedByDate(bars);
      SortedClosesPositive(bars);
      VolumesCount(bars);
      VolumesCount(sorted);
      VolumeCountPermutation(sorted, bars);
      var closes := Closes(sorted);
      BasicMetrics(
        RoundOpt(Some(closes[|closes| - 1]), 2),
        RoundOpt(ComputeReturn(1, closes), 2),
        RoundOpt(ComputeReturn(5, closes), 2),
        RoundOpt(ComputeReturn(21, closes), 2),
        RoundOpt(ComputeReturn(63, closes), 2),
        RoundOpt(VolAnnOf(closes, math), 2),
        RoundOpt(MaxDrawdownOf(closes), 2),
        RoundOpt(ComputeSma(20, closes), 2),
        RoundOpt(ComputeSma(50, closes), 2),
        RoundOpt(RsiOf(closes), 0),
        RoundOpt(VolumeZScore(sorted, math.sqrt), 2))
  }

  /** The bounded fields stay in range after rounding: the price and the
      volatility are not negative, the drawdown lies in [-100, 0] and the RSI
      in [0, 100]. */
  lemma MetricsInRange(bars: seq<Bar>, math: MathOps)
    requires PositiveCloses(bars)
    ensures var m := MetricsOf(bars, math);
      && (m.price.Some? ==> m.price.value >= 0.0)
      && (m.maxDrawdown.Some? ==> -100.0 <= m.maxDrawdown.value <= 0.0)
      && (m.rsi14.Some? ==> 0.0 <= m.rsi14.value <= 100.0)
      && (m.volAnn.Some? && SqrtSound(math.sqrt) ==> m.volAnn.value >= 0.0)
  {
    if |bars| > 0 {
      SortedClosesPositive(bars);
      var closes := Closes(SortedByDate(bars));
      var dd := MaxDrawdownOf(closes);
      var rsi := RsiOf(closes);
      if dd.Some? { RoundWithinCents(dd.value, -100, 0); }
      if rsi.Some? { RoundWithinWhole(rsi.value, 0, 100); }
    }
  }

  /** The metrics depend only on the bars in date order: any reordering of a
      list whose dates are distinct gives the same record. */
  lemma MetricsPermutationInvariant(a: seq<Bar>, b: seq<Bar>, math: MathOps)
    requires PositiveCloses(a) && PositiveCloses(b)
    requires multiset(a) == multiset(b)
    requires DistinctKeys(a, DateKey)
    ensures MetricsOf(a, math) == MetricsOf(b, math)
  {
    SortByPermutationInvariant(a, b, DateKey);
    assert |a| == |multiset(a)| == |multiset(b)| == |b|;
  }

  /** `computeMetrics` itself: sort, take the closes, run the loops. */
  method ComputeMetrics(bars: seq<Bar>, math: MathOps) returns (m: BasicMetrics)
    requires PositiveCloses(bars)
    ensures m == MetricsOf(bars, math)
  {
    if |bars| == 0 {
      return AllNull;
    }
    var sorted := SortedByDate(bars);
    SortedClosesPositive(bars);
    var closes := Closes(sorted);
    var latestClose := closes[|closes| - 1];
    var logReturns := LogReturns(closes, math.ln);
    var volAnn := VolAnnFromReturns(logReturns, math);
    var maxDrawdown := ComputeMaxDrawdown(closes);
    var rsi14 := ComputeRsi(closes);
    m := BasicMetrics(
      RoundOpt(Some(latestClose), 2),
      RoundOpt(ComputeReturn(1, closes), 2),
      RoundOpt(ComputeReturn(5, closes), 2),
      RoundOpt(ComputeReturn(21, closes), 2),
      RoundOpt(ComputeReturn(63, closes), 2),
      RoundOpt(volAnn, 2),
      RoundOpt(maxDrawdown, 2),
      RoundOpt(ComputeSma(20, closes), 2),
      RoundOpt(ComputeSma(50, closes), 2),
      RoundOpt(rsi14, 0),
      RoundOpt(VolumeZScore(sorted, math.sqrt), 2));
  }

  // ---------------------------------------------------------------------------
  // buildSignals
  // ---------------------------------------------------------------------------

  const RSI_OVERBOUGHT := "RSI_OVERBOUGHT"
  const RSI_OVERSOLD := "RSI_OVERSOLD"
  const MOMENTUM_POS := "MOMENTUM_POS"
  const MOMENTUM_NEG := "MOMENTUM_NEG"

  /** Every code `buildSignals` can emit. */
  predicate IsSignalCode(s: string)
  {
    s == RSI_OVERBOUGHT || s == RSI_OVERSOLD || s == MOMENTUM_POS || s == MOMENTUM_NEG
  }

  /** The codes for a metrics record: at most one RSI code, then at most one
      momentum code. */
  function Signals(m: BasicMetrics): (r: seq<string>)
    ensures |r| <= 2
    ensures NoDuplicates(r)
    ensures forall k :: 0 <= k < |r| ==> IsSignalCode(r[k])
    ensures RSI_OVERBOUGHT in r <==> m.rsi14.Some? && m.rsi14.value >= 70.0
    ensures RSI_OVERSOLD in r <==> m.rsi14.Some? && m.rsi14.value <= 30.0
    ensures MOMENTUM_POS in r <==> m.return1M.Some? && m.return1M.value >= 5.0
    ensures MOMENTUM_NEG in r <==> m.return1M.Some? && m.return1M.value <= -5.0
    ensures (RSI_OVERBOUGHT in r || RSI_OVERSOLD in r) ==> r[0] == RSI_OVERBOUGHT || r[0] == RSI_OVERSOLD
  {
    var rsi :=
      if m.rsi14.None? then []
      else if m.rsi14.value >= 70.0 then [RSI_OVERBOUGHT]
      else if m.rsi14.value <= 30.0 then [RSI_OVERSOLD]
      else [];
    var momentum :=
      if m.return1M.None? then []
      else if m.return1M.value >= 5.0 then [MOMENTUM_POS]
      else if m.return1M.value <= -5.0 then [MOMENTUM_NEG]
      else [];
    rsi + momentum
  }

  /** `buildSignals`: conditional pushes onto an initially empty list. */
  method BuildSignals(m: BasicMetrics) returns (signals: seq<string>)
    ensures signals == Signals(m)
  {
    signals := [];
    if m.rsi14.Some? {
      if m.rsi14.value >= 70.0 {
        signals := signals + [RSI_OVERBOUGHT];
      } else if m.rsi14.value <= 30.0 {
        signals := signals + [RSI_OVERSOLD];
      }
    }
    if m.return1M.Some? {
      if m.return1M.value >= 5.0 {
        signals := signals + [MOMENTUM_POS];
      } else if m.return1M.value <= -5.0 {
        signals := signals + [MOMENTUM_NEG];
      }
    }
  }
}
