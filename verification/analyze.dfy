/** The analyze route's helpers: the per-symbol pipeline (metrics, then
    signals, then insights) and the group aggregator that turns the metrics of
    every analysed symbol into a 0-100 score, averages, a momentum breadth, the
    top and bottom performer and a one-sentence summary. */
module Analyze {
  import opened Common
  import opened Metrics
  import opened Insights

  /** One analysed symbol as the aggregator sees it. */
  datatype SymbolMetrics = SymbolMetrics(symbol: string, metrics: BasicMetrics)

  datatype GroupInsights = GroupInsights(
    score: real,
    avgReturn1M: real,
    avgVolAnn: real,
    dispersionReturn1M: real,
    momentumBreadth: real,
    topPerformer: Option<string>,
    bottomPerformer: Option<string>,
    summary: string)

  // ---------------------------------------------------------------------------
  // clamp and stddev
  // ---------------------------------------------------------------------------

  /** `Math.min(max, Math.max(min, value))`. */
  function Clamp(v: real, lo: real, hi: real): (r: real)
    ensures lo <= hi ==> lo <= r <= hi
    ensures lo <= v <= hi ==> r == v
    ensures v < lo && lo <= hi ==> r == lo
    ensures hi < v ==> r == hi
  {
    var m := if lo > v then lo else v;
    if hi < m then hi else m
  }

  lemma ClampMonotone(v: real, w: real, lo: real, hi: real)
    requires v <= w
    ensures Clamp(v, lo, hi) <= Clamp(w, lo, hi)
  {}

  /** Sample standard deviation; zero below two values. */
  function StdDev(values: seq<real>, sqrt: real -> real): (r: real)
    ensures |values| < 2 ==> r == 0.0
    ensures SqrtSound(sqrt) ==> r >= 0.0
  {
    if |values| < 2 then 0.0 else sqrt(SampleVariance(values))
  }

  lemma StdDevOfConstant(values: seq<real>, c: real, sqrt: real -> real)
    requires SqrtSound(sqrt)
    requires forall i :: 0 <= i < |values| ==> values[i] == c
    ensures StdDev(values, sqrt) == 0.0
  {
    if |values| >= 2 {
      ConstantVarianceIsZero(values, c);
    }
  }

  // ---------------------------------------------------------------------------
  // The usable values of the group
  // ---------------------------------------------------------------------------

  /** The present values of one metric across the group, in row order (a map
      followed by a filter on null). */
  function Present(rows: seq<SymbolMetrics>, field: BasicMetrics -> Option<real>): (r: seq<real>)
    ensures |r| <= |rows|
    decreases |rows|
  {
    if rows == [] then []
    else
      var v := field(rows[|rows| - 1].metrics);
      Present(rows[..|rows| - 1], field) + (if v.Some? then [v.value] else [])
  }

  function Return1M(m: BasicMetrics): Option<real> { m.return1M }
  function VolAnn(m: BasicMetrics): Option<real> { m.volAnn }
  function Rsi14(m: BasicMetrics): Option<real> { m.rsi14 }

  /** The mean, or zero for no values. */
  function AverageOrZero(values: seq<real>): (r: real)
    ensures |values| == 0 ==> r == 0.0
    ensures |values| > 0 ==> SeqMin(values) <= r <= SeqMax(values)
  {
    if |values| == 0 then 0.0
    else
      MeanBounds(values, SeqMin(values), SeqMax(values));
      Mean(values)
  }

  /** How many values lie strictly above `t`. */
  function CountAbove(values: seq<real>, t: real): (c: nat)
    ensures c <= |values|
    decreases |values|
  {
    if values == [] then 0
    else CountAbove(values[..|values| - 1], t) + (if values[|values| - 1] > t then 1 else 0)
  }

  lemma {:induction false} CountAboveAll(values: seq<real>, t: real)
    ensures CountAbove(values, t) == 0 <==> forall i :: 0 <= i < |values| ==> values[i] <= t
    ensures CountAbove(values, t) == |values| <==> forall i :: 0 <= i < |values| ==> values[i] > t
    decreases |values|
  {
    if values != [] {
      var n := |values| - 1;
      CountAboveAll(values[..n], t);
      assert forall i :: 0 <= i < n ==> values[..n][i] == values[i];
    }
  }

  /** The share of RSI values above 50, in percent; zero without RSI values. */
  function Breadth(rsi: seq<real>): (b: real)
    ensures 0.0 <= b <= 100.0
    ensures |rsi| == 0 ==> b == 0.0
    ensures |rsi| > 0 ==> b * (|rsi| as real) == 100.0 * (CountAbove(rsi, 50.0) as real)
  {
    if |rsi| == 0 then 0.0
    else
      var c := CountAbove(rsi, 50.0) as real;
      var n := |rsi| as real;
      DivMulId(c, n);
      DivLe(c, n, n);
      DivLe(0.0, c, n);
      assert n / n == 1.0;
      (c / n) * 100.0
  }

  // ---------------------------------------------------------------------------
  // Top and bottom performer
  // ---------------------------------------------------------------------------

  /** The rows that carry a one-month return, in row order. */
  function WithReturn(rows: seq<SymbolMetrics>): (r: seq<SymbolMetrics>)
    ensures |r| <= |rows|
    ensures forall row :: row in r <==> row in rows && row.metrics.return1M.Some?
    decreases |rows|
  {
    if rows == [] then []
    else
      var last := rows[|rows| - 1];
      assert rows == rows[..|rows| - 1] + [last];
      WithReturn(rows[..|rows| - 1]) + (if last.metrics.return1M.Some? then [last] else [])
  }

  lemma {:induction false} WithReturnCount(rows: seq<SymbolMetrics>)
    ensures |WithReturn(rows)| == |Present(rows, Return1M)|
    ensures |WithReturn(rows)| > 0 <==> exists i :: 0 <= i < |rows| && rows[i].metrics.return1M.Some?
    decreases |rows|
  {
    if rows != [] {
      var n := |rows| - 1;
      WithReturnCount(rows[..n]);
      assert forall i :: 0 <= i < n ==> rows[..n][i] == rows[i];
    }
  }

  /** The sort key of the descending sort by one-month return (`?? 0`). */
  function ReturnKey(row: SymbolMetrics): real
  {
    if row.metrics.return1M.Some? then -row.metrics.return1M.value else 0.0
  }

  function ReturnOf(row: SymbolMetrics): real
  {
    if row.metrics.return1M.Some? then row.metrics.return1M.value else 0.0
  }

  /** `w[i]` has the highest return and is the first row with it. */
  predicate IsTop(w: seq<SymbolMetrics>, i: int)
  {
    && 0 <= i < |w|
    && (forall j :: 0 <= j < |w| ==> ReturnOf(w[j]) <= ReturnOf(w[i]))
    && (forall j :: 0 <= j < i ==> ReturnOf(w[j]) < ReturnOf(w[i]))
  }

  /** `w[i]` has the lowest return and is the last row with it. */
  predicate IsBottom(w: seq<SymbolMetrics>, i: int)
  {
    && 0 <= i < |w|
    && (forall j :: 0 <= j < |w| ==> ReturnOf(w[i]) <= ReturnOf(w[j]))
    && (forall j :: i < j < |w| ==> ReturnOf(w[i]) < ReturnOf(w[j]))
  }

  /** The rows with a return, sorted by it from best to worst, ties in row order. */
  function SortedByReturn(rows: seq<SymbolMetrics>): (r: seq<SymbolMetrics>)
    ensures |r| == |WithReturn(rows)|
  {
    SortBy(WithReturn(rows), ReturnKey)
  }

  /** The symbol of the first sorted row, if any row has a return. */
  function TopPerformer(rows: seq<SymbolMetrics>): Option<string>
  {
    var sorted := SortedByReturn(rows);
    if |Present(rows, Return1M)| > 0 && |sorted| > 0 then Some(sorted[0].symbol) else None
  }

  /** The symbol of the last sorted row, if any row has a return. */
  function BottomPerformer(rows: seq<SymbolMetrics>): Option<string>
  {
    var sorted := SortedByReturn(rows);
    if |Present(rows, Return1M)| > 0 && |sorted| > 0 then Some(sorted[|sorted| - 1].symbol) else None
  }

  lemma PerformersPresent(rows: seq<SymbolMetrics>)
    ensures TopPerformer(rows).Some? <==> exists i :: 0 <= i < |rows| && rows[i].metrics.return1M.Some?
    ensures BottomPerformer(rows).Some? <==> exists i :: 0 <= i < |rows| && rows[i].metrics.return1M.Some?
  {
    WithReturnCount(rows);
  }

  /** The top performer is the first row (in row order) with the highest
      one-month return. */
  lemma TopPerformerIsBest(rows: seq<SymbolMetrics>)
    requires TopPerformer(rows).Some?
    ensures exists i :: IsTop(WithReturn(rows), i) && TopPerformer(rows) == Some(WithReturn(rows)[i].symbol)
  {
    var w := WithReturn(rows);
    SortByHead(w, ReturnKey);
    var i :| IsFirstMin(w, ReturnKey, i) && SortBy(w, ReturnKey)[0] == w[i];
    assert forall k :: 0 <= k < |w| ==> w[k] in w;
    assert IsTop(w, i);
  }

  /** The bottom performer is the last row (in row order) with the lowest
      one-month return. */
  lemma BottomPerformerIsWorst(rows: seq<SymbolMetrics>)
    requires BottomPerformer(rows).Some?
    ensures exists i :: IsBottom(WithReturn(rows), i) && BottomPerformer(rows) == Some(WithReturn(rows)[i].symbol)
  {
    var w := WithReturn(rows);
    SortByLast(w, ReturnKey);
    var i :| IsLastMax(w, ReturnKey, i) && SortBy(w, ReturnKey)[|w| - 1] == w[i];
    assert forall k :: 0 <= k < |w| ==> w[k] in w;
    assert IsBottom(w, i);
  }

  // ---------------------------------------------------------------------------
  // Group score
  // ---------------------------------------------------------------------------

  /** 50, plus up to 30 for the return and 20 for the breadth, minus up to 20
      for the volatility and 15 for the dispersion. */
  function RawScore(avgReturn: real, breadth: real, avgVol: real, dispersion: real): real
  {
    50.0 + Clamp(avgReturn, -10.0, 10.0) * 3.0 + (breadth / 100.0) * 20.0
      - (Clamp(avgVol, 0.0, 80.0) / 80.0) * 20.0
      - (Clamp(dispersion, 0.0, 20.0) / 20.0) * 15.0
  }

  /** The raw score rounded to cents and clamped to [0, 100]. */
  function Score(avgReturn: real, breadth: real, avgVol: real, dispersion: real): (s: real)
    ensures 0.0 <= s <= 100.0
  {
    Clamp(Round(RawScore(avgReturn, breadth, avgVol, dispersion), 2), 0.0, 100.0)
  }

  lemma RawScoreMonotone(r1: real, r2: real, b1: real, b2: real, v1: real, v2: real, d1: real, d2: real)
    requires r1 <= r2 && b1 <= b2 && v2 <= v1 && d2 <= d1
    ensures RawScore(r1, b1, v1, d1) <= RawScore(r2, b2, v2, d2)
  {
    ClampMonotone(r1, r2, -10.0, 10.0);
    ClampMonotone(v2, v1, 0.0, 80.0);
    ClampMonotone(d2, d1, 0.0, 20.0);
  }

  /** The score never falls when the return or the breadth rises, nor when the
      volatility or the dispersion falls. */
  lemma ScoreMonotone(r1: real, r2: real, b1: real, b2: real, v1: real, v2: real, d1: real, d2: real)
    requires r1 <= r2 && b1 <= b2 && v2 <= v1 && d2 <= d1
    ensures Score(r1, b1, v1, d1) <= Score(r2, b2, v2, d2)
  {
    RawScoreMonotone(r1, r2, b1, b2, v1, v2, d1, d2);
    RoundMonotone(RawScore(r1, b1, v1, d1), RawScore(r2, b2, v2, d2), 2);
    ClampMonotone(Round(RawScore(r1, b1, v1, d1), 2), Round(RawScore(r2, b2, v2, d2), 2), 0.0, 100.0);
  }

  /** A group with no usable values scores the neutral 50. */
  lemma NeutralScore()
    ensures Score(0.0, 0.0, 0.0, 0.0) == 50.0
  {
    assert RawScore(0.0, 0.0, 0.0, 0.0) == 50.0;
    assert 50.0 * Pow10(2) == 5000 as real;
    RoundFixes(50.0, 2, 5000);
  }

  // ---------------------------------------------------------------------------
  // Group summary
  // ---------------------------------------------------------------------------

  function ReturnPhrase(avgReturn: real): string
  {
    if avgReturn > 5.0 then "Strong average returns"
    else if avgReturn > 0.0 then "Modest positive returns"
    else "Weak or negative returns"
  }

  function BreadthPhrase(breadth: real): string
  {
    if breadth >= 60.0 then "broad momentum"
    else if breadth >= 30.0 then "mixed momentum"
    else "narrow momentum"
  }

  function VolatilityPhrase(avgVol: real): string
  {
    if avgVol > 40.0 then "with elevated volatility"
    else if avgVol > 20.0 then "with moderate volatility"
    else "with low volatility"
  }

  function DispersionPhrase(dispersion: real): string
  {
    if dispersion > 10.0 then "and high dispersion"
    else if dispersion > 5.0 then "and some dispersion"
    else "and tight dispersion"
  }

  /** `phrases.join(", ") + "."` over the four phrases, in this order. */
  function GroupSummary(g: GroupInsights): string
  {
    Join([ReturnPhrase(g.avgReturn1M), BreadthPhrase(g.momentumBreadth),
          VolatilityPhrase(g.avgVolAnn), DispersionPhrase(g.dispersionReturn1M)], ", ") + "."
  }

  lemma Pushes(a: string, b: string, c: string, d: string)
    ensures [a] + [b] + [c] + [d] == [a, b, c, d]
  {}

  /** `buildSummary`: pushes one phrase per aspect, then joins them. */
  method BuildGroupSummary(g: GroupInsights) returns (s: string)
    ensures s == GroupSummary(g)
  {
    var phrases: seq<string> := [];
    if g.avgReturn1M > 5.0 {
      phrases := phrases + ["Strong average returns"];
    } else if g.avgReturn1M > 0.0 {
      phrases := phrases + ["Modest positive returns"];
    } else {
      phrases := phrases + ["Weak or negative returns"];
    }
    assert phrases == [ReturnPhrase(g.avgReturn1M)];
    ghost var before := phrases;
    if g.momentumBreadth >= 60.0 {
      phrases := phrases + ["broad momentum"];
    } else if g.momentumBreadth >= 30.0 {
      phrases := phrases + ["mixed momentum"];
    } else {
      phrases := phrases + ["narrow momentum"];
    }
    assert phrases == before + [BreadthPhrase(g.momentumBreadth)];
    before := phrases;
    if g.avgVolAnn > 40.0 {
      phrases := phrases + ["with elevated volatility"];
    } else if g.avgVolAnn > 20.0 {
      phrases := phrases + ["with moderate volatility"];
    } else {
      phrases := phrases + ["with low volatility"];
    }
    assert phrases == before + [VolatilityPhrase(g.avgVolAnn)];
    before := phrases;
    if g.dispersionReturn1M > 10.0 {
      phrases := phrases + ["and high dispersion"];
    } else if g.dispersionReturn1M > 5.0 {
      phrases := phrases + ["and some dispersion"];
    } else {
      phrases := phrases + ["and tight dispersion"];
    }
    assert phrases == before + [DispersionPhrase(g.dispersionReturn1M)];
    Pushes(ReturnPhrase(g.avgReturn1M), BreadthPhrase(g.momentumBreadth),
           VolatilityPhrase(g.avgVolAnn), DispersionPhrase(g.dispersionReturn1M));
    assert phrases == [ReturnPhrase(g.avgReturn1M), BreadthPhrase(g.momentumBreadth),
                       VolatilityPhrase(g.avgVolAnn), DispersionPhrase(g.dispersionReturn1M)];
    s := Join(phrases, ", ") + ".";
  }

  // ---------------------------------------------------------------------------
  // computeGroupInsights
  // ---------------------------------------------------------------------------

  /** Everything but the summary, rounded as reported. */
  function GroupFigures(rows: seq<SymbolMetrics>, sqrt: real -> real): (g: GroupInsights)
    ensures 0.0 <= g.score <= 100.0
    ensures 0.0 <= g.momentumBreadth <= 100.0
    ensures SqrtSound(sqrt) ==> g.dispersionReturn1M >= 0.0
    ensures g.topPerformer.Some? <==> g.bottomPerformer.Some?
    ensures |Present(rows, Return1M)| == 0 && |Present(rows, VolAnn)| == 0 && |Present(rows, Rsi14)| == 0 ==>
      && g.score == 50.0 && g.avgReturn1M == 0.0 && g.avgVolAnn == 0.0
      && g.dispersionReturn1M == 0.0 && g.momentumBreadth == 0.0
      && g.topPerformer == None && g.bottomPerformer == None
  {
    RoundWithinCents(Breadth(Present(rows, Rsi14)), 0, 100);
    RoundSign(if |Present(rows, Return1M)| > 0 then StdDev(Present(rows, Return1M), sqrt) else 0.0, 2);
    assert 0.0 * Pow10(2) == 0 as real;
    RoundFixes(0.0, 2, 0);
    NeutralScore();
    var returnValues := Present(rows, Return1M);
    var vols := Present(rows, VolAnn);
    var rsi := Present(rows, Rsi14);
    var avgReturn := AverageOrZero(returnValues);
    var avgVol := AverageOrZero(vols);
    var dispersion := if |returnValues| > 0 then StdDev(returnValues, sqrt) else 0.0;
    var breadth := Breadth(rsi);
    GroupInsights(
      Score(avgReturn, breadth, avgVol, dispersion),
      Round(avgReturn, 2), Round(avgVol, 2), Round(dispersion, 2), Round(breadth, 2),
      TopPerformer(rows), BottomPerformer(rows), "")
  }

  /** The group insights: figures first, then the summary written from the
      rounded figures. */
  function GroupInsightsOf(rows: seq<SymbolMetrics>, sqrt: real -> real): (g: GroupInsights)
    ensures 0.0 <= g.score <= 100.0
    ensures 0.0 <= g.momentumBreadth <= 100.0
    ensures SqrtSound(sqrt) ==> g.dispersionReturn1M >= 0.0
    ensures g.topPerformer.Some? <==> g.bottomPerformer.Some?
    ensures g.summary == GroupSummary(g.(summary := ""))
    ensures |Present(rows, Return1M)| == 0 && |Present(rows, VolAnn)| == 0 && |Present(rows, Rsi14)| == 0 ==>
      && g.score == 50.0 && g.avgReturn1M == 0.0 && g.avgVolAnn == 0.0
      && g.dispersionReturn1M == 0.0 && g.momentumBreadth == 0.0
      && g.topPerformer == None && g.bottomPerformer == None
  {
    var f := GroupFigures(rows, sqrt);
    f.(summary := GroupSummary(f))
  }

  /** `computeGroupInsights`: the performers start null and are set only when
      some return is usable; the summary is filled in after construction. */
  method ComputeGroupInsights(rows: seq<SymbolMetrics>, sqrt: real -> real) returns (g: GroupInsights)
    ensures g == GroupInsightsOf(rows, sqrt)
  {
    var returnValues := Present(rows, Return1M);
    var vols := Present(rows, VolAnn);
    var rsi := Present(rows, Rsi14);
    var avgReturn := AverageOrZero(returnValues);
    var avgVol := AverageOrZero(vols);
    var dispersion := if |returnValues| > 0 then StdDev(returnValues, sqrt) else 0.0;
    var breadth := Breadth(rsi);
    var top: Option<string> := None;
    var bottom: Option<string> := None;
    if |returnValues| > 0 {
      var sorted := SortedByReturn(rows);
      if |sorted| > 0 {
        top := Some(sorted[0].symbol);
        bottom := Some(sorted[|sorted| - 1].symbol);
      }
    }
    var score := Score(avgReturn, breadth, avgVol, dispersion);
    g := GroupInsights(score, Round(avgReturn, 2), Round(avgVol, 2), Round(dispersion, 2),
                       Round(breadth, 2), top, bottom, "");
    var summary := BuildGroupSummary(g);
    g := g.(summary := summary);
  }

  // ---------------------------------------------------------------------------
  // The analyze pipeline
  // ---------------------------------------------------------------------------

  /** One symbol of an analyze run: metrics, then signals, then insights. The
      signals never carry the code the classifier expects for a negative month,
      so that anomaly never appears. */
  method AnalyzeSymbol(bars: seq<Bar>, math: MathOps) returns (m: BasicMetrics, signals: seq<string>, insights: SymbolInsights)
    requires PositiveCloses(bars)
    ensures m == MetricsOf(bars, math)
    ensures signals == Signals(m)
    ensures insights == ComputeSymbolInsights(m, signals)
    ensures MomentumNegLastMonth !in insights.anomalies
  {
    m := ComputeMetrics(bars, math);
    signals := BuildSignals(m);
    insights := ComputeSymbolInsights(m, signals);
    NoMomentumAnomalyFromBuiltSignals(m);
  }

  method AnalyzeRow(symbol: string, bars: seq<Bar>, math: MathOps) returns (row: SymbolMetrics)
    requires PositiveCloses(bars)
    ensures row == SymbolMetrics(symbol, MetricsOf(bars, math))
  {
    var m, signals, insights := AnalyzeSymbol(bars, math);
    row := SymbolMetrics(symbol, m);
  }

  predicate AllPositive(bars: seq<seq<Bar>>)
  {
    forall k :: 0 <= k < |bars| ==> PositiveCloses(bars[k])
  }

  /** The rows of the first `n` symbols: symbol `k` with the metrics of its bars. */
  function RowsOf(symbols: seq<string>, bars: seq<seq<Bar>>, math: MathOps, n: nat): (r: seq<SymbolMetrics>)
    requires n <= |symbols| == |bars| && AllPositive(bars)
  {
    seq(n, k requires 0 <= k < n => SymbolMetrics(symbols[k], MetricsOf(bars[k], math)))
  }

  /** One step of the per-symbol loop: analyse symbol `i` and append its row. */
  method AppendRow(rows: seq<SymbolMetrics>, symbols: seq<string>, bars: seq<seq<Bar>>, math: MathOps, i: nat)
    returns (next: seq<SymbolMetrics>)
    requires i < |symbols| == |bars| && AllPositive(bars)
    requires rows == RowsOf(symbols, bars, math, i)
    ensures next == RowsOf(symbols, bars, math, i + 1)
  {
    var row := AnalyzeRow(symbols[i], bars[i], math);
    next := rows + [row];
  }

  /** The per-symbol loop of a run: every symbol analysed in order. */
  method AnalyzeRows(symbols: seq<string>, bars: seq<seq<Bar>>, math: MathOps) returns (rows: seq<SymbolMetrics>)
    requires |bars| == |symbols| && AllPositive(bars)
    ensures rows == RowsOf(symbols, bars, math, |symbols|)
  {
    rows := [];
    var i := 0;
    while i < |symbols|
      invariant 0 <= i <= |symbols|
      invariant rows == RowsOf(symbols, bars, math, i)
    {
      rows := AppendRow(rows, symbols, bars, math, i);
      i := i + 1;
    }
  }

  /** A whole run: every symbol analysed in order, then the group insights over
      all of them. */
  method AnalyzeGroup(symbols: seq<string>, bars: seq<seq<Bar>>, math: MathOps)
    returns (rows: seq<SymbolMetrics>, group: GroupInsights)
    requires |bars| == |symbols|
    requires forall k :: 0 <= k < |bars| ==> PositiveCloses(bars[k])
    ensures |rows| == |symbols|
    ensures forall k :: 0 <= k < |rows| ==> rows[k] == SymbolMetrics(symbols[k], MetricsOf(bars[k], math))
    ensures group == GroupInsightsOf(rows, math.sqrt)
  {
    rows := AnalyzeRows(symbols, bars, math);
    group := ComputeGroupInsights(rows, math.sqrt);
  }
}
