/** The per-symbol insight classifier: a decision table from a metrics record
    (and the signal codes) to a trend, a momentum and a risk label, an ordered
    list of anomaly codes and a one-sentence summary. */
module Insights {
  import opened Common
  import opened Metrics

  datatype Trend = Bullish | Bearish | Sideways
  datatype Momentum = Strong | Moderate | Weak
  datatype Risk = Low | Medium | High

  datatype SymbolInsights = SymbolInsights(
    trend: Trend,
    momentum: Momentum,
    risk: Risk,
    anomalies: seq<Anomaly>,
    summary: string)

  function TrendName(t: Trend): string
  {
    match t
    case Bullish => "Bullish"
    case Bearish => "Bearish"
    case Sideways => "Sideways"
  }

  function MomentumName(m: Momentum): string
  {
    match m
    case Strong => "Strong"
    case Moderate => "Moderate"
    case Weak => "Weak"
  }

  function RiskName(r: Risk): string
  {
    match r
    case Low => "Low"
    case Medium => "Medium"
    case High => "High"
  }

  /** `hasAll(...values)`: every value is present. */
  function HasAll(values: seq<Option<real>>): (b: bool)
    ensures b <==> forall i :: 0 <= i < |values| ==> values[i].Some?
    decreases |values|
  {
    if values == [] then true
    else values[0].Some? && HasAll(values[1..])
  }

  // ---------------------------------------------------------------------------
  // Trend
  // ---------------------------------------------------------------------------

  /** Price above the 20-day average, which is above the 50-day average. */
  predicate StackedUp(m: BasicMetrics)
  {
    m.price.Some? && m.sma20.Some? && m.sma50.Some?
    && m.price.value > m.sma20.value > m.sma50.value
  }

  /** Price below the 20-day average, which is below the 50-day average. */
  predicate StackedDown(m: BasicMetrics)
  {
    m.price.Some? && m.sma20.Some? && m.sma50.Some?
    && m.price.value < m.sma20.value < m.sma50.value
  }

  /** Price above the 50-day average with a positive 3-month return. */
  predicate LongTermUp(m: BasicMetrics)
  {
    m.price.Some? && m.sma50.Some? && m.return3M.Some?
    && m.price.value > m.sma50.value && m.return3M.value > 0.0
  }

  /** Price below the 50-day average with a negative 3-month return. */
  predicate LongTermDown(m: BasicMetrics)
  {
    m.price.Some? && m.sma50.Some? && m.return3M.Some?
    && m.price.value < m.sma50.value && m.return3M.value < 0.0
  }

  /** The trend: the moving-average stack decides first; the 50-day average
      with the 3-month return is consulted only when the stack says nothing. */
  function ClassifyTrend(m: BasicMetrics): (t: Trend)
    ensures t == Bullish <==> StackedUp(m) || (!StackedDown(m) && LongTermUp(m))
    ensures t == Bearish <==> StackedDown(m) || (!StackedUp(m) && LongTermDown(m))
  {
    var short := [m.price, m.sma20, m.sma50];
    var long := [m.price, m.sma50, m.return3M];
    var first :=
      if HasAll(short) then
        assert short[0].Some? && short[1].Some? && short[2].Some?;
        if m.price.value > m.sma20.value && m.sma20.value > m.sma50.value then Bullish
        else if m.price.value < m.sma20.value && m.sma20.value < m.sma50.value then Bearish
        else Sideways
      else Sideways;
    if first == Sideways && HasAll(long) then
      assert long[0].Some? && long[1].Some? && long[2].Some?;
      if m.price.value > m.sma50.value && m.return3M.value > 0.0 then Bullish
      else if m.price.value < m.sma50.value && m.return3M.value < 0.0 then Bearish
      else Sideways
    else first
  }

  // ---------------------------------------------------------------------------
  // Momentum and risk
  // ---------------------------------------------------------------------------

  /** Strong needs both returns positive and RSI at least 55; Weak needs both
      negative and RSI at most 45; anything else, or a missing value, is
      Moderate. */
  function ClassifyMomentum(m: BasicMetrics): (r: Momentum)
    ensures r == Strong <==>
      m.return1M.Some? && m.return3M.Some? && m.rsi14.Some?
      && m.return1M.value > 0.0 && m.return3M.value > 0.0 && m.rsi14.value >= 55.0
    ensures r == Weak <==>
      m.return1M.Some? && m.return3M.Some? && m.rsi14.Some?
      && m.return1M.value < 0.0 && m.return3M.value < 0.0 && m.rsi14.value <= 45.0
  {
    var values := [m.return1M, m.return3M, m.rsi14];
    if HasAll(values) then
      assert values[0].Some? && values[1].Some? && values[2].Some?;
      if m.return1M.value > 0.0 && m.return3M.value > 0.0 && m.rsi14.value >= 55.0 then Strong
      else if m.return1M.value < 0.0 && m.return3M.value < 0.0 && m.rsi14.value <= 45.0 then Weak
      else Moderate
    else Moderate
  }

  /** High when volatility reaches 45 or the drawdown reaches -35; Low when
      volatility is at most 25 and the drawdown at least -20; Medium otherwise
      or when either value is missing. */
  function ClassifyRisk(m: BasicMetrics): (r: Risk)
    ensures r == High <==>
      m.volAnn.Some? && m.maxDrawdown.Some?
      && (m.volAnn.value >= 45.0 || m.maxDrawdown.value <= -35.0)
    ensures r == Low <==>
      m.volAnn.Some? && m.maxDrawdown.Some?
      && m.volAnn.value <= 25.0 && m.maxDrawdown.value >= -20.0
  {
    var values := [m.volAnn, m.maxDrawdown];
    if HasAll(values) then
      assert values[0].Some? && values[1].Some?;
      if m.volAnn.value >= 45.0 || m.maxDrawdown.value <= -35.0 then High
      else if m.volAnn.value <= 25.0 && m.maxDrawdown.value >= -20.0 then Low
      else Medium
    else Medium
  }

  // ---------------------------------------------------------------------------
  // Anomalies
  // ---------------------------------------------------------------------------

  /** The anomaly codes the classifier can report. */
  datatype Anomaly = VolumeSpike | VolumeDrop | RsiOverbought | RsiOversold | DrawdownElevated | MomentumNegLastMonth

  const MOMENTUM_NEG_LAST_MONTH := "MOMENTUM_NEG_LAST_MONTH"

  /** The code string of each anomaly. */
  function Code(a: Anomaly): string
  {
    match a
    case VolumeSpike => "VOLUME_SPIKE"
    case VolumeDrop => "VOLUME_DROP"
    case RsiOverbought => RSI_OVERBOUGHT
    case RsiOversold => RSI_OVERSOLD
    case DrawdownElevated => "DRAWDOWN_ELEVATED"
    case MomentumNegLastMonth => MOMENTUM_NEG_LAST_MONTH
  }

  /** The fixed place of each anomaly in the list: volume, RSI, drawdown,
      negative momentum. */
  function Rank(a: Anomaly): int
  {
    match a
    case VolumeSpike | VolumeDrop => 0
    case RsiOverbought | RsiOversold => 1
    case DrawdownElevated => 2
    case MomentumNegLastMonth => 3
  }

  /** The volume code: a spike at a z-score of 2 or more, a drop at -2 or less. */
  function VolumeAnomaly(z: Option<real>): (v: seq<Anomaly>)
    ensures |v| <= 1 && forall k :: 0 <= k < |v| ==> Rank(v[k]) == 0
    ensures VolumeSpike in v <==> z.Some? && z.value >= 2.0
    ensures VolumeDrop in v <==> z.Some? && z.value <= -2.0
    ensures v == [] || v == [VolumeSpike] || v == [VolumeDrop]
  {
    if z.None? then []
    else if z.value >= 2.0 then [VolumeSpike]
    else if z.value <= -2.0 then [VolumeDrop]
    else []
  }

  /** The RSI code: overbought at 70 or more, oversold at 30 or less. */
  function RsiAnomaly(rsi: Option<real>): (r: seq<Anomaly>)
    ensures |r| <= 1 && forall k :: 0 <= k < |r| ==> Rank(r[k]) == 1
    ensures RsiOverbought in r <==> rsi.Some? && rsi.value >= 70.0
    ensures RsiOversold in r <==> rsi.Some? && rsi.value <= 30.0
    ensures r == [] || r == [RsiOverbought] || r == [RsiOversold]
  {
    if rsi.None? then []
    else if rsi.value >= 70.0 then [RsiOverbought]
    else if rsi.value <= 30.0 then [RsiOversold]
    else []
  }

  /** The anomaly list: at most one volume code, at most one RSI code, the
      drawdown flag, and the momentum flag copied from the signals, in that
      order. */
  function Anomalies(m: BasicMetrics, signals: seq<string>): (a: seq<Anomaly>)
    ensures |a| <= 4
    ensures forall i, j :: 0 <= i < j < |a| ==> Rank(a[i]) < Rank(a[j])
  {
    var volume := VolumeAnomaly(m.volumeZScore);
    var rsi := RsiAnomaly(m.rsi14);
    var drawdown := if m.maxDrawdown.Some? && m.maxDrawdown.value <= -35.0 then [DrawdownElevated] else [];
    var momentum := if MOMENTUM_NEG_LAST_MONTH in signals then [MomentumNegLastMonth] else [];
    RankedConcat(volume, rsi, drawdown, momentum);
    volume + rsi + drawdown + momentum
  }

  /** Each code is reported exactly when its condition holds. */
  lemma AnomaliesMembers(m: BasicMetrics, signals: seq<string>)
    ensures var a := Anomalies(m, signals);
      && (VolumeSpike in a <==> m.volumeZScore.Some? && m.volumeZScore.value >= 2.0)
      && (VolumeDrop in a <==> m.volumeZScore.Some? && m.volumeZScore.value <= -2.0)
      && (RsiOverbought in a <==> m.rsi14.Some? && m.rsi14.value >= 70.0)
      && (RsiOversold in a <==> m.rsi14.Some? && m.rsi14.value <= 30.0)
      && (DrawdownElevated in a <==> m.maxDrawdown.Some? && m.maxDrawdown.value <= -35.0)
      && (MomentumNegLastMonth in a <==> MOMENTUM_NEG_LAST_MONTH in signals)
  {
    var volume := VolumeAnomaly(m.volumeZScore);
    var rsi := RsiAnomaly(m.rsi14);
    var drawdown := if m.maxDrawdown.Some? && m.maxDrawdown.value <= -35.0 then [DrawdownElevated] else [];
    var momentum := if MOMENTUM_NEG_LAST_MONTH in signals then [MomentumNegLastMonth] else [];
    InConcat(VolumeSpike, volume, rsi, drawdown, momentum);
    InConcat(VolumeDrop, volume, rsi, drawdown, momentum);
    InConcat(RsiOverbought, volume, rsi, drawdown, momentum);
    InConcat(RsiOversold, volume, rsi, drawdown, momentum);
    InConcat(DrawdownElevated, volume, rsi, drawdown, momentum);
    InConcat(MomentumNegLastMonth, volume, rsi, drawdown, momentum);
  }

  lemma InConcat(x: Anomaly, v: seq<Anomaly>, r: seq<Anomaly>, d: seq<Anomaly>, mo: seq<Anomaly>)
    ensures x in v + r + d + mo <==> x in v || x in r || x in d || x in mo
  {}

  /** Four lists of at most one code each, of ranks 0 to 3, concatenate to a
      rank-ordered list. */
  lemma RankedConcat(v: seq<Anomaly>, r: seq<Anomaly>, d: seq<Anomaly>, mo: seq<Anomaly>)
    requires |v| <= 1 && |r| <= 1 && |d| <= 1 && |mo| <= 1
    requires forall k :: 0 <= k < |v| ==> Rank(v[k]) == 0
    requires forall k :: 0 <= k < |r| ==> Rank(r[k]) == 1
    requires forall k :: 0 <= k < |d| ==> Rank(d[k]) == 2
    requires forall k :: 0 <= k < |mo| ==> Rank(mo[k]) == 3
    ensures var a := v + r + d + mo;
      && |a| <= 4
      && (forall i, j :: 0 <= i < j < |a| ==> Rank(a[i]) < Rank(a[j]))
  {
    var a := v + r + d + mo;
    forall i | 0 <= i < |a|
      ensures Rank(a[i]) == if i < |v| then 0 else if i < |v| + |r| then 1 else if i < |v| + |r| + |d| then 2 else 3
    {
      if i < |v| { assert a[i] == v[i]; }
      else if i < |v| + |r| { assert a[i] == r[i - |v|]; }
      else if i < |v| + |r| + |d| { assert a[i] == d[i - |v| - |r|]; }
      else { assert a[i] == mo[i - |v| - |r| - |d|]; }
    }
  }

  /** Strictly increasing ranks rule out repeated codes and pairs of volume or
      RSI codes. */
  lemma AnomaliesDistinct(m: BasicMetrics, signals: seq<string>)
    ensures NoDuplicates(Anomalies(m, signals))
    ensures var a := Anomalies(m, signals);
      !(VolumeSpike in a && VolumeDrop in a) && !(RsiOverbought in a && RsiOversold in a)
  {
    var a := Anomalies(m, signals);
    forall i, j | 0 <= i < j < |a| ensures a[i] != a[j] {
      assert Rank(a[i]) < Rank(a[j]);
    }
  }

  // ---------------------------------------------------------------------------
  // Summary
  // ---------------------------------------------------------------------------

  /** `toWords`: underscores become spaces and letters become lower case. */
  function ToWords(code: string): (w: string)
    ensures |w| == |code|
    ensures forall i :: 0 <= i < |w| ==> w[i] != '_' && !IsUpperAscii(w[i])
  {
    seq(|code|, i requires 0 <= i < |code| => ToLowerChar(if code[i] == '_' then ' ' else code[i]))
  }

  /** The fixed part of the summary sentence. */
  function Headline(trend: Trend, momentum: Momentum, risk: Risk): string
  {
    TrendName(trend) + " trend with " + ToLower(MomentumName(momentum)) + " momentum"
    + "; " + "risk " + ToLower(RiskName(risk)) + "."
  }

  /** Lower-casing neither adds nor removes a colon. */
  lemma ToLowerNoColon(s: string)
    requires ':' !in s
    ensures ':' !in ToLower(s)
  {
    var l := ToLower(s);
    forall i | 0 <= i < |l| ensures l[i] != ':' {
      assert l[i] == ToLowerChar(s[i]);
    }
  }

  /** The headline's shape from its parts: it starts with the trend's name,
      ends with a full stop and holds no colon when no part does. */
  lemma HeadlineParts(t: string, mo: string, ri: string)
    requires ':' !in t && ':' !in mo && ':' !in ri
    ensures var h := t + " trend with " + mo + " momentum" + "; " + "risk " + ri + ".";
      && ':' !in h && |h| > 0 && h[|h| - 1] == '.' && t <= h
  {
    assert ':' !in " trend with " && ':' !in " momentum" && ':' !in "; " && ':' !in "risk " && ':' !in ".";
    var h := t + " trend with " + mo + " momentum" + "; " + "risk " + ri + ".";
    assert h == t + (" trend with " + mo + " momentum" + "; " + "risk " + ri + ".");
  }

  /** The headline starts with the trend's name, ends with a full stop and
      holds no colon. */
  lemma HeadlineHasNoColon(trend: Trend, momentum: Momentum, risk: Risk)
    ensures var h := Headline(trend, momentum, risk);
      && ':' !in h && |h| > 0 && h[|h| - 1] == '.' && TrendName(trend) <= h
  {
    assert ':' !in TrendName(trend) && ':' !in MomentumName(momentum) && ':' !in RiskName(risk);
    ToLowerNoColon(MomentumName(momentum));
    ToLowerNoColon(RiskName(risk));
    HeadlineParts(TrendName(trend), ToLower(MomentumName(momentum)), ToLower(RiskName(risk)));
  }

  predicate EndsWith(s: string, t: string)
  {
    |t| <= |s| && s[|s| - |t|..] == t
  }

  /** Appending the note " Notable: <words>." to a colon-free headline that
      starts with `name` and ends with a full stop. */
  lemma AppendNote(name: string, head: string, words: string)
    requires ':' !in head && |head| > 0 && head[|head| - 1] == '.' && name <= head
    ensures var s := head + (" Notable: " + words + ".");
      && |s| > 0 && s[|s| - 1] == '.' && name <= s && head <= s && head + " Notable: " <= s
      && EndsWith(s, words + ".") && ':' in s
  {
    var tail := " Notable: " + words + ".";
    var s := head + tail;
    assert tail[8] == ':';
    assert s[|head| + 8] == ':';
    assert s == (head + " Notable: ") + (words + ".");
    assert s[|s| - |words| - 1..] == words + ".";
    assert s[..|name|] == head[..|name|];
  }

  /** `buildSummary`: the headline, then " Notable: <first anomaly in words>."
      exactly when there is an anomaly. The sentence always starts with the
      trend's name and ends with a full stop, and it holds a colon exactly
      when an anomaly is reported. */
  function BuildSummary(trend: Trend, momentum: Momentum, risk: Risk, anomalies: seq<Anomaly>): (s: string)
    ensures |s| > 0 && s[|s| - 1] == '.'
    ensures TrendName(trend) <= s
    ensures Headline(trend, momentum, risk) <= s
    ensures |anomalies| == 0 ==> s == Headline(trend, momentum, risk)
    ensures |anomalies| > 0 ==> Headline(trend, momentum, risk) + " Notable: " <= s
    ensures |anomalies| > 0 ==> EndsWith(s, ToWords(Code(anomalies[0])) + ".")
    ensures ':' in s <==> |anomalies| > 0
  {
    var head := Headline(trend, momentum, risk);
    HeadlineHasNoColon(trend, momentum, risk);
    if |anomalies| > 0 then
      var words := ToWords(Code(anomalies[0]));
      AppendNote(TrendName(trend), head, words);
      head + (" Notable: " + words + ".")
    else head
  }

  /** `computeSymbolInsights`. */
  function ComputeSymbolInsights(m: BasicMetrics, signals: seq<string>): (r: SymbolInsights)
    ensures r.trend == ClassifyTrend(m) && r.momentum == ClassifyMomentum(m) && r.risk == ClassifyRisk(m)
    ensures r.anomalies == Anomalies(m, signals)
    ensures ':' in r.summary <==> |r.anomalies| > 0
  {
    var trend := ClassifyTrend(m);
    var momentum := ClassifyMomentum(m);
    var risk := ClassifyRisk(m);
    var anomalies := Anomalies(m, signals);
    SymbolInsights(trend, momentum, risk, anomalies, BuildSummary(trend, momentum, risk, anomalies))
  }

  /** A drawdown of 35% or worse is both reported as an anomaly and, when the
      volatility is known, makes the risk High. */
  lemma DeepDrawdownIsHighRisk(m: BasicMetrics, signals: seq<string>)
    requires m.maxDrawdown.Some? && m.maxDrawdown.value <= -35.0 && m.volAnn.Some?
    ensures ComputeSymbolInsights(m, signals).risk == High
    ensures DrawdownElevated in ComputeSymbolInsights(m, signals).anomalies
  {
    AnomaliesMembers(m, signals);
  }

  /** When the signals come from `buildSignals`, as in the analysis route, the
      negative-momentum anomaly never appears: `buildSignals` emits
      `MOMENTUM_NEG`, and the classifier looks for `MOMENTUM_NEG_LAST_MONTH`. */
  lemma NoMomentumAnomalyFromBuiltSignals(m: BasicMetrics)
    ensures MomentumNegLastMonth !in ComputeSymbolInsights(m, Signals(m)).anomalies
  {
    var s := Signals(m);
    assert |MOMENTUM_NEG_LAST_MONTH| == 23;
    assert !IsSignalCode(MOMENTUM_NEG_LAST_MONTH);
    assert MOMENTUM_NEG_LAST_MONTH !in s;
    AnomaliesMembers(m, s);
  }

  // ---------------------------------------------------------------------------
  // The three recorded scenarios of the classifier
  // ---------------------------------------------------------------------------

  const BaseMetrics := BasicMetrics(
    Some(100.0), Some(0.0), Some(0.0), Some(0.0), Some(0.0), Some(20.0),
    Some(-10.0), Some(95.0), Some(90.0), Some(50.0), Some(0.0))

  /** Price 120 over averages 110 and 100, returns 6 and 12, RSI 60 and
      volatility 55: Bullish, Strong, High, and the summary names the trend. */
  lemma BullishHighRiskScenario()
    ensures var m := BaseMetrics.(price := Some(120.0), sma20 := Some(110.0), sma50 := Some(100.0),
                                  return1M := Some(6.0), return3M := Some(12.0), rsi14 := Some(60.0),
                                  volAnn := Some(55.0), maxDrawdown := Some(-15.0));
      var r := ComputeSymbolInsights(m, []);
      r.trend == Bullish && r.momentum == Strong && r.risk == High && "Bullish" <= r.summary
  {}

  /** Price 80 under averages 90 and 100, returns -2 and -4, RSI 40 and
      volatility 18: Bearish, Weak, Low. */
  lemma BearishLowRiskScenario()
    ensures var m := BaseMetrics.(price := Some(80.0), sma20 := Some(90.0), sma50 := Some(100.0),
                                  return1M := Some(-2.0), return3M := Some(-4.0), rsi14 := Some(40.0),
                                  volAnn := Some(18.0), maxDrawdown := Some(-10.0));
      var r := ComputeSymbolInsights(m, []);
      r.trend == Bearish && r.momentum == Weak && r.risk == Low
  {}

  /** A volume z-score of 2.5 with the momentum flag among the signals: both
      anomalies are listed and the summary has a "Notable" part. */
  lemma VolumeSpikeScenario()
    ensures var m := BaseMetrics.(volumeZScore := Some(2.5), return1M := Some(-6.0),
                                  return3M := Some(-8.0), rsi14 := Some(35.0));
      var r := ComputeSymbolInsights(m, [MOMENTUM_NEG_LAST_MONTH]);
      && VolumeSpike in r.anomalies && MomentumNegLastMonth in r.anomalies
      && Headline(r.trend, r.momentum, r.risk) + " Notable: " <= r.summary
  {
    AnomaliesMembers(BaseMetrics.(volumeZScore := Some(2.5), return1M := Some(-6.0),
                                  return3M := Some(-8.0), rsi14 := Some(35.0)), [MOMENTUM_NEG_LAST_MONTH]);
  }
}
