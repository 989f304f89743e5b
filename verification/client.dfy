/** The computational helpers of the web client: symbol entry, quarter-over-
    quarter figures, the moving averages and event markers of the price chart,
    and the rolling-baseline volume-spike label. */
module Client {
  import opened Common

  // ---------------------------------------------------------------------------
  // parseSymbols: split on runs of commas and white space
  // ---------------------------------------------------------------------------

  /** A character of the class `[,\s]`. */
  predicate IsSeparator(c: char)
  {
    c == ',' || IsSpace(c)
  }

  predicate SeparatorFree(s: string)
  {
    forall k :: 0 <= k < |s| ==> !IsSeparator(s[k])
  }

  /** Position of the first separator, or `|s|`. */
  function SeparatorIndex(s: string): (i: nat)
    ensures i <= |s|
    ensures forall k :: 0 <= k < i ==> !IsSeparator(s[k])
    ensures i < |s| ==> IsSeparator(s[i])
    decreases |s|
  {
    if s == [] || IsSeparator(s[0]) then 0
    else SeparatorIndex(s[1..]) + 1
  }

  lemma {:induction false} SeparatorIndexAfter(a: string, b: string)
    requires SeparatorFree(a) && b != [] && IsSeparator(b[0])
    ensures SeparatorIndex(a + b) == |a|
    decreases |a|
  {
    if a != [] {
      assert (a + b)[1..] == a[1..] + b;
      SeparatorIndexAfter(a[1..], b);
    } else {
      assert a + b == b;
    }
  }

  /** Drops a leading run of separators. */
  function SkipSeparators(s: string): (r: string)
    ensures |r| <= |s| && r == s[|s| - |r|..]
    ensures r == [] || !IsSeparator(r[0])
    ensures |s| > 0 && IsSeparator(s[0]) ==> |r| < |s|
    decreases |s|
  {
    if |s| > 0 && IsSeparator(s[0]) then SkipSeparators(s[1..]) else s
  }

  /** `input.split(/[,\s]+/)`: the pieces between maximal separator runs, with an
      empty piece before a leading run and after a trailing one. */
  function SplitRuns(s: string): (parts: seq<string>)
    ensures |parts| >= 1
    ensures forall k :: 0 <= k < |parts| ==> SeparatorFree(parts[k])
    decreases |s|
  {
    var i := SeparatorIndex(s);
    if i == |s| then [s]
    else
      assert SeparatorFree(s[..i]);
      [s[..i]] + SplitRuns(SkipSeparators(s[i..]))
  }

  /** `parseSymbols`: split, trim and upper-case every piece, drop empty ones. */
  function ParseSymbols(input: string): (symbols: seq<string>)
    ensures forall k :: 0 <= k < |symbols| ==> CleanSymbol(symbols[k]) && SeparatorFree(symbols[k])
  {
    var pieces := SplitRuns(input);
    var normalized := MapNormalize(pieces);
    forall k | 0 <= k < |pieces| ensures SeparatorFree(normalized[k]) {
      NormalizeSeparatorFree(pieces[k]);
    }
    NonEmpty(normalized)
  }

  /** A piece without separators needs no trimming, and upper-casing adds none. */
  lemma NormalizeSeparatorFree(p: string)
    requires SeparatorFree(p)
    ensures NormalizeSymbol(p) == ToUpper(p)
    ensures SeparatorFree(NormalizeSymbol(p))
  {
    TrimOfTrimmed(p);
    var u := ToUpper(p);
    forall k | 0 <= k < |u| ensures !IsSeparator(u[k]) {
      assert u[k] == ToUpperChar(p[k]) && !IsSeparator(p[k]);
    }
  }

  /** Symbols written out with commas are read back unchanged. */
  lemma ParseSymbolsOfJoin(symbols: seq<string>)
    requires forall k :: 0 <= k < |symbols| ==> CleanSymbol(symbols[k]) && SeparatorFree(symbols[k])
    ensures ParseSymbols(Join(symbols, ",")) == symbols
  {
    if symbols == [] {
      ParseSymbolsOfEmpty();
    } else {
      var text := Join(symbols, ",");
      SplitRunsOfJoin(symbols);
      MapNormalizeOfClean(symbols);
      NonEmptyOfNonEmpty(symbols);
      assert ParseSymbols(text) == NonEmpty(MapNormalize(SplitRuns(text)));
    }
  }

  /** Empty input yields no symbols. */
  lemma ParseSymbolsOfEmpty()
    ensures ParseSymbols("") == []
  {
    assert SplitRuns("") == [""];
    assert MapNormalize([""]) == [""];
  }

  lemma JoinStartsWithFirst(parts: seq<string>, sep: string)
    requires |parts| >= 1 && parts[0] != []
    ensures Join(parts, sep) != [] && Join(parts, sep)[0] == parts[0][0]
  {}

  lemma {:induction false} SplitRunsOfJoin(parts: seq<string>)
    requires |parts| >= 1
    requires forall k :: 0 <= k < |parts| ==> parts[k] != [] && SeparatorFree(parts[k])
    ensures SplitRuns(Join(parts, ",")) == parts
    decreases |parts|
  {
    if |parts| == 1 {
      SplitRunsOfPiece(parts[0]);
    } else {
      SplitRunsOfJoin(parts[1..]);
      SplitRunsOfJoinStep(parts);
    }
  }

  /** One more piece in front: the split of the longer join is that piece
      followed by the split of the shorter one. */
  lemma SplitRunsOfJoinStep(parts: seq<string>)
    requires |parts| >= 2 && SeparatorFree(parts[0]) && parts[1] != [] && SeparatorFree(parts[1])
    requires SplitRuns(Join(parts[1..], ",")) == parts[1..]
    ensures SplitRuns(Join(parts, ",")) == parts
  {
    var tail := parts[1..];
    var rest := Join(tail, ",");
    assert Join(parts, ",") == parts[0] + "," + rest;
    assert tail[0] == parts[1];
    JoinStartsWithFirst(tail, ",");
    SplitRunsStep(parts[0], rest);
    assert parts == [parts[0]] + tail;
  }

  /** A piece without separators splits into itself. */
  lemma SplitRunsOfPiece(s: string)
    requires SeparatorFree(s)
    ensures SplitRuns(s) == [s]
  {
    SeparatorIndexAfterAll(s);
  }

  /** A piece, one comma and a rest that does not start with a separator
      split into the piece and the pieces of the rest. */
  lemma SplitRunsStep(first: string, rest: string)
    requires SeparatorFree(first) && (rest == [] || !IsSeparator(rest[0]))
    ensures SplitRuns(first + "," + rest) == [first] + SplitRuns(rest)
  {
    var s := first + "," + rest;
    assert s == first + ("," + rest);
    SeparatorIndexAfter(first, "," + rest);
    assert s[..|first|] == first;
    assert s[|first|..] == "," + rest;
    assert SkipSeparators("," + rest) == rest by {
      assert ("," + rest)[1..] == rest;
    }
  }

  lemma SeparatorIndexAfterAll(s: string)
    requires SeparatorFree(s)
    ensures SeparatorIndex(s) == |s|
  {}

  // ---------------------------------------------------------------------------
  // Adding and saving symbols
  // ---------------------------------------------------------------------------

  /** `Array.from(new Set([...existing, ...additions]))`. */
  function MergeSymbols(existing: seq<string>, additions: seq<string>): (r: seq<string>)
    ensures NoDuplicates(r)
    ensures forall x :: x in r <==> x in existing || x in additions
  {
    var r := Dedup(existing + additions);
    assert forall x :: x in existing + additions <==> x in existing || x in additions;
    r
  }

  /** A list without repeats keeps its order and its place in front of the
      added symbols. */
  lemma MergeKeepsExisting(existing: seq<string>, additions: seq<string>)
    requires NoDuplicates(existing)
    ensures |existing| <= |MergeSymbols(existing, additions)|
    ensures MergeSymbols(existing, additions)[..|existing|] == existing
  {
    DedupPrefix(existing, additions);
    DedupOfDistinct(existing);
  }

  /** `applyAddSymbols`: the staged list after adding the typed symbols; a
      blank draft or one without symbols leaves it as it is. */
  function ApplyAddSymbols(staged: seq<string>, draft: string): (r: seq<string>)
    ensures ParseSymbols(draft) == [] ==> r == staged
    ensures ParseSymbols(draft) != [] ==> r == MergeSymbols(staged, ParseSymbols(draft))
  {
    if Trim(draft) == [] then
      assert ParseSymbols(draft) == [] by { BlankHasNoSymbols(draft); }
      staged
    else
      var additions := ParseSymbols(draft);
      if additions == [] then staged else MergeSymbols(staged, additions)
  }

  /** A draft that trims to nothing parses to no symbols. */
  lemma BlankHasNoSymbols(draft: string)
    requires Trim(draft) == []
    ensures ParseSymbols(draft) == []
  {
    AllSpace(draft);
    var pieces := SplitRuns(draft);
    var normalized := MapNormalize(pieces);
    SplitRunsOfSeparators(draft);
    forall k | 0 <= k < |pieces| ensures normalized[k] == [] {
      NormalizeSeparatorFree(pieces[k]);
    }
    NonEmptyOfEmpties(normalized);
  }

  lemma {:induction false} NonEmptyOfEmpties(xs: seq<string>)
    requires forall k :: 0 <= k < |xs| ==> xs[k] == []
    ensures NonEmpty(xs) == []
    decreases |xs|
  {
    if xs != [] {
      NonEmptyOfEmpties(xs[1..]);
    }
  }

  /** Text whose trim is empty is all white space. */
  lemma {:induction false} AllSpace(s: string)
    requires Trim(s) == []
    ensures forall k :: 0 <= k < |s| ==> IsSpace(s[k])
    decreases |s|
  {
    if s != [] {
      if !IsSpace(s[0]) {
        assert TrimStart(s) == s;
        assert s[|s| - 1] == TrimStart(s)[|s| - 1];
        TrimEndNonEmpty(s);
        assert false;
      }
      assert Trim(s[1..]) == [];
      AllSpace(s[1..]);
      assert forall k :: 1 <= k < |s| ==> s[k] == s[1..][k - 1];
    }
  }

  /** Trimming the end of text that starts with a non-space keeps something. */
  lemma {:induction false} TrimEndNonEmpty(s: string)
    requires s != [] && !IsSpace(s[0])
    ensures TrimEnd(s) != []
    decreases |s|
  {
    if IsSpace(s[|s| - 1]) {
      TrimEndNonEmpty(s[..|s| - 1]);
    }
  }

  /** Text made of separators only splits into empty pieces. */
  lemma {:induction false} SplitRunsOfSeparators(s: string)
    requires forall k :: 0 <= k < |s| ==> IsSeparator(s[k])
    ensures forall k :: 0 <= k < |SplitRuns(s)| ==> SplitRuns(s)[k] == []
    decreases |s|
  {
    var i := SeparatorIndex(s);
    if i < |s| {
      SplitRunsOfSeparators(SkipSeparators(s[i..]));
    }
  }

  /** `saveSymbols`: the override list when given, else the staged one,
      normalised and de-duplicated before it is sent. */
  function SaveSymbols(staged: seq<string>, symbolsOverride: Option<seq<string>>): (r: seq<string>)
    ensures NoDuplicates(r)
    ensures forall k :: 0 <= k < |r| ==> CleanSymbol(r[k])
    ensures symbolsOverride.Some? ==> r == NormalizeSymbols(symbolsOverride.value)
    ensures symbolsOverride.None? ==> r == NormalizeSymbols(staged)
  {
    NormalizeSymbols(if symbolsOverride.Some? then symbolsOverride.value else staged)
  }

  /** Adding symbols to a group from its row: the group's symbols with the
      typed ones merged in, then saved; `None` when nothing was typed. A group
      whose symbols were saved before (clean, no repeats) keeps them, in
      place, ahead of the new ones. */
  function InlineAddSymbols(groupSymbols: seq<string>, draft: string): (r: Option<seq<string>>)
    ensures r.None? <==> ParseSymbols(draft) == []
    ensures r.Some? ==> NoDuplicates(r.value)
    ensures r.Some? ==> forall x :: x in ParseSymbols(draft) ==> x in r.value
    ensures r.Some? && NoDuplicates(groupSymbols) && (forall k :: 0 <= k < |groupSymbols| ==> CleanSymbol(groupSymbols[k])) ==>
      && r.value == MergeSymbols(groupSymbols, ParseSymbols(draft))
      && |groupSymbols| <= |r.value|
      && r.value[..|groupSymbols|] == groupSymbols
  {
    var additions := ParseSymbols(draft);
    if additions == [] then None
    else
      var merged := MergeSymbols(groupSymbols, additions);
      var r := SaveSymbols([], Some(merged));
      SavedMergeKeepsAdditions(groupSymbols, additions);
      SavedMergeOfClean(groupSymbols, additions);
      Some(r)
  }

  /** Saving a merge keeps every clean added symbol. */
  lemma SavedMergeKeepsAdditions(groupSymbols: seq<string>, additions: seq<string>)
    requires forall k :: 0 <= k < |additions| ==> CleanSymbol(additions[k])
    ensures forall x :: x in additions ==> x in SaveSymbols([], Some(MergeSymbols(groupSymbols, additions)))
  {
    var merged := MergeSymbols(groupSymbols, additions);
    forall x | x in additions ensures x in SaveSymbols([], Some(merged)) {
      NormalizeSymbolsMembers(merged, x);
      NormalizeClean(x);
    }
  }

  /** Saving the merge of clean lists sends the merge itself, which keeps the
      group's own symbols in front. */
  lemma SavedMergeOfClean(groupSymbols: seq<string>, additions: seq<string>)
    requires forall k :: 0 <= k < |additions| ==> CleanSymbol(additions[k])
    ensures NoDuplicates(groupSymbols) && (forall k :: 0 <= k < |groupSymbols| ==> CleanSymbol(groupSymbols[k])) ==>
      var merged := MergeSymbols(groupSymbols, additions);
      && SaveSymbols([], Some(merged)) == merged
      && |groupSymbols| <= |merged| && merged[..|groupSymbols|] == groupSymbols
  {
    if NoDuplicates(groupSymbols) && (forall k :: 0 <= k < |groupSymbols| ==> CleanSymbol(groupSymbols[k])) {
      var merged := MergeSymbols(groupSymbols, additions);
      forall k | 0 <= k < |merged| ensures CleanSymbol(merged[k]) {
        assert merged[k] in groupSymbols || merged[k] in additions;
      }
      NormalizeSymbolsOfClean(merged);
      MergeKeepsExisting(groupSymbols, additions);
    }
  }

  // ---------------------------------------------------------------------------
  // Quarter-over-quarter figures
  // ---------------------------------------------------------------------------

  function Abs(x: real): real
  {
    if x < 0.0 then -x else x
  }

  /** `calcYoY`: percentage change from `prior` to `latest`, relative to the
      size of `prior`; null when a value is missing or `prior` is 0. */
  function CalcYoY(latest: Option<real>, prior: Option<real>): (r: Option<real>)
    ensures r.Some? <==> latest.Some? && prior.Some? && prior.value != 0.0
    ensures r.Some? ==> r.value * Abs(prior.value) == (latest.value - prior.value) * 100.0
    ensures r.Some? ==> (r.value > 0.0 <==> latest.value > prior.value)
    ensures r.Some? ==> (r.value == 0.0 <==> latest.value == prior.value)
  {
    if latest.None? || prior.None? then None
    else if prior.value == 0.0 then None
    else Some((latest.value - prior.value) / Abs(prior.value) * 100.0)
  }

  /** `calcMargin`: `value` as a percentage of `base`; null when a value is
      missing or `base` is 0. */
  function CalcMargin(value: Option<real>, base: Option<real>): (r: Option<real>)
    ensures r.Some? <==> value.Some? && base.Some? && base.value != 0.0
    ensures r.Some? ==> r.value * base.value == value.value * 100.0
  {
    if value.None? || base.None? then None
    else if base.value == 0.0 then None
    else Some(value.value / base.value * 100.0)
  }

  // ---------------------------------------------------------------------------
  // buildTrendSeries
  // ---------------------------------------------------------------------------

  const TREND_QUARTERS := 20

  /** A quarter of fundamentals as the client receives it; a field that is
      null or absent is missing from `values`. */
  datatype FundamentalsQuarter = FundamentalsQuarter(periodEnd: int, values: map<string, real>)

  function PeriodEndKey(q: FundamentalsQuarter): real
  {
    q.periodEnd as real
  }

  /** `sortQuartersAsc`. */
  function SortQuartersAsc(quarters: seq<FundamentalsQuarter>): (s: seq<FundamentalsQuarter>)
    ensures |s| == |quarters| && multiset(s) == multiset(quarters)
    ensures forall i, j :: 0 <= i < j < |s| ==> s[i].periodEnd <= s[j].periodEnd
  {
    var s := SortBy(quarters, PeriodEndKey);
    assert forall i, j :: 0 <= i < j < |s| ==> PeriodEndKey(s[i]) <= PeriodEndKey(s[j]);
    s
  }

  /** `buildTrendSeries`: the field's values over the latest 20 quarters, oldest
      first, or nothing unless there are 20 quarters all carrying the field. */
  function BuildTrendSeries(quarters: seq<FundamentalsQuarter>, key: string): (r: seq<real>)
    ensures var s := SortQuartersAsc(quarters);
      r != [] <==> |s| >= TREND_QUARTERS && forall k :: |s| - TREND_QUARTERS <= k < |s| ==> key in s[k].values
    ensures var s := SortQuartersAsc(quarters);
      r != [] ==> (|r| == TREND_QUARTERS
        && forall k :: 0 <= k < TREND_QUARTERS ==> r[k] == s[|s| - TREND_QUARTERS + k].values[key])
  {
    var sorted := SortQuartersAsc(quarters);
    var slice := TakeLast(sorted, TREND_QUARTERS);
    if |slice| < TREND_QUARTERS then []
    else
      assert forall k :: 0 <= k < TREND_QUARTERS ==> slice[k] == sorted[|sorted| - TREND_QUARTERS + k];
      if exists k :: 0 <= k < |slice| && key !in slice[k].values then
        assert exists k :: |sorted| - TREND_QUARTERS <= k < |sorted| && key !in sorted[k].values by {
          var k :| 0 <= k < |slice| && key !in slice[k].values;
          assert key !in sorted[|sorted| - TREND_QUARTERS + k].values;
        }
        []
      else
        seq(TREND_QUARTERS, k requires 0 <= k < TREND_QUARTERS => slice[k].values[key])
  }

  // ---------------------------------------------------------------------------
  // movingAverage
  // ---------------------------------------------------------------------------

  /** Entry `i` of the moving average: null until a full window of closes is
      available, then the mean of the window ending at `i`. */
  function MovingAverageAt(closes: seq<real>, windowSize: nat, i: nat): (r: Option<real>)
    requires windowSize >= 1 && i < |closes|
    ensures r.None? <==> i < windowSize - 1
  {
    if i < windowSize - 1 then None
    else Some(Sum(closes[i - windowSize + 1..i + 1]) / windowSize as real)
  }

  /** `movingAverage(windowSize)` over the chart's closes; the chart uses
      windows of 20 and 50. */
  method MovingAverage(closes: seq<real>, windowSize: nat) returns (values: seq<Option<real>>)
    requires windowSize >= 1
    ensures |values| == |closes|
    ensures forall i :: 0 <= i < |closes| ==> values[i] == MovingAverageAt(closes, windowSize, i)
  {
    values := [];
    for i := 0 to |closes|
      invariant |values| == i
      invariant forall k :: 0 <= k < i ==> values[k] == MovingAverageAt(closes, windowSize, k)
    {
      if i < windowSize - 1 {
        values := values + [None];
        continue;
      }
      var slice := closes[i - windowSize + 1..i + 1];
      var sum := Sum(slice);
      values := values + [Some(sum / windowSize as real)];
    }
  }

  /** A moving-average value lies between the smallest and the largest close of
      its window. */
  lemma MovingAverageWithinWindow(closes: seq<real>, windowSize: nat, i: nat)
    requires windowSize >= 1 && windowSize - 1 <= i < |closes|
    ensures var w := closes[i - windowSize + 1..i + 1];
      SeqMin(w) <= MovingAverageAt(closes, windowSize, i).value <= SeqMax(w)
  {
    var w := closes[i - windowSize + 1..i + 1];
    MeanBounds(w, SeqMin(w), SeqMax(w));
    assert Mean(w) == MovingAverageAt(closes, windowSize, i).value;
  }

  // ---------------------------------------------------------------------------
  // visibleEvents: chart event markers thinned to a minimum spacing
  // ---------------------------------------------------------------------------

  datatype Category = Momentum | Volume | Risk

  /** A marker on the price chart at point `index`. */
  datatype ChartEvent = ChartEvent(index: int, category: Category, title: string, detail: string)

  /** The three category switches of the chart. */
  datatype EventFilters = EventFilters(momentum: bool, volume: bool, risk: bool)

  const MAX_DRAWDOWN_TITLE := "Max drawdown"

  predicate Enabled(filters: EventFilters, c: Category)
  {
    match c
    case Momentum => filters.momentum
    case Volume => filters.volume
    case Risk => filters.risk
  }

  /** The events whose category is switched on, in order. */
  function FilterEvents(events: seq<ChartEvent>, filters: EventFilters): (r: seq<ChartEvent>)
    ensures forall k :: 0 <= k < |r| ==> r[k] in events && Enabled(filters, r[k].category)
    ensures forall e :: e in events && Enabled(filters, e.category) ==> e in r
    decreases |events|
  {
    if events == [] then []
    else
      var rest := FilterEvents(events[1..], filters);
      if Enabled(filters, events[0].category) then [events[0]] + rest else rest
  }

  function IndexKey(e: ChartEvent): real
  {
    e.index as real
  }

  /** `Math.max(2, Math.floor(pointCount / 80))`. */
  function MinGap(pointCount: nat): (g: int)
    ensures g >= 2 && g >= pointCount / 80
    ensures g == 2 || g == pointCount / 80
  {
    if pointCount / 80 > 2 then pointCount / 80 else 2
  }

  /** Whether the loop keeps `e` when the last kept marker sat at `last`. */
  predicate Kept(e: ChartEvent, minGap: int, last: Option<int>)
  {
    e.title == MAX_DRAWDOWN_TITLE || last.None? || e.index - last.value >= minGap
  }

  /** The markers kept from `events` when the last kept one sat at `last`
      (`None` standing for `-Infinity`). */
  function Thin(events: seq<ChartEvent>, minGap: int, last: Option<int>): (r: seq<ChartEvent>)
    decreases |events|
  {
    if events == [] then []
    else
      var e := events[0];
      if Kept(e, minGap, last) then [e] + Thin(events[1..], minGap, Some(e.index))
      else Thin(events[1..], minGap, last)
  }

  function SortByIndex(events: seq<ChartEvent>): (s: seq<ChartEvent>)
    ensures multiset(s) == multiset(events)
    ensures forall i, j :: 0 <= i < j < |s| ==> s[i].index <= s[j].index
  {
    var s := SortBy(events, IndexKey);
    assert forall i, j :: 0 <= i < j < |s| ==> IndexKey(s[i]) <= IndexKey(s[j]);
    s
  }

  /** The markers shown: none when markers are off, otherwise the enabled
      ones in index order thinned to the minimum gap. */
  function VisibleEventsOf(events: seq<ChartEvent>, showEvents: bool, filters: EventFilters, pointCount: nat)
    : seq<ChartEvent>
  {
    if !showEvents then []
    else Thin(SortByIndex(FilterEvents(events, filters)), MinGap(pointCount), None)
  }

  /** `visibleEvents`. */
  method VisibleEvents(events: seq<ChartEvent>, showEvents: bool, filters: EventFilters, pointCount: nat)
    returns (output: seq<ChartEvent>)
    ensures !showEvents ==> output == []
    ensures output == VisibleEventsOf(events, showEvents, filters, pointCount)
  {
    if !showEvents {
      return [];
    }
    var filtered := FilterEvents(events, filters);
    var minGap := MinGap(pointCount);
    var sorted := SortByIndex(filtered);
    output := ThinSorted(sorted, minGap);
  }

  /** The thinning loop of `visibleEvents` over the sorted markers: a marker
      is kept when it is the drawdown marker or sits at least `minGap` after
      the last kept one. */
  method ThinSorted(sorted: seq<ChartEvent>, minGap: int) returns (output: seq<ChartEvent>)
    ensures output == Thin(sorted, minGap, None)
  {
    output := [];
    var lastIndex: Option<int> := None;
    assert sorted[0..] == sorted;
    for i := 0 to |sorted|
      invariant output + Thin(sorted[i..], minGap, lastIndex) == Thin(sorted, minGap, None)
    {
      var event := sorted[i];
      ThinUnfold(sorted, i, minGap, lastIndex);
      if event.title == MAX_DRAWDOWN_TITLE {
        output := output + [event];
        lastIndex := Some(event.index);
        continue;
      }
      if lastIndex.None? || event.index - lastIndex.value >= minGap {
        output := output + [event];
        lastIndex := Some(event.index);
      }
    }
    assert sorted[|sorted|..] == [];
  }

  lemma ThinUnfold(s: seq<ChartEvent>, i: nat, minGap: int, last: Option<int>)
    requires i < |s|
    ensures Kept(s[i], minGap, last) ==>
      Thin(s[i..], minGap, last) == [s[i]] + Thin(s[i + 1..], minGap, Some(s[i].index))
    ensures !Kept(s[i], minGap, last) ==> Thin(s[i..], minGap, last) == Thin(s[i + 1..], minGap, last)
  {
    assert s[i..][0] == s[i] && s[i..][1..] == s[i + 1..];
  }

  /** `a` can be obtained from `b` by deleting elements. */
  predicate Subsequence<T(==)>(a: seq<T>, b: seq<T>)
    decreases |b|
  {
    a == [] || (b != [] && ((a[0] == b[0] && Subsequence(a[1..], b[1..])) || Subsequence(a, b[1..])))
  }

  /** The kept markers are a subsequence of the sorted ones. */
  lemma {:induction false} ThinIsSubsequence(events: seq<ChartEvent>, minGap: int, last: Option<int>)
    ensures Subsequence(Thin(events, minGap, last), events)
    decreases |events|
  {
    if events != [] {
      var e := events[0];
      if Kept(e, minGap, last) {
        ThinIsSubsequence(events[1..], minGap, Some(e.index));
      } else {
        ThinIsSubsequence(events[1..], minGap, last);
      }
    }
  }

  /** Every "Max drawdown" marker is kept. */
  lemma {:induction false} ThinKeepsMaxDrawdown(events: seq<ChartEvent>, minGap: int, last: Option<int>, k: nat)
    requires k < |events| && events[k].title == MAX_DRAWDOWN_TITLE
    ensures events[k] in Thin(events, minGap, last)
    decreases |events|
  {
    if k > 0 {
      var e := events[0];
      assert events[1..][k - 1] == events[k];
      if Kept(e, minGap, last) {
        ThinKeepsMaxDrawdown(events[1..], minGap, Some(e.index), k - 1);
      } else {
        ThinKeepsMaxDrawdown(events[1..], minGap, last, k - 1);
      }
    }
  }

  /** Every marker other than "Max drawdown" lies at least `minGap` points
      after the one before it. */
  predicate WellSpaced(r: seq<ChartEvent>, minGap: int)
  {
    forall j :: 0 < j < |r| ==> r[j].title == MAX_DRAWDOWN_TITLE || r[j].index - r[j - 1].index >= minGap
  }

  /** Every kept marker other than "Max drawdown" lies at least `minGap`
      points after the marker kept before it (or after `last`). */
  lemma {:induction false} ThinSpacing(events: seq<ChartEvent>, minGap: int, last: Option<int>)
    ensures var r := Thin(events, minGap, last);
      r != [] && last.Some? ==> r[0].title == MAX_DRAWDOWN_TITLE || r[0].index - last.value >= minGap
    ensures WellSpaced(Thin(events, minGap, last), minGap)
    decreases |events|
  {
    if events != [] {
      var e := events[0];
      if Kept(e, minGap, last) {
        ThinSpacing(events[1..], minGap, Some(e.index));
        var rest := Thin(events[1..], minGap, Some(e.index));
        assert Thin(events, minGap, last) == [e] + rest;
      } else {
        ThinSpacing(events[1..], minGap, last);
      }
    }
  }

  lemma {:induction false} SubsequenceMembers<T>(a: seq<T>, b: seq<T>)
    requires Subsequence(a, b)
    ensures forall x :: x in a ==> x in b
    decreases |b|
  {
    if a != [] {
      if a[0] == b[0] && Subsequence(a[1..], b[1..]) {
        SubsequenceMembers(a[1..], b[1..]);
        assert a == [a[0]] + a[1..];
      } else {
        SubsequenceMembers(a, b[1..]);
      }
    }
  }

  /** The visible markers are a subsequence of the enabled markers sorted by
      index, and each one other than "Max drawdown" lies at least the minimum
      gap after its predecessor. */
  lemma VisibleEventsSpacing(events: seq<ChartEvent>, filters: EventFilters, pointCount: nat)
    ensures Subsequence(VisibleEventsOf(events, true, filters, pointCount), SortByIndex(FilterEvents(events, filters)))
    ensures WellSpaced(VisibleEventsOf(events, true, filters, pointCount), MinGap(pointCount))
  {
    var sorted := SortByIndex(FilterEvents(events, filters));
    ThinIsSubsequence(sorted, MinGap(pointCount), None);
    var g := MinGap(pointCount);
    ThinSpacing(sorted, g, None);
    var r := Thin(sorted, g, None);
    assert VisibleEventsOf(events, true, filters, pointCount) == r;
  }

  /** Only markers of enabled categories are shown. */
  lemma VisibleEventsEnabled(events: seq<ChartEvent>, filters: EventFilters, pointCount: nat, x: ChartEvent)
    requires x in VisibleEventsOf(events, true, filters, pointCount)
    ensures x in events && Enabled(filters, x.category)
  {
    var filtered := FilterEvents(events, filters);
    var sorted := SortByIndex(filtered);
    var r := Thin(sorted, MinGap(pointCount), None);
    ThinIsSubsequence(sorted, MinGap(pointCount), None);
    SubsequenceMembers(r, sorted);
    assert x in multiset(sorted);
    assert x in filtered;
  }

  /** Every enabled "Max drawdown" marker is shown. */
  lemma VisibleEventsKeepMaxDrawdown(events: seq<ChartEvent>, filters: EventFilters, pointCount: nat, e: ChartEvent)
    requires e in events && Enabled(filters, e.category) && e.title == MAX_DRAWDOWN_TITLE
    ensures e in VisibleEventsOf(events, true, filters, pointCount)
  {
    var filtered := FilterEvents(events, filters);
    var sorted := SortByIndex(filtered);
    assert e in multiset(filtered);
    assert e in sorted;
    var k :| 0 <= k < |sorted| && sorted[k] == e;
    ThinKeepsMaxDrawdown(sorted, MinGap(pointCount), None, k);
  }

  // ---------------------------------------------------------------------------
  // Volume spikes: each day's volume against a rolling baseline
  // ---------------------------------------------------------------------------

  const SPIKE_THRESHOLD := 1.8
  const EXTREME_THRESHOLD := 2.2
  const BASELINE_WINDOW := 60
  const DETECTION_WINDOW := 20
  const MIN_BASELINE_DAYS := 5
  const MIN_RECENT_DAYS := 3

  /** A point of the price chart. */
  datatype PricePoint = PricePoint(date: string, close: real, volume: Option<real>)

  function VolumeOrZero(p: PricePoint): real
  {
    if p.volume.Some? then p.volume.value else 0.0
  }

  /** Sum of the volumes present among points `lo` to `hi - 1`. */
  function WindowSum(points: seq<PricePoint>, lo: nat, hi: nat): real
    requires lo <= hi <= |points|
    decreases hi - lo
  {
    if lo == hi then 0.0 else WindowSum(points, lo, hi - 1) + VolumeOrZero(points[hi - 1])
  }

  /** Number of points among `lo` to `hi - 1` that carry a volume. */
  function WindowCount(points: seq<PricePoint>, lo: nat, hi: nat): (c: nat)
    requires lo <= hi <= |points|
    ensures c <= hi - lo
    decreases hi - lo
  {
    if lo == hi then 0
    else WindowCount(points, lo, hi - 1) + (if points[hi - 1].volume.Some? then 1 else 0)
  }

  /** Dropping the oldest point of a window takes its volume out. */
  lemma {:induction false} WindowDropFirst(points: seq<PricePoint>, lo: nat, hi: nat)
    requires lo < hi <= |points|
    ensures WindowSum(points, lo + 1, hi) == WindowSum(points, lo, hi) - VolumeOrZero(points[lo])
    ensures WindowCount(points, lo + 1, hi) == WindowCount(points, lo, hi) - (if points[lo].volume.Some? then 1 else 0)
    decreases hi - lo
  {
    if lo + 1 < hi {
      WindowDropFirst(points, lo, hi - 1);
    }
  }

  /** The baseline of day `i` covers the (at most) 60 days before it. */
  function BaselineStart(i: nat): (lo: nat)
    ensures lo <= i && i - lo <= BASELINE_WINDOW
  {
    if i >= BASELINE_WINDOW then i - BASELINE_WINDOW else 0
  }

  /** Mean volume of the baseline window, or 0 with fewer than five volumes. */
  function BaselineAvg(points: seq<PricePoint>, i: nat): real
    requires i < |points|
  {
    var c := WindowCount(points, BaselineStart(i), i);
    if c >= MIN_BASELINE_DAYS then WindowSum(points, BaselineStart(i), i) / c as real else 0.0
  }

  /** Day `i`'s volume over its baseline; 0 without a baseline or a volume. */
  function Ratio(points: seq<PricePoint>, i: nat): real
    requires i < |points|
  {
    var b := BaselineAvg(points, i);
    if b != 0.0 && points[i].volume.Some? then points[i].volume.value / b else 0.0
  }

  /** The detection window is the last 20 days. */
  function RecentStart(n: nat): (rs: nat)
    ensures rs <= n && n - rs <= DETECTION_WINDOW
  {
    if n >= DETECTION_WINDOW then n - DETECTION_WINDOW else 0
  }

  /** The counters kept over the detection window: days with a ratio, their
      ratio sum, the first peak ratio with its volume and date, and the days at
      or above each threshold. */
  datatype SpikeStats = SpikeStats(
    count: nat, ratioSum: real, maxRatio: real, maxVolume: real, maxDate: string,
    spikeDays: nat, extremeDays: nat)

  const NO_STATS := SpikeStats(0, 0.0, 0.0, 0.0, "", 0, 0)

  /** One iteration of the loop on the counters. */
  function StatsStep(st: SpikeStats, points: seq<PricePoint>, recentStart: nat, k: nat): SpikeStats
    requires k < |points|
  {
    var ratio := Ratio(points, k);
    if recentStart <= k && ratio != 0.0 then
      var peak := if ratio > st.maxRatio then st.(maxRatio := ratio, maxVolume := VolumeOrZero(points[k]), maxDate := points[k].date)
                  else st;
      peak.(count := st.count + 1, ratioSum := st.ratioSum + ratio,
            spikeDays := st.spikeDays + (if ratio >= SPIKE_THRESHOLD then 1 else 0),
            extremeDays := st.extremeDays + (if ratio >= EXTREME_THRESHOLD then 1 else 0))
    else st
  }

  /** The counters after the first `n` days. */
  function Stats(points: seq<PricePoint>, recentStart: nat, n: nat): SpikeStats
    requires n <= |points|
    decreases n
  {
    if n == 0 then NO_STATS else StatsStep(Stats(points, recentStart, n - 1), points, recentStart, n - 1)
  }

  datatype SpikeLabel = VolumeSpike | VolumeSpikeExtreme

  function LabelOf(st: SpikeStats): Option<SpikeLabel>
  {
    if st.count < MIN_RECENT_DAYS then None
    else if st.maxRatio >= EXTREME_THRESHOLD then Some(VolumeSpikeExtreme)
    else if st.maxRatio >= SPIKE_THRESHOLD then Some(VolumeSpike)
    else None
  }

  /** The label a symbol's chart gets; a chart of at most one point gets none. */
  function SpikeOf(points: seq<PricePoint>): Option<SpikeLabel>
  {
    if |points| > 1 then LabelOf(Stats(points, RecentStart(|points|), |points|)) else None
  }

  /** Moves the baseline window of day `i` on to day `i + 1`: the day's own
      volume comes in and the one 60 days back, when there is one, leaves. */
  method SlideBaseline(points: seq<PricePoint>, i: nat, windowSum: real, windowCount: nat)
    returns (sum: real, count: nat)
    requires i < |points|
    requires windowSum == WindowSum(points, BaselineStart(i), i)
    requires windowCount == WindowCount(points, BaselineStart(i), i)
    ensures sum == WindowSum(points, BaselineStart(i + 1), i + 1)
    ensures count == WindowCount(points, BaselineStart(i + 1), i + 1)
  {
    sum, count := windowSum, windowCount;
    var volume := points[i].volume;
    if volume.Some? {
      sum := sum + volume.value;
      count := count + 1;
    }
    var leavingIndex := i - BASELINE_WINDOW;
    if leavingIndex >= 0 {
      WindowDropFirst(points, leavingIndex, i + 1);
      var leaving := points[leavingIndex].volume;
      if leaving.Some? {
        sum := sum - leaving.value;
        count := count - 1;
      }
    }
  }

  /** The volume-spike loop of `loadPrices` for one symbol. */
  method DetectVolumeSpike(points: seq<PricePoint>) returns (spike: Option<SpikeLabel>, stats: SpikeStats)
    ensures spike == SpikeOf(points)
    ensures |points| > 1 ==> stats == Stats(points, RecentStart(|points|), |points|)
  {
    stats := NO_STATS;
    if |points| <= 1 {
      return None, stats;
    }
    var windowSum := 0.0;
    var windowCount := 0;
    var recentStart := RecentStart(|points|);
    var recentCount := 0;
    var recentRatioSum := 0.0;
    var recentMaxRatio := 0.0;
    var recentMaxVolume := 0.0;
    var recentMaxDate := "";
    var recentSpikeDays := 0;
    var recentExtremeDays := 0;
    for i := 0 to |points|
      invariant windowSum == WindowSum(points, BaselineStart(i), i)
      invariant windowCount == WindowCount(points, BaselineStart(i), i)
      invariant SpikeStats(recentCount, recentRatioSum, recentMaxRatio, recentMaxVolume, recentMaxDate,
                           recentSpikeDays, recentExtremeDays) == Stats(points, recentStart, i)
    {
      var baselineAvg := if windowCount >= MIN_BASELINE_DAYS then windowSum / windowCount as real else 0.0;
      var volume := points[i].volume;
      var ratio := if baselineAvg != 0.0 && volume.Some? then volume.value / baselineAvg else 0.0;
      assert ratio == Ratio(points, i);
      if i >= recentStart && ratio != 0.0 {
        recentCount := recentCount + 1;
        recentRatioSum := recentRatioSum + ratio;
        if ratio > recentMaxRatio {
          recentMaxRatio := ratio;
          recentMaxVolume := if volume.Some? then volume.value else 0.0;
          recentMaxDate := points[i].date;
        }
        if ratio >= SPIKE_THRESHOLD {
          recentSpikeDays := recentSpikeDays + 1;
        }
        if ratio >= EXTREME_THRESHOLD {
          recentExtremeDays := recentExtremeDays + 1;
        }
      }
      windowSum, windowCount := SlideBaseline(points, i, windowSum, windowCount);
    }
    stats := SpikeStats(recentCount, recentRatioSum, recentMaxRatio, recentMaxVolume, recentMaxDate,
                        recentSpikeDays, recentExtremeDays);
    spike := None;
    if recentCount >= MIN_RECENT_DAYS {
      if recentMaxRatio >= EXTREME_THRESHOLD {
        spike := Some(VolumeSpikeExtreme);
      } else if recentMaxRatio >= SPIKE_THRESHOLD {
        spike := Some(VolumeSpike);
      }
    }
  }

  /** The peak is the largest ratio of the detection window (and at least 0),
      and when positive it is the ratio of a day in the window whose volume and
      date are reported with it. */
  lemma {:induction false} StatsPeak(points: seq<PricePoint>, recentStart: nat, n: nat)
    requires n <= |points|
    ensures var st := Stats(points, recentStart, n);
      st.maxRatio >= 0.0
      && (forall k :: recentStart <= k < n ==> Ratio(points, k) <= st.maxRatio)
      && (st.maxRatio > 0.0 ==> exists k :: (recentStart <= k < n && Ratio(points, k) == st.maxRatio
                                          && st.maxVolume == VolumeOrZero(points[k]) && st.maxDate == points[k].date))
    decreases n
  {
    if n > 0 {
      StatsPeak(points, recentStart, n - 1);
    }
  }

  /** Day counts: the threshold days are among the days with a ratio. */
  lemma {:induction false} StatsCounts(points: seq<PricePoint>, recentStart: nat, n: nat)
    requires n <= |points|
    ensures var st := Stats(points, recentStart, n);
      st.extremeDays <= st.spikeDays <= st.count && st.count <= n
    decreases n
  {
    if n > 0 {
      StatsCounts(points, recentStart, n - 1);
    }
  }

  /** The label is "extreme" iff, with at least three days carrying a ratio, some
      day of the detection window reached 2.2; it is the plain spike iff some
      day reached 1.8 but none 2.2. */
  lemma SpikeLabelMeaning(points: seq<PricePoint>)
    requires |points| > 1
    ensures var rs := RecentStart(|points|);
      var st := Stats(points, rs, |points|);
      (SpikeOf(points) == Some(VolumeSpikeExtreme) <==>
        st.count >= MIN_RECENT_DAYS && exists k :: rs <= k < |points| && Ratio(points, k) >= EXTREME_THRESHOLD)
      && (SpikeOf(points) == Some(VolumeSpike) <==>
        st.count >= MIN_RECENT_DAYS
        && (exists k :: rs <= k < |points| && Ratio(points, k) >= SPIKE_THRESHOLD)
        && forall k :: rs <= k < |points| ==> Ratio(points, k) < EXTREME_THRESHOLD)
  {
    StatsPeak(points, RecentStart(|points|), |points|);
  }
}
