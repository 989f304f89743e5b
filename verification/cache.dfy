/** The daily-bar cache: which trading days between two dates are not stored
    yet, grouped into maximal runs, and the arithmetic `ensureBars` does around
    that search (the end-date clamp, the fetch window, the in-range filter).

    Dates are whole UTC days counted from 1970-01-01, so `addDays` is integer
    addition and `toDateOnly` is the identity on day numbers. */
module Cache {
  import opened Common
  import opened Metrics

  /** An inclusive run of days. */
  datatype DateRange = DateRange(start: int, end: int)

  /** `getUTCDay`: 0 is Sunday, 6 is Saturday; day 0 (1970-01-01) was a Thursday. */
  function Weekday(day: int): (w: int)
    ensures 0 <= w < 7
  {
    (day + 4) % 7
  }

  predicate IsTradingDay(day: int)
  {
    Weekday(day) != 0 && Weekday(day) != 6
  }

  /** Trading days are exactly the weekdays Monday to Friday, and every week
      holds two days off: 1970-01-03 and 1970-01-04 were a Saturday and a
      Sunday. */
  lemma TradingWeek(day: int)
    ensures IsTradingDay(day) <==> 1 <= Weekday(day) <= 5
    ensures !IsTradingDay(day) <==> Weekday(day) == 0 || Weekday(day) == 6
    ensures IsTradingDay(0) && !IsTradingDay(2) && !IsTradingDay(3) && IsTradingDay(4)
    ensures Weekday(day + 7) == Weekday(day)
    ensures IsTradingDay(day + 7) == IsTradingDay(day)
  {}

  /** A day the cache should fetch: a trading day not yet stored. */
  predicate Missing(day: int, have: set<int>)
  {
    IsTradingDay(day) && day !in have
  }

  /** `Missing` as a predicate on days, for the scan below. */
  function MissingDays(have: set<int>): int -> bool
  {
    d => Missing(d, have)
  }

  predicate Covered(ranges: seq<DateRange>, day: int)
  {
    exists k :: 0 <= k < |ranges| && ranges[k].start <= day <= ranges[k].end
  }

  /** Non-empty ranges in ascending order with at least one day between two
      neighbours. */
  predicate Separated(ranges: seq<DateRange>)
  {
    && (forall k :: 0 <= k < |ranges| ==> ranges[k].start <= ranges[k].end)
    && (forall k :: 0 < k < |ranges| ==> ranges[k - 1].end + 2 <= ranges[k].start)
  }

  /** Every day of the range is a `miss` day. */
  predicate AllMissing(r: DateRange, miss: int -> bool)
  {
    forall d :: r.start <= d <= r.end ==> miss(d)
  }

  /** Every day of every range is a `miss` day of [start, end]. */
  predicate OnlyMissing(ranges: seq<DateRange>, start: int, end: int, miss: int -> bool)
  {
    forall k :: 0 <= k < |ranges| ==>
      start <= ranges[k].start && ranges[k].end <= end && AllMissing(ranges[k], miss)
  }

  /** Every `miss` day of [start, end] lies in some range. */
  predicate CoversMissing(ranges: seq<DateRange>, start: int, end: int, miss: int -> bool)
  {
    forall d :: start <= d <= end && miss(d) ==> Covered(ranges, d)
  }

  /** No range could be extended by a day at either end. */
  predicate Maximal(ranges: seq<DateRange>, start: int, end: int, miss: int -> bool)
  {
    forall k :: 0 <= k < |ranges| ==>
      && (ranges[k].start == start || !miss(ranges[k].start - 1))
      && (ranges[k].end == end || !miss(ranges[k].end + 1))
  }

  /** The open range, if any: it started at a `miss` day that follows a day
      that is not one, after the last closed range, and every day since is a
      `miss` day. */
  predicate OpenRangeOk(start: int, cursor: int, miss: int -> bool, ranges: seq<DateRange>, openRange: Option<int>)
  {
    && (openRange.None? ==> cursor == start || !miss(cursor - 1))
    && (openRange.Some? ==>
          && start <= openRange.value < cursor
          && (forall d :: openRange.value <= d < cursor ==> miss(d))
          && (openRange.value == start || !miss(openRange.value - 1))
          && (|ranges| > 0 ==> ranges[|ranges| - 1].end + 2 <= openRange.value))
  }

  /** What the scan of `findMissingRanges` knows once every day before
      `cursor` has been visited: the closed ranges are final, and every `miss`
      day so far is in a closed range or in the open one. */
  predicate ScanInv(start: int, cursor: int, miss: int -> bool, ranges: seq<DateRange>, openRange: Option<int>)
  {
    && Separated(ranges)
    && OnlyMissing(ranges, start, cursor - 1, miss)
    && (forall k :: 0 <= k < |ranges| ==> ranges[k].end + 1 < cursor)
    && Maximal(ranges, start, cursor - 1, miss)
    && OpenRangeOk(start, cursor, miss, ranges, openRange)
    && (forall d :: start <= d < cursor && miss(d) ==>
          Covered(ranges, d) || (openRange.Some? && openRange.value <= d))
  }

  /** A `miss` day opens a range, or extends the open one. */
  lemma ScanMissingDay(start: int, cursor: int, miss: int -> bool, ranges: seq<DateRange>, openRange: Option<int>)
    requires start <= cursor && ScanInv(start, cursor, miss, ranges, openRange) && miss(cursor)
    ensures ScanInv(start, cursor + 1, miss, ranges, if openRange.None? then Some(cursor) else openRange)
  {
    var o := if openRange.None? then Some(cursor) else openRange;
    assert OpenRangeOk(start, cursor + 1, miss, ranges, o);
  }

  /** Appending a range keeps the earlier ranges' coverage. */
  lemma CoveredAppend(ranges: seq<DateRange>, r: DateRange, d: int)
    ensures Covered(ranges, d) ==> Covered(ranges + [r], d)
    ensures r.start <= d <= r.end ==> Covered(ranges + [r], d)
  {
    var t := ranges + [r];
    if Covered(ranges, d) {
      var k :| 0 <= k < |ranges| && ranges[k].start <= d <= ranges[k].end;
      assert t[k] == ranges[k];
    }
    if r.start <= d <= r.end {
      assert t[|ranges|] == r;
    }
  }

  /** Closing the open range `[o, e]` keeps the ranges separated. */
  lemma SeparatedClose(ranges: seq<DateRange>, o: int, e: int)
    requires Separated(ranges) && o <= e
    requires |ranges| > 0 ==> ranges[|ranges| - 1].end + 2 <= o
    ensures Separated(ranges + [DateRange(o, e)])
  {
    var r := ranges + [DateRange(o, e)];
    assert forall k :: 0 <= k < |ranges| ==> r[k] == ranges[k];
  }

  /** Closing an all-`miss` range inside [start, hi] keeps every range made of
      `miss` days of [start, hi]. */
  lemma OnlyMissingClose(ranges: seq<DateRange>, start: int, lo: int, hi: int, miss: int -> bool, o: int, e: int)
    requires OnlyMissing(ranges, start, lo, miss) && lo <= hi
    requires start <= o && e <= hi && AllMissing(DateRange(o, e), miss)
    ensures OnlyMissing(ranges + [DateRange(o, e)], start, hi, miss)
  {
    var r := ranges + [DateRange(o, e)];
    assert forall k :: 0 <= k < |ranges| ==> r[k] == ranges[k];
  }

  /** Closing a range that cannot grow at either end keeps every range
      maximal, when the earlier ranges all end before `lo`. */
  lemma MaximalClose(ranges: seq<DateRange>, start: int, lo: int, hi: int, miss: int -> bool, o: int, e: int)
    requires Maximal(ranges, start, lo, miss)
    requires forall k :: 0 <= k < |ranges| ==> ranges[k].end < lo
    requires o == start || !miss(o - 1)
    requires e == hi || !miss(e + 1)
    ensures Maximal(ranges + [DateRange(o, e)], start, hi, miss)
  {
    var r := ranges + [DateRange(o, e)];
    assert forall k :: 0 <= k < |ranges| ==> r[k] == ranges[k];
  }

  /** Closing the open range on `cursor - 1` covers every `miss` day up to
      `hi`, when `hi` is that day or the next, not missing, day. */
  lemma CoversClose(ranges: seq<DateRange>, start: int, cursor: int, hi: int, miss: int -> bool, o: int)
    requires forall d :: start <= d < cursor && miss(d) ==> Covered(ranges, d) || o <= d
    requires hi == cursor - 1 || (hi == cursor && !miss(cursor))
    ensures forall d :: start <= d <= hi && miss(d) ==> Covered(ranges + [DateRange(o, cursor - 1)], d)
  {
    forall d | start <= d <= hi && miss(d) ensures Covered(ranges + [DateRange(o, cursor - 1)], d) {
      CoveredAppend(ranges, DateRange(o, cursor - 1), d);
    }
  }

  /** A day that is not a `miss` day closes the open range on the day before. */
  lemma ScanCloseRange(start: int, cursor: int, miss: int -> bool, ranges: seq<DateRange>, openRange: Option<int>)
    requires start <= cursor && ScanInv(start, cursor, miss, ranges, openRange)
    requires openRange.Some? && !miss(cursor)
    ensures ScanInv(start, cursor + 1, miss, ranges + [DateRange(openRange.value, cursor - 1)], None)
  {
    var o := openRange.value;
    var r := ranges + [DateRange(o, cursor - 1)];
    SeparatedClose(ranges, o, cursor - 1);
    OnlyMissingClose(ranges, start, cursor - 1, cursor, miss, o, cursor - 1);
    MaximalClose(ranges, start, cursor - 1, cursor, miss, o, cursor - 1);
    CoversClose(ranges, start, cursor, cursor, miss, o);
    assert forall k :: 0 <= k < |ranges| ==> r[k] == ranges[k];
  }

  /** A day that is not a `miss` day with no range open changes nothing. */
  lemma ScanSkipDay(start: int, cursor: int, miss: int -> bool, ranges: seq<DateRange>)
    requires start <= cursor && ScanInv(start, cursor, miss, ranges, None) && !miss(cursor)
    ensures ScanInv(start, cursor + 1, miss, ranges, None)
  {
    assert OnlyMissing(ranges, start, cursor, miss);
    assert Maximal(ranges, start, cursor, miss);
    assert OpenRangeOk(start, cursor + 1, miss, ranges, None);
    assert forall d :: start <= d < cursor + 1 && miss(d) ==> Covered(ranges, d);
  }

  /** After the last day, the open range (if any) closes on `end`. */
  lemma ScanFinish(start: int, end: int, miss: int -> bool, ranges: seq<DateRange>, openRange: Option<int>)
    requires start <= end + 1 && ScanInv(start, end + 1, miss, ranges, openRange)
    ensures var r := if openRange.Some? then ranges + [DateRange(openRange.value, end)] else ranges;
      && Separated(r)
      && OnlyMissing(r, start, end, miss)
      && CoversMissing(r, start, end, miss)
      && Maximal(r, start, end, miss)
  {
    if openRange.Some? {
      var o := openRange.value;
      SeparatedClose(ranges, o, end);
      OnlyMissingClose(ranges, start, end, end, miss, o, end);
      MaximalClose(ranges, start, end, end, miss, o, end);
      CoversClose(ranges, start, end + 1, end, miss, o);
    }
  }

  /** One day of the scan: a missing day opens a range or extends the open
      one; any other day closes the open range on the day before. */
  method ScanDay(start: int, cursor: int, have: set<int>, ranges: seq<DateRange>, openRange: Option<int>)
    returns (ranges': seq<DateRange>, openRange': Option<int>)
    requires start <= cursor && ScanInv(start, cursor, MissingDays(have), ranges, openRange)
    ensures ScanInv(start, cursor + 1, MissingDays(have), ranges', openRange')
    ensures Missing(cursor, have) ==> ranges' == ranges && openRange'.Some?
    ensures !Missing(cursor, have) ==> openRange' == None
  {
    var miss := MissingDays(have);
    assert miss(cursor) == Missing(cursor, have);
    ranges', openRange' := ranges, openRange;
    if Missing(cursor, have) {
      ScanMissingDay(start, cursor, miss, ranges, openRange);
      if openRange.None? {
        openRange' := Some(cursor);
      }
    } else if openRange.Some? {
      ScanCloseRange(start, cursor, miss, ranges, openRange);
      ranges' := ranges + [DateRange(openRange.value, cursor - 1)];
      openRange' := None;
    } else {
      ScanSkipDay(start, cursor, miss, ranges);
    }
  }

  /** The `while (cursor <= end)` loop of `findMissingRanges`: visits every day
      from `start` to `end`, opening a range at a missing day and closing it
      before the next day that is not missing. */
  method ScanDays(start: int, end: int, have: set<int>) returns (ranges: seq<DateRange>, openRange: Option<int>)
    ensures start <= end ==> ScanInv(start, end + 1, MissingDays(have), ranges, openRange)
    ensures start > end ==> ranges == [] && openRange == None
  {
    ranges := [];
    var cursor := start;
    openRange := None;
    while cursor <= end
      invariant start <= cursor && (cursor <= end + 1 || cursor == start)
      invariant ScanInv(start, cursor, MissingDays(have), ranges, openRange)
      decreases end - cursor
    {
      ranges, openRange := ScanDay(start, cursor, have, ranges, openRange);
      cursor := cursor + 1;
    }
  }

  /** `findMissingRanges`: the maximal runs of missing trading days of
      [start, end], in ascending order; a range still open after `end` closes
      on `end`. */
  method FindMissingRanges(start: int, end: int, have: set<int>) returns (ranges: seq<DateRange>)
    ensures Separated(ranges)
    ensures OnlyMissing(ranges, start, end, MissingDays(have))
    ensures CoversMissing(ranges, start, end, MissingDays(have))
    ensures Maximal(ranges, start, end, MissingDays(have))
    ensures start > end ==> ranges == []
    ensures (forall d :: start <= d <= end ==> !Missing(d, have)) ==> ranges == []
  {
    var openRange;
    ranges, openRange := ScanDays(start, end, have);
    if start <= end {
      ScanFinish(start, end, MissingDays(have), ranges, openRange);
    }
    if openRange.Some? {
      ranges := ranges + [DateRange(openRange.value, end)];
    }
    if |ranges| > 0 {
      var miss := MissingDays(have);
      assert AllMissing(ranges[0], miss);
      assert miss(ranges[0].start);
    }
  }

  // ---------------------------------------------------------------------------
  // ensureBars arithmetic
  // ---------------------------------------------------------------------------

  /** The requested end, but never a day after today. */
  function EffectiveEnd(requestedEnd: int, today: int): (e: int)
    ensures e <= today && e <= requestedEnd
    ensures e == today || e == requestedEnd
  {
    if requestedEnd > today then today else requestedEnd
  }

  /** One fetch from the first missing start to the last missing end. */
  function FetchWindow(missing: seq<DateRange>): (w: Option<DateRange>)
    ensures w.Some? <==> |missing| > 0
    ensures Separated(missing) && |missing| > 0 ==>
      forall k :: 0 <= k < |missing| ==> w.value.start <= missing[k].start && missing[k].end <= w.value.end
  {
    if |missing| == 0 then None
    else
      assert Separated(missing) ==> SeparatedBoundsHold(missing) by {
        if Separated(missing) { SeparatedBounds(missing); }
      }
      Some(DateRange(missing[0].start, missing[|missing| - 1].end))
  }

  predicate SeparatedBoundsHold(ranges: seq<DateRange>)
    requires |ranges| > 0
  {
    && (forall k :: 0 <= k < |ranges| ==> ranges[0].start <= ranges[k].start)
    && (forall k :: 0 <= k < |ranges| ==> ranges[k].end <= ranges[|ranges| - 1].end)
  }

  lemma SeparatedBounds(ranges: seq<DateRange>)
    requires Separated(ranges) && |ranges| > 0
    ensures SeparatedBoundsHold(ranges)
  {
    forall k | 0 <= k < |ranges| ensures ranges[0].start <= ranges[k].start {
      SeparatedStarts(ranges, k);
    }
    forall k | 0 <= k < |ranges| ensures ranges[k].end <= ranges[|ranges| - 1].end {
      SeparatedEnds(ranges, k);
    }
  }

  lemma {:induction false} SeparatedStarts(ranges: seq<DateRange>, k: nat)
    requires Separated(ranges) && k < |ranges|
    ensures ranges[0].start <= ranges[k].start
  {
    if k > 0 {
      SeparatedStarts(ranges, k - 1);
    }
  }

  lemma {:induction false} SeparatedEnds(ranges: seq<DateRange>, k: nat)
    requires Separated(ranges) && k < |ranges|
    ensures ranges[k].end <= ranges[|ranges| - 1].end
    decreases |ranges| - k
  {
    if k < |ranges| - 1 {
      SeparatedEnds(ranges, k + 1);
    }
  }

  /** The fetched bars dated within [startDate, endDate], in fetched order. */
  function InRange(bars: seq<Bar>, startDate: int, endDate: int): (r: seq<Bar>)
    ensures |r| <= |bars|
    ensures forall k :: 0 <= k < |r| ==> startDate <= r[k].date <= endDate
    ensures forall b :: b in r <==> b in bars && startDate <= b.date <= endDate
    decreases |bars|
  {
    if bars == [] then []
    else
      var last := bars[|bars| - 1];
      assert bars == bars[..|bars| - 1] + [last];
      InRange(bars[..|bars| - 1], startDate, endDate) + (if startDate <= last.date <= endDate then [last] else [])
  }

  /** The cache decisions of `ensureBars` before any fetch: the effective end
      and the single window to fetch, if any day is missing. */
  method PlanFetch(startDate: int, requestedEnd: int, today: int, have: set<int>)
    returns (endDate: int, window: Option<DateRange>)
    ensures endDate == EffectiveEnd(requestedEnd, today)
    ensures window.Some? <==> exists d :: startDate <= d <= endDate && Missing(d, have)
    ensures window.Some? ==>
      && startDate <= window.value.start <= window.value.end <= endDate
      && Missing(window.value.start, have) && Missing(window.value.end, have)
      && forall d :: startDate <= d <= endDate && Missing(d, have) ==> window.value.start <= d <= window.value.end
  {
    endDate := EffectiveEnd(requestedEnd, today);
    var missing := FindMissingRanges(startDate, endDate, have);
    window := FetchWindow(missing);
    if exists d :: startDate <= d <= endDate && Missing(d, have) {
      var d :| startDate <= d <= endDate && Missing(d, have);
      assert MissingDays(have)(d);
      assert Covered(missing, d);
    }
    if |missing| > 0 {
      var last := |missing| - 1;
      var miss := MissingDays(have);
      assert miss(missing[0].start) && miss(missing[last].end);
      forall d | startDate <= d <= endDate && Missing(d, have)
        ensures window.value.start <= d <= window.value.end
      {
        assert miss(d);
        assert Covered(missing, d);
      }
    }
  }
}
