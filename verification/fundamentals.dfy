/** Fundamentals sync helpers: quarter numbers, the date-keyed series map built
    from one Yahoo time series, trailing-twelve-month EPS over the sorted
    quarters and the P/E guard. The symbol list a sync runs over is
    `Common.NormalizeSymbols`. */
module Fundamentals {
  import opened Common

  // ---------------------------------------------------------------------------
  // Quarters
  // ---------------------------------------------------------------------------

  /** A zero-based month, as `getUTCMonth` returns it. */
  type Month = m: int | 0 <= m < 12

  /** `toQuarter`: the calendar quarter holding a month. */
  function ToQuarter(month: Month): (q: int)
    ensures 1 <= q <= 4
    ensures 3 * (q - 1) <= month < 3 * q
  {
    month / 3 + 1
  }

  /** `Q` or `q` followed by a digit 1 to 4 starts at position `i`. */
  predicate QuarterAt(s: string, i: int)
  {
    0 <= i < |s| - 1 && (s[i] == 'Q' || s[i] == 'q') && '1' <= s[i + 1] <= '4'
  }

  function QuarterDigit(s: string, i: int): (n: int)
    requires QuarterAt(s, i)
    ensures 1 <= n <= 4
  {
    s[i + 1] as int - '0' as int
  }

  /** The leftmost match of `/Q([1-4])/i` at or after `from`. */
  function FindQuarterFrom(s: string, from: nat): (r: Option<int>)
    ensures r.Some? <==> exists i :: from <= i && QuarterAt(s, i)
    ensures r.Some? ==> exists i :: from <= i && QuarterAt(s, i) && r.value == QuarterDigit(s, i)
                          && forall j :: from <= j < i ==> !QuarterAt(s, j)
    decreases |s| - from
  {
    if from + 1 >= |s| then None
    else if QuarterAt(s, from) then Some(QuarterDigit(s, from))
    else
      var r := FindQuarterFrom(s, from + 1);
      assert forall i :: from <= i && QuarterAt(s, i) ==> from + 1 <= i;
      r
  }

  /** `parseQuarter`: anything that is not a string (`None`) has no quarter;
      a string has the quarter of its first `Qn`, case-insensitive. */
  function ParseQuarter(value: Option<string>): (r: Option<int>)
    ensures r.Some? ==> 1 <= r.value <= 4
    ensures r.Some? <==> value.Some? && exists i :: QuarterAt(value.value, i)
    ensures r.Some? ==> exists i :: QuarterAt(value.value, i) && r.value == QuarterDigit(value.value, i)
                          && forall j :: 0 <= j < i ==> !QuarterAt(value.value, j)
  {
    if value.None? then None
    else
      var r := FindQuarterFrom(value.value, 0);
      assert forall i :: QuarterAt(value.value, i) ==> 0 <= i;
      r
  }

  // ---------------------------------------------------------------------------
  // buildSeriesMap
  // ---------------------------------------------------------------------------

  /** One entry of a Yahoo time series. */
  datatype SeriesEntry = SeriesEntry(asOfDate: Option<string>, reported: Option<real>, currencyCode: Option<string>)

  /** `if (entry.asOfDate)`: present and not the empty string. */
  predicate Dated(e: SeriesEntry)
  {
    e.asOfDate.Some? && e.asOfDate.value != ""
  }

  /** The map after setting every dated entry in order. */
  function SeriesMap(entries: seq<SeriesEntry>): (m: map<string, SeriesEntry>)
    ensures forall d :: d in m ==> d != ""
    ensures forall d :: d in m ==> m[d].asOfDate == Some(d)
    decreases |entries|
  {
    if entries == [] then map[]
    else
      var n := |entries| - 1;
      var m := SeriesMap(entries[..n]);
      var e := entries[n];
      if Dated(e) then m[e.asOfDate.value := e] else m
  }

  /** `buildSeriesMap`: `entries ?? []`, then one `set` per dated entry. */
  method BuildSeriesMap(entries: Option<seq<SeriesEntry>>) returns (m: map<string, SeriesEntry>)
    ensures m == SeriesMap(if entries.Some? then entries.value else [])
  {
    var list := if entries.Some? then entries.value else [];
    m := map[];
    var i := 0;
    while i < |list|
      invariant 0 <= i <= |list|
      invariant m == SeriesMap(list[..i])
    {
      var e := list[i];
      assert list[..i + 1][..i] == list[..i];
      if e.asOfDate.Some? && e.asOfDate.value != "" {
        m := m[e.asOfDate.value := e];
      }
      i := i + 1;
    }
    assert list[..i] == list;
  }

  /** The keys are exactly the dates of the dated entries. */
  lemma {:induction false} SeriesMapKeys(entries: seq<SeriesEntry>, d: string)
    ensures d in SeriesMap(entries) <==>
      exists k :: 0 <= k < |entries| && Dated(entries[k]) && entries[k].asOfDate.value == d
    decreases |entries|
  {
    if entries != [] {
      var n := |entries| - 1;
      SeriesMapKeys(entries[..n], d);
      assert forall k :: 0 <= k < n ==> entries[..n][k] == entries[k];
    }
  }

  /** For a repeated date the last entry carrying it wins. */
  lemma {:induction false} SeriesMapLastWins(entries: seq<SeriesEntry>, k: nat)
    requires k < |entries| && Dated(entries[k])
    requires forall j :: k < j < |entries| ==> entries[j].asOfDate != entries[k].asOfDate
    ensures entries[k].asOfDate.value in SeriesMap(entries)
    ensures SeriesMap(entries)[entries[k].asOfDate.value] == entries[k]
    decreases |entries|
  {
    var n := |entries| - 1;
    if k < n {
      assert entries[..n][k] == entries[k];
      SeriesMapLastWins(entries[..n], k);
    }
  }

  // ---------------------------------------------------------------------------
  // buildTtmEps
  // ---------------------------------------------------------------------------

  /** One fetched quarter; `periodEnd` is its time in milliseconds. */
  datatype Period = Period(periodEnd: int, epsBasic: Option<real>, epsDiluted: Option<real>)

  /** `row.epsDiluted ?? row.epsBasic ?? null`. */
  function EpsOf(p: Period): (e: Option<real>)
    ensures p.epsDiluted.Some? ==> e == p.epsDiluted
    ensures p.epsDiluted.None? ==> e == p.epsBasic
  {
    if p.epsDiluted.Some? then p.epsDiluted else p.epsBasic
  }

  function PeriodKey(p: Period): real
  {
    p.periodEnd as real
  }

  /** The quarters ascending by period end, ties in input order. */
  function ByPeriodEnd(rows: seq<Period>): (s: seq<Period>)
    ensures |s| == |rows| && multiset(s) == multiset(rows)
    ensures forall i, j :: 0 <= i < j < |s| ==> s[i].periodEnd <= s[j].periodEnd
  {
    var s := SortBy(rows, PeriodKey);
    assert forall i, j :: 0 <= i < j < |s| ==> PeriodKey(s[i]) <= PeriodKey(s[j]);
    s
  }

  function EpsSeries(sorted: seq<Period>): (eps: seq<Option<real>>)
    ensures |eps| == |sorted|
    ensures forall i :: 0 <= i < |sorted| ==> eps[i] == EpsOf(sorted[i])
  {
    seq(|sorted|, i requires 0 <= i < |sorted| => EpsOf(sorted[i]))
  }

  /** `reduce((acc, value) => acc + (value ?? 0), 0)`. */
  function FoldSum(w: seq<Option<real>>): real
    decreases |w|
  {
    if w == [] then 0.0
    else
      var last := w[|w| - 1];
      FoldSum(w[..|w| - 1]) + (if last.Some? then last.value else 0.0)
  }

  lemma FoldSumFour(w: seq<Option<real>>)
    requires |w| == 4 && forall k :: 0 <= k < 4 ==> w[k].Some?
    ensures FoldSum(w) == w[0].value + w[1].value + w[2].value + w[3].value
  {
    var w3 := w[..3];
    var w2 := w3[..2];
    var w1 := w2[..1];
    assert w1[..0] == [];
    assert FoldSum(w1) == w[0].value;
    assert FoldSum(w2) == FoldSum(w1) + w[1].value;
    assert FoldSum(w3) == FoldSum(w2) + w[2].value;
  }

  /** The value set for position `i`: null for the first three quarters and
      for any window of four holding a null, else the window's sum. */
  function TtmAt(eps: seq<Option<real>>, i: nat): (t: Option<real>)
    requires i < |eps|
    ensures i < 3 ==> t.None?
    ensures i >= 3 ==> (t.Some? <==> forall k :: i - 3 <= k <= i ==> eps[k].Some?)
    ensures t.Some? ==> t.value == eps[i - 3].value + eps[i - 2].value + eps[i - 1].value + eps[i].value
  {
    if i < 3 then None
    else
      var w := eps[i - 3..i + 1];
      assert forall k :: 0 <= k < 4 ==> w[k] == eps[i - 3 + k];
      if exists k :: 0 <= k < 4 && w[k].None? then None
      else
        FoldSumFour(w);
        Some(FoldSum(w))
  }

  /** The map after the first `n` iterations of the loop. */
  function TtmMap(sorted: seq<Period>, eps: seq<Option<real>>, n: nat): (m: map<int, Option<real>>)
    requires n <= |sorted| == |eps|
    ensures m.Keys == set k | 0 <= k < n :: sorted[k].periodEnd
  {
    if n == 0 then map[]
    else TtmMap(sorted, eps, n - 1)[sorted[n - 1].periodEnd := TtmAt(eps, n - 1)]
  }

  /** `buildTtmEps`: TTM EPS keyed by period end (the ISO string of a time is
      one-to-one, so the time itself serves as the key). */
  method BuildTtmEps(rows: seq<Period>) returns (ttm: map<int, Option<real>>)
    ensures ttm == TtmMap(ByPeriodEnd(rows), EpsSeries(ByPeriodEnd(rows)), |rows|)
  {
    var sorted := ByPeriodEnd(rows);
    var eps := EpsSeries(sorted);
    ttm := map[];
    for i := 0 to |sorted|
      invariant ttm == TtmMap(sorted, eps, i)
    {
      if i < 3 {
        ttm := ttm[sorted[i].periodEnd := None];
        continue;
      }
      var window := eps[i - 3..i + 1];
      if exists k :: 0 <= k < 4 && window[k].None? {
        ttm := ttm[sorted[i].periodEnd := None];
        continue;
      }
      var sum := FoldSum(window);
      ttm := ttm[sorted[i].periodEnd := Some(sum)];
    }
  }

  /** With distinct period ends every quarter keeps the value of its own
      position in the sorted order. */
  lemma {:induction false} TtmMapAt(sorted: seq<Period>, eps: seq<Option<real>>, n: nat, k: nat)
    requires n <= |sorted| == |eps| && k < n
    requires forall i, j :: 0 <= i < j < |sorted| ==> sorted[i].periodEnd != sorted[j].periodEnd
    ensures TtmMap(sorted, eps, n)[sorted[k].periodEnd] == TtmAt(eps, k)
    decreases n
  {
    if k < n - 1 {
      TtmMapAt(sorted, eps, n - 1, k);
    }
  }

  /** The properties of `buildTtmEps` for quarters with distinct period ends:
      the first three sorted quarters get null, every later one the sum of its
      own and the three previous EPS values when all four are present. */
  lemma TtmEps(rows: seq<Period>, k: nat)
    requires k < |rows|
    requires forall i, j :: 0 <= i < j < |rows| ==> rows[i].periodEnd != rows[j].periodEnd
    ensures var s := ByPeriodEnd(rows);
      var ttm := TtmMap(s, EpsSeries(s), |rows|);
      var eps := EpsSeries(s);
      s[k].periodEnd in ttm
      && (k < 3 ==> ttm[s[k].periodEnd].None?)
      && (k >= 3 ==>
            (ttm[s[k].periodEnd].Some? <==> forall j :: k - 3 <= j <= k ==> EpsOf(s[j]).Some?))
      && (ttm[s[k].periodEnd].Some? ==>
            ttm[s[k].periodEnd].value == eps[k - 3].value + eps[k - 2].value + eps[k - 1].value + eps[k].value)
  {
    var s := ByPeriodEnd(rows);
    forall i, j | 0 <= i < j < |s| ensures s[i].periodEnd != s[j].periodEnd {
      DistinctAfterPermutation(rows, s, i, j);
    }
    TtmMapAt(s, EpsSeries(s), |rows|, k);
  }

  /** Two positions of a permutation of a sequence with distinct period ends
      hold different period ends. */
  lemma DistinctAfterPermutation(rows: seq<Period>, s: seq<Period>, i: nat, j: nat)
    requires multiset(s) == multiset(rows)
    requires forall a, b :: 0 <= a < b < |rows| ==> rows[a].periodEnd != rows[b].periodEnd
    requires i < j < |s|
    ensures s[i].periodEnd != s[j].periodEnd
  {
    assert s[i] in multiset(rows) && s[j] in multiset(rows);
    var a :| 0 <= a < |rows| && rows[a] == s[i];
    var b :| 0 <= b < |rows| && rows[b] == s[j];
    if a == b {
      // the same row twice in `s` would occur twice in `rows`
      assert multiset(s)[s[i]] >= 2 by {
        MultisetTwice(s, i, j);
      }
      MultisetOnce(rows, a);
      assert false;
    }
  }

  lemma MultisetTwice<T>(s: seq<T>, i: nat, j: nat)
    requires i < j < |s| && s[i] == s[j]
    ensures multiset(s)[s[i]] >= 2
  {
    assert s == s[..i] + [s[i]] + s[i + 1..j] + [s[j]] + s[j + 1..];
  }

  /** In a sequence with distinct period ends each row occurs once. */
  lemma MultisetOnce(rows: seq<Period>, a: nat)
    requires a < |rows|
    requires forall x, y :: 0 <= x < y < |rows| ==> rows[x].periodEnd != rows[y].periodEnd
    ensures multiset(rows)[rows[a]] == 1
  {
    assert rows == rows[..a] + [rows[a]] + rows[a + 1..];
    assert rows[a] !in rows[..a] by {
      forall x | 0 <= x < a ensures rows[..a][x] != rows[a] {
        assert rows[..a][x] == rows[x];
      }
    }
    assert rows[a] !in rows[a + 1..] by {
      assert forall x :: a < x < |rows| ==> rows[x] != rows[a];
    }
  }

  // ---------------------------------------------------------------------------
  // P/E
  // ---------------------------------------------------------------------------

  /** `epsTtm && epsTtm > 0 && priceClose ? priceClose / epsTtm : null`: a
      price of 0 is falsy and yields null as well. */
  function PeTtm(epsTtm: Option<real>, priceClose: Option<real>): (pe: Option<real>)
    ensures pe.Some? <==> epsTtm.Some? && epsTtm.value > 0.0 && priceClose.Some? && priceClose.value != 0.0
    ensures pe.Some? ==> pe.value * epsTtm.value == priceClose.value
    ensures pe.Some? ==> (pe.value > 0.0 <==> priceClose.value > 0.0)
  {
    if epsTtm.Some? && epsTtm.value > 0.0 && priceClose.Some? && priceClose.value != 0.0 then
      Some(priceClose.value / epsTtm.value)
    else None
  }

  /** What is written back for one quarter: its TTM EPS (`ttmMap.get(...) ??
      null`) and the P/E computed from it and the latest close on or before
      the period end, which the caller looks up. */
  function Valuation(ttm: map<int, Option<real>>, periodEnd: int, priceClose: Option<real>)
    : (r: (Option<real>, Option<real>))
    ensures periodEnd !in ttm ==> r.0.None? && r.1.None?
    ensures periodEnd in ttm ==> r.0 == ttm[periodEnd]
    ensures r.1 == PeTtm(r.0, priceClose)
  {
    var eps := if periodEnd in ttm then ttm[periodEnd] else None;
    (eps, PeTtm(eps, priceClose))
  }
}
