/** Shared vocabulary of the model: optional values, real-number statistics,
    decimal rounding, ASCII text helpers, order-preserving de-duplication and a
    stable sort. Every analytics file of the dashboard uses some of these. */
module Common {

  /** `T | null` (and `T | undefined`) of the source. */
  datatype Option<T> = None | Some(value: T)

  // ---------------------------------------------------------------------------
  // Sums, means, sample variance (the `reduce((acc, v) => acc + v, 0)` idiom)
  // ---------------------------------------------------------------------------

  /** Left-to-right sum, as `reduce` computes it. */
  function Sum(s: seq<real>): real
    decreases |s|
  {
    if s == [] then 0.0 else Sum(s[..|s| - 1]) + s[|s| - 1]
  }

  function Mean(s: seq<real>): real
    requires |s| > 0
  {
    Sum(s) / (|s| as real)
  }

  /** Sum of squared deviations from `mean`, accumulated left to right. */
  function SquaredDeviations(s: seq<real>, mean: real): (r: real)
    ensures r >= 0.0
    decreases |s|
  {
    if s == [] then 0.0
    else
      var d := s[|s| - 1] - mean;
      SquaredDeviations(s[..|s| - 1], mean) + d * d
  }

  /** Sample variance (divides by n - 1). */
  function SampleVariance(s: seq<real>): (v: real)
    requires |s| >= 2
    ensures v >= 0.0
  {
    SquaredDeviations(s, Mean(s)) / ((|s| - 1) as real)
  }

  lemma {:induction false} SumBounds(s: seq<real>, lo: real, hi: real)
    requires forall i :: 0 <= i < |s| ==> lo <= s[i] <= hi
    ensures (|s| as real) * lo <= Sum(s) <= (|s| as real) * hi
    decreases |s|
  {
    if s != [] {
      var n := |s| - 1;
      SumBounds(s[..n], lo, hi);
      assert (|s| as real) * lo == (n as real) * lo + lo;
      assert (|s| as real) * hi == (n as real) * hi + hi;
    }
  }

  /** A mean lies between any lower and upper bound of its values. */
  lemma MeanBounds(s: seq<real>, lo: real, hi: real)
    requires |s| > 0
    requires forall i :: 0 <= i < |s| ==> lo <= s[i] <= hi
    ensures lo <= Mean(s) <= hi
  {
    SumBounds(s, lo, hi);
    var n := |s| as real;
    assert Sum(s) / n >= lo by { assert Sum(s) >= n * lo; }
    assert Sum(s) / n <= hi by { assert Sum(s) <= n * hi; }
  }

  /** The largest value of a non-empty list (`Math.max(...s)`). */
  function SeqMax(s: seq<real>): (m: real)
    requires |s| > 0
    ensures m in s
    ensures forall i :: 0 <= i < |s| ==> s[i] <= m
    decreases |s|
  {
    if |s| == 1 then s[0]
    else
      var p := SeqMax(s[..|s| - 1]);
      assert p in s[..|s| - 1];
      if s[|s| - 1] > p then s[|s| - 1] else p
  }

  /** The smallest value of a non-empty list (`Math.min(...s)`). */
  function SeqMin(s: seq<real>): (m: real)
    requires |s| > 0
    ensures m in s
    ensures forall i :: 0 <= i < |s| ==> m <= s[i]
    decreases |s|
  {
    if |s| == 1 then s[0]
    else
      var p := SeqMin(s[..|s| - 1]);
      assert p in s[..|s| - 1];
      if s[|s| - 1] < p then s[|s| - 1] else p
  }

  /** The last `n` entries (all of them when there are fewer): `s.slice(-n)`. */
  function TakeLast<T>(s: seq<T>, n: nat): (r: seq<T>)
    ensures |r| == if |s| <= n then |s| else n
    ensures r == s[|s| - |r|..]
  {
    if |s| <= n then s else s[|s| - n..]
  }

  lemma {:induction false} SquaredDeviationsOfConstant(s: seq<real>, c: real)
    requires forall i :: 0 <= i < |s| ==> s[i] == c
    ensures SquaredDeviations(s, c) == 0.0
    decreases |s|
  {
    if s != [] {
      SquaredDeviationsOfConstant(s[..|s| - 1], c);
    }
  }

  /** When every value is the same, the sample variance is exactly zero. */
  lemma ConstantVarianceIsZero(s: seq<real>, c: real)
    requires |s| >= 2
    requires forall i :: 0 <= i < |s| ==> s[i] == c
    ensures Mean(s) == c
    ensures SampleVariance(s) == 0.0
  {
    MeanBounds(s, c, c);
    SquaredDeviationsOfConstant(s, c);
  }

  // ---------------------------------------------------------------------------
  // Small facts about real multiplication and division
  // ---------------------------------------------------------------------------

  lemma MulLtMono(x: real, y: real, s: real)
    requires s > 0.0 && x < y
    ensures x * s < y * s
  {}

  /** Multiplying both sides by a positive number keeps a comparison. */
  lemma CompareByProduct(f: real, c: real, s: real)
    requires s > 0.0
    ensures f > c <==> f * s > c * s
    ensures f < c <==> f * s < c * s
  {
    if f > c { MulLtMono(c, f, s); }
    if f < c { MulLtMono(f, c, s); }
  }

  lemma DivMulId(a: real, b: real)
    requires b != 0.0
    ensures (a / b) * b == a
  {}

  lemma ProductSign(q: real, a: real, b: real)
    requires b > 0.0 && q * b == a
    ensures q > 0.0 <==> a > 0.0
    ensures q < 0.0 <==> a < 0.0
  {
    if q > 0.0 { MulLtMono(0.0, q, b); }
    if q < 0.0 { MulLtMono(q, 0.0, b); }
  }

  lemma ProductAboveMinusOne(q: real, a: real, b: real)
    requires b > 0.0 && q * b == a
    ensures q > -1.0 <==> a > -b
  {
    if q > -1.0 { MulLtMono(-1.0, q, b); }
    if q <= -1.0 { if q < -1.0 { MulLtMono(q, -1.0, b); } }
  }

  /** How a quotient by a positive number compares with 0 and with -1. */
  lemma QuotientFacts(a: real, b: real)
    requires b > 0.0
    ensures a / b > 0.0 <==> a > 0.0
    ensures a / b < 0.0 <==> a < 0.0
    ensures a / b > -1.0 <==> a > -b
  {
    DivMulId(a, b);
    ProductSign(a / b, a, b);
    ProductAboveMinusOne(a / b, a, b);
  }

  // ---------------------------------------------------------------------------
  // Foreign floating-point functions
  // ---------------------------------------------------------------------------

  /** `Math.sqrt` and `Math.log`, which the model does not compute. */
  datatype MathOps = MathOps(sqrt: real -> real, ln: real -> real)

  /** The only facts about `Math.sqrt` the model relies on: it is non-negative
      on non-negative arguments and zero exactly at zero. */
  ghost predicate SqrtSound(sqrt: real -> real)
  {
    forall x :: 0.0 <= x ==> 0.0 <= sqrt(x) && (sqrt(x) == 0.0 <==> x == 0.0)
  }

  // ---------------------------------------------------------------------------
  // Decimal rounding: `Number(value.toFixed(digits))`
  // ---------------------------------------------------------------------------

  function Pow10(d: nat): (p: real)
    ensures p >= 1.0
  {
    if d == 0 then 1.0 else 10.0 * Pow10(d - 1)
  }

  /** The integer nearest to `m`, halves rounded up. */
  function HalfUp(m: real): int
  {
    (m + 0.5).Floor
  }

  /** Rounds to a multiple of `1 / scale`, halves away from zero. */
  function RoundAt(x: real, scale: real): real
    requires scale > 0.0
  {
    if x >= 0.0 then (HalfUp(x * scale) as real) / scale
    else -((HalfUp(-x * scale) as real) / scale)
  }

  /** Rounds to `digits` decimals, halves away from zero, as `toFixed` does on
      the exact value it is given. */
  function Round(x: real, digits: nat): real
  {
    RoundAt(x, Pow10(digits))
  }

  lemma HalfUpLe(a: real, b: real)
    requires a <= b
    ensures HalfUp(a) <= HalfUp(b)
  {}

  lemma HalfUpNonNegative(a: real)
    requires a >= 0.0
    ensures HalfUp(a) >= 0
  {}

  lemma HalfUpOfInt(k: int)
    ensures HalfUp(k as real) == k
  {}

  lemma MulLe(x: real, y: real, s: real)
    requires x <= y && s > 0.0
    ensures x * s <= y * s
  {}

  lemma DivLe(a: real, b: real, s: real)
    requires a <= b && s > 0.0
    ensures a / s <= b / s
  {}

  lemma MulDiv(x: real, s: real, m: real)
    requires s > 0.0 && x * s == m
    ensures m / s == x
  {}

  /** Rounding keeps the sign: non-negative values stay non-negative. */
  lemma RoundAtNonNegative(x: real, scale: real)
    requires x >= 0.0 && scale > 0.0
    ensures RoundAt(x, scale) >= 0.0
  {
    MulLe(0.0, x, scale);
    HalfUpNonNegative(x * scale);
    DivLe(0.0, HalfUp(x * scale) as real, scale);
  }

  /** Rounding keeps the sign: negative values do not become positive. */
  lemma RoundAtNonPositive(x: real, scale: real)
    requires x < 0.0 && scale > 0.0
    ensures RoundAt(x, scale) <= 0.0
  {
    MulLe(0.0, -x, scale);
    HalfUpNonNegative(-x * scale);
    DivLe(0.0, HalfUp(-x * scale) as real, scale);
  }

  lemma RoundAtMonotone(x: real, y: real, scale: real)
    requires x <= y && scale > 0.0
    ensures RoundAt(x, scale) <= RoundAt(y, scale)
  {
    if 0.0 <= x {
      MulLe(x, y, scale);
      HalfUpLe(x * scale, y * scale);
      var a, b := HalfUp(x * scale), HalfUp(y * scale);
      assert a as real <= b as real;
      DivLe(a as real, b as real, scale);
    } else if y < 0.0 {
      MulLe(-y, -x, scale);
      HalfUpLe(-y * scale, -x * scale);
      var a, b := HalfUp(-y * scale), HalfUp(-x * scale);
      assert a as real <= b as real;
      DivLe(a as real, b as real, scale);
    } else {
      RoundAtNonPositive(x, scale);
      RoundAtNonNegative(y, scale);
    }
  }

  /** Rounding never reorders two values. */
  lemma RoundMonotone(x: real, y: real, digits: nat)
    requires x <= y
    ensures Round(x, digits) <= Round(y, digits)
  {
    RoundAtMonotone(x, y, Pow10(digits));
  }

  /** The sign of a value survives rounding. */
  lemma RoundSign(x: real, digits: nat)
    ensures x >= 0.0 ==> Round(x, digits) >= 0.0
    ensures x <= 0.0 ==> Round(x, digits) <= 0.0
  {
    if x >= 0.0 { RoundAtNonNegative(x, Pow10(digits)); }
    if x < 0.0 { RoundAtNonPositive(x, Pow10(digits)); }
  }

  lemma RoundAtFixes(x: real, scale: real, k: int)
    requires scale > 0.0 && x * scale == k as real
    ensures RoundAt(x, scale) == x
  {
    if x >= 0.0 {
      HalfUpOfInt(k);
      MulDiv(x, scale, k as real);
    } else {
      assert -x * scale == (-k) as real;
      HalfUpOfInt(-k);
      MulDiv(-x, scale, (-k) as real);
    }
  }

  /** A value that is a whole number of `10^-digits` steps (`k` of them) is
      left unchanged. */
  lemma RoundFixes(x: real, digits: nat, k: int)
    requires x * Pow10(digits) == k as real
    ensures Round(x, digits) == x
  {
    RoundAtFixes(x, Pow10(digits), k);
  }

  /** Rounding keeps a value inside any range whose ends have at most `digits`
      decimals. */
  lemma RoundWithin(x: real, lo: real, hi: real, digits: nat, klo: int, khi: int)
    requires lo <= x <= hi
    requires lo * Pow10(digits) == klo as real && hi * Pow10(digits) == khi as real
    ensures lo <= Round(x, digits) <= hi
  {
    RoundMonotone(lo, x, digits);
    RoundMonotone(x, hi, digits);
    RoundFixes(lo, digits, klo);
    RoundFixes(hi, digits, khi);
  }

  /** Rounding to whole numbers keeps a value inside integer bounds. */
  lemma RoundWithinWhole(x: real, lo: int, hi: int)
    requires lo as real <= x <= hi as real
    ensures lo as real <= Round(x, 0) <= hi as real
  {
    assert Pow10(0) == 1.0;
    RoundWithin(x, lo as real, hi as real, 0, lo, hi);
  }

  /** Rounding to cents keeps a value inside integer bounds. */
  lemma RoundWithinCents(x: real, lo: int, hi: int)
    requires lo as real <= x <= hi as real
    ensures lo as real <= Round(x, 2) <= hi as real
  {
    assert Pow10(2) == 100.0;
    RoundWithin(x, lo as real, hi as real, 2, lo * 100, hi * 100);
  }

  // ---------------------------------------------------------------------------
  // ASCII characters and strings
  // ---------------------------------------------------------------------------

  predicate IsLowerAscii(c: char) { 'a' <= c <= 'z' }
  predicate IsUpperAscii(c: char) { 'A' <= c <= 'Z' }
  predicate IsDigit(c: char) { '0' <= c <= '9' }

  /** The characters JavaScript's `trim` and `\s` treat as white space, ASCII
      part only. */
  predicate IsSpace(c: char)
  {
    c == ' ' || c == '\t' || c == '\n' || c == '\r' || c as int == 11 || c as int == 12
  }

  function ToLowerChar(c: char): (r: char)
    ensures !IsUpperAscii(r)
  {
    if IsUpperAscii(c) then (c as int + 32) as char else c
  }

  function ToUpperChar(c: char): (r: char)
    ensures !IsLowerAscii(r)
  {
    if IsLowerAscii(c) then (c as int - 32) as char else c
  }

  function ToLower(s: string): (r: string)
    ensures |r| == |s|
  {
    seq(|s|, i requires 0 <= i < |s| => ToLowerChar(s[i]))
  }

  function ToUpper(s: string): (r: string)
    ensures |r| == |s|
  {
    seq(|s|, i requires 0 <= i < |s| => ToUpperChar(s[i]))
  }

  function TrimStart(s: string): (r: string)
    ensures |r| <= |s| && r == s[|s| - |r|..]
    ensures r == [] || !IsSpace(r[0])
    decreases |s|
  {
    if |s| > 0 && IsSpace(s[0]) then TrimStart(s[1..]) else s
  }

  function TrimEnd(s: string): (r: string)
    ensures |r| <= |s| && r == s[..|r|]
    ensures r == [] || !IsSpace(r[|r| - 1])
    decreases |s|
  {
    if |s| > 0 && IsSpace(s[|s| - 1]) then TrimEnd(s[..|s| - 1]) else s
  }

  /** `String.prototype.trim`. */
  function Trim(s: string): (r: string)
    ensures r == [] || (!IsSpace(r[0]) && !IsSpace(r[|r| - 1]))
  {
    TrimEnd(TrimStart(s))
  }

  lemma TrimStartOfTrimmed(s: string)
    requires s == [] || !IsSpace(s[0])
    ensures TrimStart(s) == s
  {}

  lemma TrimEndOfTrimmed(s: string)
    requires s == [] || !IsSpace(s[|s| - 1])
    ensures TrimEnd(s) == s
  {}

  /** Text without white space at either end is its own trim. */
  lemma TrimOfTrimmed(s: string)
    requires s == [] || (!IsSpace(s[0]) && !IsSpace(s[|s| - 1]))
    ensures Trim(s) == s
  {
    TrimStartOfTrimmed(s);
    TrimEndOfTrimmed(s);
  }

  /** Index of the first `c` in `s`, or -1 (`indexOf`). */
  function IndexOf(s: string, c: char): (i: int)
    ensures -1 <= i < |s|
    ensures i >= 0 ==> s[i] == c && c !in s[..i]
    ensures i == -1 ==> c !in s
    decreases |s|
  {
    if s == [] then -1
    else if s[0] == c then 0
    else
      var j := IndexOf(s[1..], c);
      assert s == [s[0]] + s[1..];
      if j == -1 then -1 else j + 1
  }

  /** `s.split(sep)` for a one-character separator: always at least one piece. */
  function Split(s: string, sep: char): (parts: seq<string>)
    ensures |parts| >= 1
    decreases |s|
  {
    var i := IndexOf(s, sep);
    if i == -1 then [s] else [s[..i]] + Split(s[i + 1..], sep)
  }

  /** No piece of a split contains the separator. */
  lemma {:induction false} SplitPiecesFree(s: string, sep: char)
    ensures forall k :: 0 <= k < |Split(s, sep)| ==> sep !in Split(s, sep)[k]
    decreases |s|
  {
    var i := IndexOf(s, sep);
    if i != -1 {
      SplitPiecesFree(s[i + 1..], sep);
      var tail := Split(s[i + 1..], sep);
      assert Split(s, sep) == [s[..i]] + tail;
    }
  }

  /** `parts.join(sep)`. */
  function Join(parts: seq<string>, sep: string): string
  {
    if |parts| == 0 then ""
    else if |parts| == 1 then parts[0]
    else parts[0] + sep + Join(parts[1..], sep)
  }

  /** Splitting and joining again with the same separator gives back the text. */
  lemma {:induction false} SplitJoin(s: string, sep: char)
    ensures Join(Split(s, sep), [sep]) == s
    decreases |s|
  {
    var i := IndexOf(s, sep);
    if i != -1 {
      var rest := s[i + 1..];
      SplitJoin(rest, sep);
      var tail := Split(rest, sep);
      SplitAtFirst(s, sep, i);
      RejoinAt(s, i, tail, sep);
    } else {
      assert Split(s, sep) == [s];
    }
  }

  lemma SplitAtFirst(s: string, sep: char, i: nat)
    requires i == IndexOf(s, sep)
    ensures Split(s, sep) == [s[..i]] + Split(s[i + 1..], sep)
  {}

  lemma RejoinAt(s: string, i: nat, tail: seq<string>, sep: char)
    requires i < |s| && s[i] == sep && |tail| >= 1 && Join(tail, [sep]) == s[i + 1..]
    ensures Join([s[..i]] + tail, [sep]) == s
  {
    JoinCons(s[..i], tail, [sep]);
    PieceAround(s, i);
  }

  /** A sequence is the part before position `i`, the element there and the rest. */
  lemma PieceAround<T>(s: seq<T>, i: nat)
    requires i < |s|
    ensures s == s[..i] + [s[i]] + s[i + 1..]
  {}

  lemma JoinCons(first: string, rest: seq<string>, sep: string)
    requires |rest| >= 1
    ensures Join([first] + rest, sep) == first + sep + Join(rest, sep)
  {
    assert ([first] + rest)[1..] == rest;
  }

  lemma IndexOfFirst(a: string, c: char, b: string)
    requires c !in a
    ensures IndexOf(a + [c] + b, c) == |a|
  {
    var s := a + [c] + b;
    assert s[|a|] == c;
  }

  /** Joining pieces free of the separator and splitting again gives back the
      pieces. */
  lemma {:induction false} JoinSplit(parts: seq<string>, sep: char)
    requires |parts| >= 1
    requires forall k :: 0 <= k < |parts| ==> sep !in parts[k]
    ensures Split(Join(parts, [sep]), sep) == parts
    decreases |parts|
  {
    if |parts| == 1 {
      assert IndexOf(parts[0], sep) == -1;
    } else {
      var rest := Join(parts[1..], [sep]);
      assert Join(parts, [sep]) == parts[0] + [sep] + rest;
      IndexOfFirst(parts[0], sep, rest);
      JoinSplit(parts[1..], sep);
      assert (parts[0] + [sep] + rest)[..|parts[0]|] == parts[0];
      assert (parts[0] + [sep] + rest)[|parts[0]| + 1..] == rest;
      assert parts == [parts[0]] + parts[1..];
    }
  }

  // ---------------------------------------------------------------------------
  // Order-preserving de-duplication: `Array.from(new Set(xs))`
  // ---------------------------------------------------------------------------

  predicate NoDuplicates<T(==)>(s: seq<T>)
  {
    forall i, j :: 0 <= i < j < |s| ==> s[i] != s[j]
  }

  /** Position of the first occurrence of `x` in `s`. */
  function FirstIndex<T(==)>(s: seq<T>, x: T): (i: nat)
    requires x in s
    ensures i < |s| && s[i] == x && x !in s[..i]
    decreases |s|
  {
    if s[0] == x then 0
    else
      assert s == [s[0]] + s[1..];
      FirstIndex(s[1..], x) + 1
  }

  lemma FirstIndexUnique<T>(s: seq<T>, x: T, i: nat)
    requires i < |s| && s[i] == x && x !in s[..i]
    ensures FirstIndex(s, x) == i
  {
    var j := FirstIndex(s, x);
    assert forall k :: 0 <= k < i ==> s[k] != x by {
      forall k | 0 <= k < i ensures s[k] != x { assert s[k] == s[..i][k]; }
    }
    assert forall k :: 0 <= k < j ==> s[k] != x by {
      forall k | 0 <= k < j ensures s[k] != x { assert s[k] == s[..j][k]; }
    }
  }

  /** Keeps the first occurrence of every element, in input order. */
  function Dedup<T(==)>(s: seq<T>): (r: seq<T>)
    ensures |r| <= |s|
    ensures NoDuplicates(r)
    ensures forall i :: 0 <= i < |r| ==> r[i] in s
    ensures forall i :: 0 <= i < |s| ==> s[i] in r
    decreases |s|
  {
    if s == [] then []
    else
      var d := Dedup(s[..|s| - 1]);
      var x := s[|s| - 1];
      assert s == s[..|s| - 1] + [x];
      if x in d then d else d + [x]
  }

  /** The elements of `Dedup(s)` come in the order of their first occurrence in `s`. */
  lemma {:induction false} DedupFirstOccurrenceOrder<T>(s: seq<T>)
    ensures forall i, j :: 0 <= i < j < |Dedup(s)| ==>
              FirstIndex(s, Dedup(s)[i]) < FirstIndex(s, Dedup(s)[j])
    decreases |s|
  {
    if s != [] {
      var n := |s| - 1;
      var p := s[..n];
      var x := s[n];
      var d := Dedup(p);
      DedupFirstOccurrenceOrder(p);
      assert s == p + [x];
      forall y | y in p
        ensures FirstIndex(s, y) == FirstIndex(p, y)
      {
        var k := FirstIndex(p, y);
        assert s[..k] == p[..k];
        FirstIndexUnique(s, y, k);
      }
      if x !in d {
        assert x !in p;
        FirstIndexUnique(s, x, n);
        forall i, j | 0 <= i < j < |Dedup(s)|
          ensures FirstIndex(s, Dedup(s)[i]) < FirstIndex(s, Dedup(s)[j])
        {
          assert Dedup(s) == d + [x];
          if j < |d| {
            assert Dedup(s)[i] == d[i] && Dedup(s)[j] == d[j];
          } else {
            assert Dedup(s)[i] == d[i];
            assert d[i] in p;
          }
        }
      }
    }
  }

  /** De-duplicating a concatenation keeps the de-duplicated first part in front. */
  lemma {:induction false} DedupPrefix<T>(a: seq<T>, b: seq<T>)
    ensures |Dedup(a)| <= |Dedup(a + b)|
    ensures Dedup(a + b)[..|Dedup(a)|] == Dedup(a)
    decreases |b|
  {
    if b == [] {
      assert a + b == a;
    } else {
      var b' := b[..|b| - 1];
      DedupPrefix(a, b');
      assert (a + b)[..|a + b| - 1] == a + b';
    }
  }

  /** A list without repeats is its own de-duplication. */
  lemma {:induction false} DedupOfDistinct<T>(s: seq<T>)
    requires NoDuplicates(s)
    ensures Dedup(s) == s
    decreases |s|
  {
    if s != [] {
      var n := |s| - 1;
      DedupOfDistinct(s[..n]);
      assert s[n] !in s[..n];
      assert s == s[..n] + [s[n]];
    }
  }

  // ---------------------------------------------------------------------------
  // Stable sort by a numeric key: `[...xs].sort((a, b) => key(a) - key(b))`
  // ---------------------------------------------------------------------------

  predicate SortedBy<T>(s: seq<T>, key: T -> real)
  {
    forall i, j :: 0 <= i < j < |s| ==> key(s[i]) <= key(s[j])
  }

  /** Inserts `x` after every element whose key is not greater than its own. */
  function InsertBy<T>(x: T, s: seq<T>, key: T -> real): (r: seq<T>)
    requires SortedBy(s, key)
    ensures SortedBy(r, key)
    ensures multiset(r) == multiset(s) + multiset{x}
    decreases |s|
  {
    if s == [] then [x]
    else if key(x) < key(s[0]) then [x] + s
    else
      var t := InsertBy(x, s[1..], key);
      assert s == [s[0]] + s[1..];
      InsertedAbove(x, s, t, key);
      [s[0]] + t
  }

  /** Inserting `x`, whose key is not below the head's, into the tail of a
      sorted sequence keeps the head in front. */
  lemma InsertedAbove<T>(x: T, s: seq<T>, t: seq<T>, key: T -> real)
    requires s != [] && SortedBy(s, key) && key(s[0]) <= key(x)
    requires SortedBy(t, key) && multiset(t) == multiset(s[1..]) + multiset{x}
    ensures SortedBy([s[0]] + t, key)
  {
    forall k | 0 <= k < |t| ensures key(s[0]) <= key(t[k]) {
      assert t[k] in multiset(t);
      if t[k] != x {
        assert t[k] in multiset(s[1..]);
        var j :| 0 <= j < |s[1..]| && s[1..][j] == t[k];
        assert s[j + 1] == t[k];
      }
    }
    var r := [s[0]] + t;
    forall i, j | 0 <= i < j < |r| ensures key(r[i]) <= key(r[j]) {
      if i > 0 {
        assert r[i] == t[i - 1] && r[j] == t[j - 1];
      } else {
        assert r[j] == t[j - 1];
      }
    }
  }

  /** Insertion sort; later elements go after earlier ones with the same key,
      so the sort is stable like `Array.prototype.sort`. */
  function SortBy<T>(s: seq<T>, key: T -> real): (r: seq<T>)
    ensures SortedBy(r, key)
    ensures multiset(r) == multiset(s)
    ensures |r| == |s|
    decreases |s|
  {
    if s == [] then []
    else
      var n := |s| - 1;
      assert s == s[..n] + [s[n]];
      var r := InsertBy(s[n], SortBy(s[..n], key), key);
      assert |r| == |multiset(r)|;
      r
  }

  /** `s[i]` has the smallest key, and every earlier entry a larger one. */
  predicate IsFirstMin<T>(s: seq<T>, key: T -> real, i: int)
  {
    && 0 <= i < |s|
    && (forall j :: 0 <= j < |s| ==> key(s[i]) <= key(s[j]))
    && (forall j :: 0 <= j < i ==> key(s[i]) < key(s[j]))
  }

  /** `s[i]` has the largest key, and every later entry a smaller one. */
  predicate IsLastMax<T>(s: seq<T>, key: T -> real, i: int)
  {
    && 0 <= i < |s|
    && (forall j :: 0 <= j < |s| ==> key(s[j]) <= key(s[i]))
    && (forall j :: i < j < |s| ==> key(s[j]) < key(s[i]))
  }

  lemma InsertByHead<T>(x: T, t: seq<T>, key: T -> real)
    requires SortedBy(t, key)
    ensures |InsertBy(x, t, key)| == |t| + 1
    ensures InsertBy(x, t, key)[0] == if t == [] || key(x) < key(t[0]) then x else t[0]
  {
    var r := InsertBy(x, t, key);
    assert |r| == |multiset(r)| == |multiset(t)| + 1 == |t| + 1;
  }

  lemma {:induction false} InsertByLast<T>(x: T, t: seq<T>, key: T -> real)
    requires SortedBy(t, key)
    ensures |InsertBy(x, t, key)| == |t| + 1
    ensures InsertBy(x, t, key)[|t|] == if t == [] || key(t[|t| - 1]) <= key(x) then x else t[|t| - 1]
    decreases |t|
  {
    InsertByHead(x, t, key);
    if t != [] && key(t[0]) <= key(x) {
      var u := t[1..];
      assert SortedBy(u, key);
      InsertByLast(x, u, key);
      assert InsertBy(x, t, key) == [t[0]] + InsertBy(x, u, key);
      if u != [] {
        assert u[|u| - 1] == t[|t| - 1];
      }
    }
  }

  /** The first entry of the stable sort is the first entry of the input with
      the smallest key. */
  lemma {:induction false} SortByHead<T>(s: seq<T>, key: T -> real)
    requires |s| > 0
    ensures exists i :: IsFirstMin(s, key, i) && SortBy(s, key)[0] == s[i]
    decreases |s|
  {
    var n := |s| - 1;
    var p := s[..n];
    var t := SortBy(p, key);
    assert SortBy(s, key) == InsertBy(s[n], t, key);
    InsertByHead(s[n], t, key);
    if n == 0 {
      assert IsFirstMin(s, key, 0);
    } else {
      SortByHead(p, key);
      var i :| IsFirstMin(p, key, i) && t[0] == p[i];
      FirstMinExtend(s, key, i);
    }
  }

  lemma FirstMinExtend<T>(s: seq<T>, key: T -> real, i: int)
    requires |s| > 1 && IsFirstMin(s[..|s| - 1], key, i)
    ensures key(s[|s| - 1]) < key(s[i]) ==> IsFirstMin(s, key, |s| - 1)
    ensures key(s[i]) <= key(s[|s| - 1]) ==> IsFirstMin(s, key, i)
  {
    var n := |s| - 1;
    assert forall j :: 0 <= j < n ==> s[..n][j] == s[j];
  }

  /** The last entry of the stable sort is the last entry of the input with
      the largest key. */
  lemma {:induction false} SortByLast<T>(s: seq<T>, key: T -> real)
    requires |s| > 0
    ensures exists i :: IsLastMax(s, key, i) && SortBy(s, key)[|s| - 1] == s[i]
    decreases |s|
  {
    var n := |s| - 1;
    var p := s[..n];
    var t := SortBy(p, key);
    assert SortBy(s, key) == InsertBy(s[n], t, key);
    InsertByLast(s[n], t, key);
    if n == 0 {
      assert IsLastMax(s, key, 0);
    } else {
      SortByLast(p, key);
      var i :| IsLastMax(p, key, i) && t[n - 1] == p[i];
      LastMaxExtend(s, key, i);
    }
  }

  lemma LastMaxExtend<T>(s: seq<T>, key: T -> real, i: int)
    requires |s| > 1 && IsLastMax(s[..|s| - 1], key, i)
    ensures key(s[i]) <= key(s[|s| - 1]) ==> IsLastMax(s, key, |s| - 1)
    ensures key(s[|s| - 1]) < key(s[i]) ==> IsLastMax(s, key, i)
  {
    var n := |s| - 1;
    assert forall j :: 0 <= j < n ==> s[..n][j] == s[j];
  }

  predicate DistinctKeys<T>(s: seq<T>, key: T -> real)
  {
    forall i, j :: 0 <= i < j < |s| ==> key(s[i]) != key(s[j])
  }

  lemma OccursOnce<T>(a: seq<T>, k: nat, key: T -> real)
    requires DistinctKeys(a, key) && k < |a|
    ensures multiset(a)[a[k]] == 1
  {
    assert a == a[..k] + [a[k]] + a[k + 1..];
    assert a[k] !in a[..k] by {
      forall m | 0 <= m < k ensures a[..k][m] != a[k] { assert key(a[m]) != key(a[k]); }
    }
    assert a[k] !in a[k + 1..] by {
      forall m | k + 1 <= m < |a| ensures a[m] != a[k] { assert key(a[k]) != key(a[m]); }
    }
  }

  lemma OccursTwice<T>(b: seq<T>, i: nat, j: nat)
    requires i < j < |b| && b[i] == b[j]
    ensures multiset(b)[b[i]] >= 2
  {
    assert b == b[..i] + [b[i]] + b[i + 1..j] + [b[j]] + b[j + 1..];
  }

  lemma DistinctKeysOfPermutation<T>(a: seq<T>, b: seq<T>, key: T -> real)
    requires multiset(a) == multiset(b)
    requires DistinctKeys(a, key)
    ensures DistinctKeys(b, key)
  {
    forall i, j | 0 <= i < j < |b| ensures key(b[i]) != key(b[j]) {
      assert b[i] in multiset(a) && b[j] in multiset(a);
      var i' :| 0 <= i' < |a| && a[i'] == b[i];
      var j' :| 0 <= j' < |a| && a[j'] == b[j];
      if b[i] == b[j] {
        OccursTwice(b, i, j);
        OccursOnce(a, i', key);
        assert false;
      } else if i' < j' {
        assert key(a[i']) != key(a[j']);
      } else {
        assert key(a[j']) != key(a[i']);
      }
    }
  }

  lemma SortedHeadsEqual<T>(a: seq<T>, b: seq<T>, key: T -> real)
    requires SortedBy(a, key) && SortedBy(b, key)
    requires DistinctKeys(a, key)
    requires multiset(a) == multiset(b)
    requires a != [] && b != []
    ensures a[0] == b[0]
  {
    assert a[0] in multiset(b);
    var j :| 0 <= j < |b| && b[j] == a[0];
    assert b[0] in multiset(a);
    var i :| 0 <= i < |a| && a[i] == b[0];
    assert key(a[0]) <= key(a[i]);
    assert key(b[0]) <= key(b[j]);
    assert key(a[i]) == key(a[0]);
    assert forall k :: 0 < k < |a| ==> key(a[0]) != key(a[k]);
  }

  /** Dropping element `j` drops one copy of it from the multiset. */
  lemma MultisetRemoveAt<T>(s: seq<T>, j: nat)
    requires j < |s|
    ensures multiset(s[..j] + s[j + 1..]) == multiset(s) - multiset{s[j]}
  {
    PieceAround(s, j);
  }

  lemma TailsPermutation<T>(a: seq<T>, b: seq<T>)
    requires a != [] && b != [] && a[0] == b[0]
    requires multiset(a) == multiset(b)
    ensures multiset(a[1..]) == multiset(b[1..])
  {
    assert a == [a[0]] + a[1..];
    assert b == [b[0]] + b[1..];
    assert multiset(a) == multiset{a[0]} + multiset(a[1..]);
    assert multiset(b) == multiset{b[0]} + multiset(b[1..]);
    assert multiset(a[1..]) == multiset(a) - multiset{a[0]};
    assert multiset(b[1..]) == multiset(b) - multiset{b[0]};
  }

  /** Two sorted orderings of the same elements with distinct keys coincide. */
  lemma {:induction false} SortedPermutationUnique<T>(a: seq<T>, b: seq<T>, key: T -> real)
    requires SortedBy(a, key) && SortedBy(b, key)
    requires DistinctKeys(a, key)
    requires multiset(a) == multiset(b)
    ensures a == b
    decreases |a|
  {
    assert |a| == |multiset(a)| == |multiset(b)| == |b|;
    if a != [] {
      SortedHeadsEqual(a, b, key);
      TailsPermutation(a, b);
      SortedPermutationUnique(a[1..], b[1..], key);
      assert a == [a[0]] + a[1..];
      assert b == [b[0]] + b[1..];
    }
  }

  /** Sorting forgets the input order when keys are distinct. */
  lemma SortByPermutationInvariant<T>(a: seq<T>, b: seq<T>, key: T -> real)
    requires multiset(a) == multiset(b)
    requires DistinctKeys(a, key)
    ensures SortBy(a, key) == SortBy(b, key)
  {
    var sa, sb := SortBy(a, key), SortBy(b, key);
    DistinctKeysOfPermutation(a, sa, key);
    SortedPermutationUnique(sa, sb, key);
  }

  // ---------------------------------------------------------------------------
  // Keeping the present values of a list of optional values
  // ---------------------------------------------------------------------------

  /** The values of the `Some` entries, in order (a filter-and-push loop). */
  function Somes<T>(s: seq<Option<T>>): (r: seq<T>)
    ensures |r| <= |s|
    decreases |s|
  {
    if s == [] then []
    else
      var last := s[|s| - 1];
      Somes(s[..|s| - 1]) + (if last.Some? then [last.value] else [])
  }

  /** Entry `k` of `Somes(s)` comes from the position of `s` that is preceded by
      exactly `k` present entries: the order of the input is kept. */
  lemma {:induction false} SomesOrigin<T>(s: seq<Option<T>>, k: nat)
    requires k < |Somes(s)|
    ensures exists i :: 0 <= i < |s| && s[i] == Some(Somes(s)[k]) && |Somes(s[..i])| == k
    decreases |s|
  {
    var n := |s| - 1;
    assert s[..n][..n] == s[..n];
    if k < |Somes(s[..n])| {
      SomesOrigin(s[..n], k);
      var i :| 0 <= i < n && s[..n][i] == Some(Somes(s[..n])[k]) && |Somes(s[..n][..i])| == k;
      assert s[..n][..i] == s[..i];
    } else {
      assert s[n] == Some(Somes(s)[k]);
    }
  }

  // ---------------------------------------------------------------------------
  // Ticker symbols: `symbol.trim().toUpperCase()`, blanks dropped, de-duplicated
  // ---------------------------------------------------------------------------

  /** Non-empty, no lower-case ASCII letter, no white space at either end. */
  predicate CleanSymbol(x: string)
  {
    x != [] && (forall k :: 0 <= k < |x| ==> !IsLowerAscii(x[k]))
    && !IsSpace(x[0]) && !IsSpace(x[|x| - 1])
  }

  /** Upper-casing a trimmed, non-empty string gives a clean symbol: no
      lower-case letter is left and the ends stay non-blank. */
  lemma UpperOfTrimmed(t: string)
    requires t != [] && !IsSpace(t[0]) && !IsSpace(t[|t| - 1])
    ensures CleanSymbol(ToUpper(t))
  {
    var r := ToUpper(t);
    assert r[0] == ToUpperChar(t[0]);
    assert r[|r| - 1] == ToUpperChar(t[|t| - 1]);
  }

  /** `symbol.trim().toUpperCase()`. */
  function NormalizeSymbol(s: string): (r: string)
    ensures r != [] ==> CleanSymbol(r)
  {
    var t := Trim(s);
    if t == [] then ToUpper(t)
    else
      UpperOfTrimmed(t);
      ToUpper(t)
  }

  /** `filter(Boolean)` on strings: drops the empty ones. */
  function NonEmpty(xs: seq<string>): (r: seq<string>)
    ensures forall i :: 0 <= i < |r| ==> r[i] != [] && r[i] in xs
    ensures forall x :: x in xs && x != [] ==> x in r
    decreases |xs|
  {
    if xs == [] then []
    else if xs[0] == [] then NonEmpty(xs[1..])
    else [xs[0]] + NonEmpty(xs[1..])
  }

  function MapNormalize(symbols: seq<string>): (r: seq<string>)
    ensures |r| == |symbols|
    ensures forall i :: 0 <= i < |symbols| ==> r[i] == NormalizeSymbol(symbols[i])
  {
    seq(|symbols|, i requires 0 <= i < |symbols| => NormalizeSymbol(symbols[i]))
  }

  /** Trimmed, upper-cased, blank ones dropped, then de-duplicated in
      first-occurrence order: the symbols a fundamentals sync runs over and the
      symbols a group is saved with. */
  function NormalizeSymbols(symbols: seq<string>): (r: seq<string>)
    ensures NoDuplicates(r)
    ensures forall i :: 0 <= i < |r| ==> CleanSymbol(r[i])
  {
    Dedup(NonEmpty(MapNormalize(symbols)))
  }

  /** A clean symbol is its own normal form. */
  lemma NormalizeClean(s: string)
    requires CleanSymbol(s)
    ensures NormalizeSymbol(s) == s
  {
    TrimOfTrimmed(s);
    UpperOfClean(s);
  }

  lemma UpperOfClean(s: string)
    requires CleanSymbol(s)
    ensures ToUpper(s) == s
  {
    forall k | 0 <= k < |s| ensures ToUpper(s)[k] == s[k] {
      assert !IsLowerAscii(s[k]);
    }
  }

  /** Clean symbols are their own normal forms. */
  lemma MapNormalizeOfClean(symbols: seq<string>)
    requires forall k :: 0 <= k < |symbols| ==> CleanSymbol(symbols[k])
    ensures MapNormalize(symbols) == symbols
  {
    var normalized := MapNormalize(symbols);
    forall k | 0 <= k < |symbols| ensures normalized[k] == symbols[k] {
      NormalizeClean(symbols[k]);
    }
  }

  lemma {:induction false} NonEmptyOfNonEmpty(xs: seq<string>)
    requires forall k :: 0 <= k < |xs| ==> xs[k] != []
    ensures NonEmpty(xs) == xs
    decreases |xs|
  {
    if xs != [] {
      NonEmptyOfNonEmpty(xs[1..]);
    }
  }

  /** A list of clean symbols without repeats is already normalised, so saving
      it sends it unchanged. */
  lemma NormalizeSymbolsOfClean(symbols: seq<string>)
    requires forall k :: 0 <= k < |symbols| ==> CleanSymbol(symbols[k])
    requires NoDuplicates(symbols)
    ensures NormalizeSymbols(symbols) == symbols
  {
    MapNormalizeOfClean(symbols);
    NonEmptyOfNonEmpty(symbols);
    DedupOfDistinct(symbols);
  }

  /** A symbol is synced iff it is the non-empty normal form of a requested one. */
  lemma NormalizeSymbolsMembers(symbols: seq<string>, x: string)
    ensures x in NormalizeSymbols(symbols) <==> x != [] && exists s :: s in symbols && NormalizeSymbol(s) == x
  {
    var normalized := MapNormalize(symbols);
    var kept := NonEmpty(normalized);
    if x in NormalizeSymbols(symbols) {
      assert x in kept;
      var j :| 0 <= j < |kept| && kept[j] == x;
      assert x != [] && x in normalized;
      var k :| 0 <= k < |normalized| && normalized[k] == x;
      assert NormalizeSymbol(symbols[k]) == x && symbols[k] in symbols;
    }
    if x != [] && exists s :: s in symbols && NormalizeSymbol(s) == x {
      var s :| s in symbols && NormalizeSymbol(s) == x;
      var k :| 0 <= k < |symbols| && symbols[k] == s;
      assert normalized[k] == x;
      assert x in kept;
    }
  }
}
