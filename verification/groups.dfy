/** Group helpers: the id slug made from a group's name, the member list a
    group is returned with, and the de-duplicated symbol list stored when a
    group is created or its members are replaced. */
module Groups {
  import opened Common

  // ---------------------------------------------------------------------------
  // slugify: lower-case, trim, runs of other characters to '-', strip edge '-'
  // ---------------------------------------------------------------------------

  /** A character the pattern `[a-z0-9]` accepts. */
  predicate IsSlugChar(c: char)
  {
    IsLowerAscii(c) || IsDigit(c)
  }

  /** Every character is a slug character or '-', and no two '-' are adjacent. */
  predicate DashSeparated(s: string)
  {
    (forall i :: 0 <= i < |s| ==> IsSlugChar(s[i]) || s[i] == '-')
    && (forall i :: 0 <= i < |s| - 1 ==> s[i] == '-' ==> s[i + 1] != '-')
  }

  /** The shape of a slug: dash-separated with no '-' at either end. */
  predicate IsSlug(s: string)
  {
    DashSeparated(s) && (s == [] || (s[0] != '-' && s[|s| - 1] != '-'))
  }

  /** Drops the leading characters that are not slug characters. */
  function SkipOthers(s: string): (r: string)
    ensures |r| <= |s| && r == s[|s| - |r|..]
    ensures r == [] || IsSlugChar(r[0])
    decreases |s|
  {
    if |s| > 0 && !IsSlugChar(s[0]) then SkipOthers(s[1..]) else s
  }

  /** `replace(/[^a-z0-9]+/g, "-")`: every maximal run of characters outside
      `[a-z0-9]` becomes one '-'. */
  function CollapseRuns(s: string): (r: string)
    ensures DashSeparated(r)
    ensures |s| > 0 && IsSlugChar(s[0]) ==> |r| > 0 && r[0] == s[0]
    decreases |s|
  {
    if s == [] then []
    else if IsSlugChar(s[0]) then [s[0]] + CollapseRuns(s[1..])
    else "-" + CollapseRuns(SkipOthers(s[1..]))
  }

  /** `replace(/(^-|-$)/g, "")`: one '-' removed at the start and one at the end. */
  function StripEdgeDashes(t: string): (r: string)
    ensures DashSeparated(t) ==> IsSlug(r)
  {
    var u := if |t| > 0 && t[0] == '-' then t[1..] else t;
    if |u| > 0 && u[|u| - 1] == '-' then u[..|u| - 1] else u
  }

  /** The group id made from its name (groups.ts `slugify`). */
  function Slugify(name: string): (r: string)
    ensures IsSlug(r)
  {
    StripEdgeDashes(CollapseRuns(Trim(ToLower(name))))
  }

  // ---------------------------------------------------------------------------
  // Idempotence
  // ---------------------------------------------------------------------------

  lemma ToLowerOfSlug(s: string)
    requires DashSeparated(s)
    ensures ToLower(s) == s
  {
    forall i | 0 <= i < |s| ensures ToLower(s)[i] == s[i] {
      assert IsSlugChar(s[i]) || s[i] == '-';
    }
  }

  /** A slug neither starts nor ends with white space, so trimming keeps it. */
  lemma TrimOfSlug(s: string)
    requires IsSlug(s)
    ensures Trim(s) == s
  {
    if s != [] {
      NotSpace(s[0]);
      NotSpace(s[|s| - 1]);
    }
    TrimOfTrimmed(s);
  }

  lemma NotSpace(c: char)
    requires IsSlugChar(c) || c == '-'
    ensures !IsSpace(c)
  {}

  /** The tail of a dash-separated text is dash-separated, and a leading '-'
      is followed by a slug character or nothing. */
  lemma DashSeparatedTail(s: string)
    requires DashSeparated(s) && s != []
    ensures DashSeparated(s[1..])
    ensures IsSlugChar(s[0]) || s[0] == '-'
    ensures s[0] == '-' && |s| > 1 ==> IsSlugChar(s[1])
  {}

  /** A dash-separated text has no run longer than one to collapse. */
  lemma {:induction false} CollapseRunsOfSlug(s: string)
    requires DashSeparated(s)
    ensures CollapseRuns(s) == s
    decreases |s|
  {
    if s != [] {
      var rest := s[1..];
      DashSeparatedTail(s);
      CollapseRunsOfSlug(rest);
      assert s == [s[0]] + rest;
      if IsSlugChar(s[0]) {
        assert CollapseRuns(s) == [s[0]] + CollapseRuns(rest);
      } else {
        assert SkipOthers(rest) == rest;
        assert CollapseRuns(s) == "-" + CollapseRuns(rest);
        assert "-" == [s[0]];
      }
    }
  }

  /** Slugifying a slug gives it back, so `Slugify` is idempotent. */
  lemma SlugifyFixesSlugs(s: string)
    requires IsSlug(s)
    ensures Slugify(s) == s
  {
    ToLowerOfSlug(s);
    TrimOfSlug(s);
    CollapseRunsOfSlug(s);
  }

  lemma SlugifyIdempotent(name: string)
    ensures Slugify(Slugify(name)) == Slugify(name)
  {
    SlugifyFixesSlugs(Slugify(name));
  }

  // ---------------------------------------------------------------------------
  // Letters and digits survive in order
  // ---------------------------------------------------------------------------

  /** The letters and digits of `s`, in order. */
  function SlugChars(s: string): (r: string)
    ensures forall i :: 0 <= i < |r| ==> IsSlugChar(r[i])
    decreases |s|
  {
    if s == [] then []
    else if IsSlugChar(s[0]) then [s[0]] + SlugChars(s[1..])
    else SlugChars(s[1..])
  }

  lemma {:induction false} SlugCharsAppend(a: string, b: string)
    ensures SlugChars(a + b) == SlugChars(a) + SlugChars(b)
    decreases |a|
  {
    if a != [] {
      var ab := a + b;
      assert ab != [] && ab[0] == a[0];
      assert ab[1..] == a[1..] + b;
      SlugCharsAppend(a[1..], b);
      if IsSlugChar(a[0]) {
        assert SlugChars(ab) == [a[0]] + SlugChars(a[1..] + b);
        assert SlugChars(a) == [a[0]] + SlugChars(a[1..]);
        assert [a[0]] + (SlugChars(a[1..]) + SlugChars(b)) == ([a[0]] + SlugChars(a[1..])) + SlugChars(b);
      } else {
        assert SlugChars(ab) == SlugChars(a[1..] + b);
      }
    } else {
      assert a + b == b;
    }
  }

  lemma {:induction false} SkipOthersKeeps(s: string)
    ensures SlugChars(SkipOthers(s)) == SlugChars(s)
    decreases |s|
  {
    if |s| > 0 && !IsSlugChar(s[0]) {
      SkipOthersKeeps(s[1..]);
    }
  }

  lemma {:induction false} CollapseRunsKeeps(s: string)
    ensures SlugChars(CollapseRuns(s)) == SlugChars(s)
    decreases |s|
  {
    if s != [] {
      if IsSlugChar(s[0]) {
        CollapseRunsKeeps(s[1..]);
        SlugCharsAppend([s[0]], CollapseRuns(s[1..]));
      } else {
        var t := SkipOthers(s[1..]);
        CollapseRunsKeeps(t);
        SkipOthersKeeps(s[1..]);
        SlugCharsAppend("-", CollapseRuns(t));
      }
    }
  }

  lemma {:induction false} TrimStartKeeps(s: string)
    ensures SlugChars(TrimStart(s)) == SlugChars(s)
    decreases |s|
  {
    if |s| > 0 && IsSpace(s[0]) {
      TrimStartKeeps(s[1..]);
      assert !IsSlugChar(s[0]);
      assert SlugChars(s) == SlugChars(s[1..]);
    }
  }

  lemma {:induction false} TrimEndKeeps(s: string)
    ensures SlugChars(TrimEnd(s)) == SlugChars(s)
    decreases |s|
  {
    if |s| > 0 && IsSpace(s[|s| - 1]) {
      var n := |s| - 1;
      TrimEndKeeps(s[..n]);
      assert s == s[..n] + [s[n]];
      SlugCharsAppend(s[..n], [s[n]]);
    }
  }

  lemma StripEdgeDashesKeeps(t: string)
    ensures SlugChars(StripEdgeDashes(t)) == SlugChars(t)
  {
    var u := if |t| > 0 && t[0] == '-' then t[1..] else t;
    if |t| > 0 && t[0] == '-' {
      assert t == [t[0]] + u;
      SlugCharsAppend([t[0]], u);
    }
    if |u| > 0 && u[|u| - 1] == '-' {
      var n := |u| - 1;
      assert u == u[..n] + [u[n]];
      SlugCharsAppend(u[..n], [u[n]]);
    }
  }

  /** The slug keeps every ASCII letter (lower-cased) and digit of the name, in
      order, and nothing else but single dashes between them. */
  lemma SlugifyKeepsLettersAndDigits(name: string)
    ensures SlugChars(Slugify(name)) == SlugChars(ToLower(name))
  {
    var lower := ToLower(name);
    TrimStartKeeps(lower);
    TrimEndKeeps(TrimStart(lower));
    CollapseRunsKeeps(Trim(lower));
    StripEdgeDashesKeeps(CollapseRuns(Trim(lower)));
  }

  // ---------------------------------------------------------------------------
  // Groups and their members
  // ---------------------------------------------------------------------------

  datatype Member = Member(symbol: string)

  /** A stored group with its member rows. */
  datatype Group = Group(id: string, name: string, kind: string, members: seq<Member>)

  /** The JSON shape a group is returned in. */
  datatype GroupView = GroupView(id: string, name: string, kind: string, symbols: seq<string>)

  /** `formatGroup`: id, name and type copied, member symbols in member order. */
  function FormatGroup(g: Group): (v: GroupView)
    ensures v.id == g.id && v.name == g.name && v.kind == g.kind
    ensures |v.symbols| == |g.members|
    ensures forall i :: 0 <= i < |g.members| ==> v.symbols[i] == g.members[i].symbol
  {
    GroupView(g.id, g.name, g.kind, seq(|g.members|, i requires 0 <= i < |g.members| => g.members[i].symbol))
  }

  function MembersOf(symbols: seq<string>): (ms: seq<Member>)
    ensures |ms| == |symbols|
    ensures forall i :: 0 <= i < |symbols| ==> ms[i].symbol == symbols[i]
  {
    seq(|symbols|, i requires 0 <= i < |symbols| => Member(symbols[i]))
  }

  /** The group types the create request accepts. */
  predicate IsGroupKind(k: string)
  {
    k == "manual" || k == "sector" || k == "cluster"
  }

  /** The create request after validation: a non-empty name, a known type
      ("manual" when absent) and non-empty symbols; `None` is the 400 answer. */
  function CreateGroup(name: string, kind: Option<string>, symbols: seq<string>): (g: Option<Group>)
    ensures g.Some? <==>
      |name| >= 1 && (kind.None? || IsGroupKind(kind.value))
      && forall i :: 0 <= i < |symbols| ==> |symbols[i]| >= 1
    ensures g.Some? ==> g.value.id == Slugify(name) && g.value.name == name
    ensures g.Some? && kind.None? ==> g.value.kind == "manual"
    ensures g.Some? && kind.Some? ==> g.value.kind == kind.value
  {
    if |name| == 0 then None
    else if kind.Some? && !IsGroupKind(kind.value) then None
    else if exists i :: 0 <= i < |symbols| && |symbols[i]| == 0 then None
    else
      var k := if kind.Some? then kind.value else "manual";
      Some(Group(Slugify(name), name, k, MembersOf(Dedup(symbols))))
  }

  /** Replacing a group's members after validation: the old rows go, one row
      per distinct symbol comes in first-occurrence order; `None` is the 400
      answer to a request with an empty symbol. */
  function ReplaceMembers(g: Group, symbols: seq<string>): (r: Option<Group>)
    ensures r.Some? <==> forall i :: 0 <= i < |symbols| ==> |symbols[i]| >= 1
    ensures r.Some? ==> r.value.id == g.id && r.value.name == g.name && r.value.kind == g.kind
    ensures r.Some? ==> |r.value.members| <= |symbols|
  {
    if exists i :: 0 <= i < |symbols| && |symbols[i]| == 0 then None
    else Some(g.(members := MembersOf(Dedup(symbols))))
  }

  /** The symbols a created or updated group is returned with are the request's
      symbols without repeats, every one of them, in first-occurrence order. */
  lemma ReturnedSymbolsAreDeduplicated(g: Group, symbols: seq<string>)
    requires ReplaceMembers(g, symbols).Some?
    ensures FormatGroup(ReplaceMembers(g, symbols).value).symbols == Dedup(symbols)
    ensures NoDuplicates(FormatGroup(ReplaceMembers(g, symbols).value).symbols)
    ensures forall s :: s in symbols <==> s in FormatGroup(ReplaceMembers(g, symbols).value).symbols
  {
    var v := FormatGroup(ReplaceMembers(g, symbols).value);
    assert v.symbols == Dedup(symbols);
  }

  lemma CreatedSymbolsAreDeduplicated(name: string, kind: Option<string>, symbols: seq<string>)
    requires CreateGroup(name, kind, symbols).Some?
    ensures FormatGroup(CreateGroup(name, kind, symbols).value).symbols == Dedup(symbols)
    ensures IsSlug(FormatGroup(CreateGroup(name, kind, symbols).value).id)
  {
    var v := FormatGroup(CreateGroup(name, kind, symbols).value);
    assert v.symbols == Dedup(symbols);
  }
}
