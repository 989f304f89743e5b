/** The Stooq market-data provider, parsing side: the daily-bar CSV body with
    English or Polish column names, and the zip of Yahoo's parallel chart
    arrays into bars used as a fallback. `Number(...)` with its finiteness
    check is the parameter `num`; the date string of a Yahoo timestamp is the
    parameter `iso`. */
module Stooq {
  import opened Common

  /** A daily bar as the provider returns it: the date stays text. */
  datatype DailyBar = DailyBar(date: string, open: real, high: real, low: real, close: real, volume: Option<real>)

  /** `parseFloatSafe`: an absent or empty cell is null, anything else goes
      through `Number` and is kept only when finite. */
  function ParseFloatSafe(value: Option<string>, num: string -> Option<real>): (r: Option<real>)
    ensures value.None? || value == Some("") ==> r.None?
    ensures value.Some? && value.value != "" ==> r == num(value.value)
  {
    if value.None? || value.value == "" then None else num(value.value)
  }

  // ---------------------------------------------------------------------------
  // Header normalisation and column detection
  // ---------------------------------------------------------------------------

  predicate AllLowerAscii(s: string)
  {
    forall k :: 0 <= k < |s| ==> IsLowerAscii(s[k])
  }

  /** The characters a-z of `s`, in order (`replace(/[^a-z]/g, "")`). */
  function LettersOnly(s: string): (r: string)
    ensures AllLowerAscii(r)
    ensures |r| <= |s|
    decreases |s|
  {
    if s == [] then []
    else (if IsLowerAscii(s[0]) then [s[0]] else []) + LettersOnly(s[1..])
  }

  lemma {:induction false} LettersOnlyKeepsLetters(s: string)
    requires AllLowerAscii(s)
    ensures LettersOnly(s) == s
    decreases |s|
  {
    if s != [] {
      LettersOnlyKeepsLetters(s[1..]);
    }
  }

  lemma ToLowerKeepsLower(s: string)
    requires AllLowerAscii(s)
    ensures ToLower(s) == s
  {}

  /** `normalizeHeader`: lower-cased, then everything but a-z dropped. */
  function NormalizeHeader(s: string): (r: string)
    ensures AllLowerAscii(r)
    ensures |r| <= |s|
  {
    LettersOnly(ToLower(s))
  }

  /** A header that is already plain lower-case letters is its own
      normalisation; so normalising twice changes nothing. */
  lemma NormalizeHeaderFixes(s: string)
    requires AllLowerAscii(s)
    ensures NormalizeHeader(s) == s
  {
    ToLowerKeepsLower(s);
    LettersOnlyKeepsLetters(s);
  }

  lemma NormalizeHeaderIdempotent(s: string)
    ensures NormalizeHeader(NormalizeHeader(s)) == NormalizeHeader(s)
  {
    NormalizeHeaderFixes(NormalizeHeader(s));
  }

  /** `findIndex` for a column known under an English and a Polish name,
      searching from position `from`. */
  function FindColumnFrom(headers: seq<string>, english: string, polish: string, from: nat): (r: Option<nat>)
    requires from <= |headers|
    ensures r.Some? ==> from <= r.value < |headers| && (headers[r.value] == english || headers[r.value] == polish)
    ensures r.Some? ==> forall k :: from <= k < r.value ==> headers[k] != english && headers[k] != polish
    ensures r.None? ==> forall k :: from <= k < |headers| ==> headers[k] != english && headers[k] != polish
    decreases |headers| - from
  {
    if from == |headers| then None
    else if headers[from] == english || headers[from] == polish then Some(from)
    else FindColumnFrom(headers, english, polish, from + 1)
  }

  /** The first column carrying either name, or none (`-1`). */
  function FindColumn(headers: seq<string>, english: string, polish: string): (r: Option<nat>)
    ensures r.Some? ==> r.value < |headers| && (headers[r.value] == english || headers[r.value] == polish)
    ensures r.Some? ==> forall k :: 0 <= k < r.value ==> headers[k] != english && headers[k] != polish
    ensures r.None? ==> forall k :: 0 <= k < |headers| ==> headers[k] != english && headers[k] != polish
  {
    FindColumnFrom(headers, english, polish, 0)
  }

  datatype Columns = Columns(date: nat, open: nat, high: nat, low: nat, close: nat, volume: Option<nat>)

  /** The normalised names of the header line's comma-separated cells. */
  function HeaderNames(header: string): (names: seq<string>)
    ensures forall k :: 0 <= k < |names| ==> AllLowerAscii(names[k])
  {
    var cells := Split(header, ',');
    seq(|cells|, k requires 0 <= k < |cells| => NormalizeHeader(cells[k]))
  }

  /** The column positions, or none when the date or a price column is missing;
      the volume column is optional. */
  function DetectColumns(header: string): (c: Option<Columns>)
    ensures var names := HeaderNames(header);
      c.Some? <==>
        && FindColumn(names, "date", "data").Some?
        && FindColumn(names, "open", "otwarcie").Some?
        && FindColumn(names, "high", "najwyzszy").Some?
        && FindColumn(names, "low", "najnizszy").Some?
        && FindColumn(names, "close", "zamkniecie").Some?
    ensures c.Some? ==> c.value.volume == FindColumn(HeaderNames(header), "volume", "wolumen")
  {
    var names := HeaderNames(header);
    var date := FindColumn(names, "date", "data");
    var open := FindColumn(names, "open", "otwarcie");
    var high := FindColumn(names, "high", "najwyzszy");
    var low := FindColumn(names, "low", "najnizszy");
    var close := FindColumn(names, "close", "zamkniecie");
    var volume := FindColumn(names, "volume", "wolumen");
    if date.None? || open.None? || high.None? || low.None? || close.None? then None
    else Some(Columns(date.value, open.value, high.value, low.value, close.value, volume))
  }

  /** A capitalised word normalises to its lower-case form. */
  lemma NormalizeCapitalised(s: string)
    requires |s| > 0 && IsUpperAscii(s[0]) && AllLowerAscii(s[1..])
    ensures NormalizeHeader(s) == [ToLowerChar(s[0])] + s[1..]
  {
    var t := [ToLowerChar(s[0])] + s[1..];
    assert ToLower(s) == t;
    NormalizeHeaderFixes(t);
    ToLowerKeepsLower(t);
  }

  /** `cell` is a capitalised word without commas and `name` its lower-case form. */
  predicate Capitalised(cell: string, name: string)
  {
    && ',' !in cell && |cell| > 0 && IsUpperAscii(cell[0]) && AllLowerAscii(cell[1..])
    && name == [ToLowerChar(cell[0])] + cell[1..]
  }

  /** The header names of a line whose cells are capitalised words. */
  lemma NamesOfCapitalised(header: string, cells: seq<string>, names: seq<string>)
    requires |cells| >= 1 && |names| == |cells| && header == Join(cells, ",")
    requires forall k :: 0 <= k < |cells| ==> Capitalised(cells[k], names[k])
    ensures HeaderNames(header) == names
  {
    assert forall k :: 0 <= k < |cells| ==> ',' !in cells[k];
    JoinSplit(cells, ',');
    forall k | 0 <= k < |cells| ensures NormalizeHeader(cells[k]) == names[k] {
      NormalizeCapitalised(cells[k]);
    }
  }

  /** The names of Stooq's Polish header line. */
  lemma PolishNames()
    ensures HeaderNames(Join(["Data", "Otwarcie", "Najwyzszy", "Najnizszy", "Zamkniecie", "Wolumen"], ","))
      == ["data", "otwarcie", "najwyzszy", "najnizszy", "zamkniecie", "wolumen"]
  {
    var cells := ["Data", "Otwarcie", "Najwyzszy", "Najnizszy", "Zamkniecie", "Wolumen"];
    var names := ["data", "otwarcie", "najwyzszy", "najnizszy", "zamkniecie", "wolumen"];
    PolishPrices();
    PolishRest();
    NamesOfCapitalised(Join(cells, ","), cells, names);
  }

  lemma PolishPrices()
    ensures Capitalised("Otwarcie", "otwarcie") && Capitalised("Najwyzszy", "najwyzszy")
      && Capitalised("Najnizszy", "najnizszy")
  {
    assert Capitalised("Otwarcie", "otwarcie");
    assert Capitalised("Najwyzszy", "najwyzszy");
  }

  lemma PolishRest()
    ensures Capitalised("Data", "data") && Capitalised("Zamkniecie", "zamkniecie")
      && Capitalised("Wolumen", "wolumen")
  {
    assert Capitalised("Data", "data");
    assert Capitalised("Zamkniecie", "zamkniecie");
  }

  /** The names of the English header line. */
  lemma EnglishNames()
    ensures HeaderNames(Join(["Date", "Open", "High", "Low", "Close", "Volume"], ","))
      == ["date", "open", "high", "low", "close", "volume"]
  {
    var cells := ["Date", "Open", "High", "Low", "Close", "Volume"];
    var names := ["date", "open", "high", "low", "close", "volume"];
    assert Capitalised(cells[0], names[0]);
    assert Capitalised(cells[1], names[1]);
    assert Capitalised(cells[2], names[2]);
    assert Capitalised(cells[3], names[3]);
    assert Capitalised(cells[4], names[4]);
    assert Capitalised(cells[5], names[5]);
    NamesOfCapitalised(Join(cells, ","), cells, names);
  }

  /** The English and Polish names of the six columns, in the standard order:
      date, open, high, low, close, volume. */
  const COLUMN_NAMES: seq<(string, string)> := [
    ("date", "data"), ("open", "otwarcie"), ("high", "najwyzszy"),
    ("low", "najnizszy"), ("close", "zamkniecie"), ("volume", "wolumen")]

  /** `name` is one of the two names of column `i`. */
  predicate NamesColumn(name: string, i: nat)
    requires i < 6
  {
    name == COLUMN_NAMES[i].0 || name == COLUMN_NAMES[i].1
  }

  /** `findIndex` stops at the first entry carrying either name. */
  lemma FindColumnAt(headers: seq<string>, english: string, polish: string, k: nat)
    requires k < |headers| && (headers[k] == english || headers[k] == polish)
    requires forall j :: 0 <= j < k ==> headers[j] != english && headers[j] != polish
    ensures FindColumn(headers, english, polish) == Some(k)
  {}

  /** A letter that tells the columns apart: the first one, or the fifth for
      the two Polish names starting "naj". */
  function Initial(name: string): char
  {
    if |name| > 4 && name[0] == 'n' then name[4] else if |name| > 0 then name[0] else ' '
  }

  const COLUMN_INITIALS: seq<string> := ["d", "o", "hy", "li", "cz", "vw"]

  lemma InitialOfColumn(name: string, i: nat)
    requires i < 6 && NamesColumn(name, i)
    ensures Initial(name) in COLUMN_INITIALS[i]
  {
    var a := COLUMN_NAMES[i];
    if name == a.0 {
      assert name[0] == a.0[0];
    } else {
      assert name[0] == a.1[0];
    }
  }

  /** No name belongs to two columns. */
  lemma ColumnNamesDistinct(name: string, i: nat, j: nat)
    requires i < 6 && j < 6 && i != j && NamesColumn(name, i)
    ensures !NamesColumn(name, j)
  {
    InitialOfColumn(name, i);
    if NamesColumn(name, j) {
      InitialOfColumn(name, j);
      assert false;
    }
  }

  /** Column `i` is found at position `i` when the first `i + 1` names name the
      columns in the standard order. */
  lemma ColumnInPlace(names: seq<string>, i: nat)
    requires i < 6 && i < |names|
    requires forall j :: 0 <= j <= i ==> NamesColumn(names[j], j)
    ensures FindColumn(names, COLUMN_NAMES[i].0, COLUMN_NAMES[i].1) == Some(i)
  {
    forall j | 0 <= j < i ensures !NamesColumn(names[j], i) {
      ColumnNamesDistinct(names[j], j, i);
    }
    FindColumnAt(names, COLUMN_NAMES[i].0, COLUMN_NAMES[i].1, i);
  }

  /** A header whose six cells name the six columns in the standard order, in
      either language or mixed, is read as columns 0 to 5. */
  lemma StandardHeader(header: string, names: seq<string>)
    requires HeaderNames(header) == names && |names| == 6
    requires forall i :: 0 <= i < 6 ==> NamesColumn(names[i], i)
    ensures DetectColumns(header) == Some(Columns(0, 1, 2, 3, 4, Some(5)))
  {
    ColumnInPlace(names, 0);
    ColumnInPlace(names, 1);
    ColumnInPlace(names, 2);
    ColumnInPlace(names, 3);
    ColumnInPlace(names, 4);
    ColumnInPlace(names, 5);
  }

  /** The Polish header names each column in its place. */
  lemma PolishColumns(names: seq<string>)
    requires names == ["data", "otwarcie", "najwyzszy", "najnizszy", "zamkniecie", "wolumen"]
    ensures forall i :: 0 <= i < 6 ==> NamesColumn(names[i], i)
  {
    forall i | 0 <= i < 6 ensures NamesColumn(names[i], i) {
      assert names[i] == COLUMN_NAMES[i].1;
    }
  }

  /** The English header names each column in its place. */
  lemma EnglishColumns(names: seq<string>)
    requires names == ["date", "open", "high", "low", "close", "volume"]
    ensures forall i :: 0 <= i < 6 ==> NamesColumn(names[i], i)
  {
    forall i | 0 <= i < 6 ensures NamesColumn(names[i], i) {
      assert names[i] == COLUMN_NAMES[i].0;
    }
  }

  /** Stooq's Polish header is recognised, volume included. */
  lemma PolishHeader()
    ensures DetectColumns(Join(["Data", "Otwarcie", "Najwyzszy", "Najnizszy", "Zamkniecie", "Wolumen"], ","))
      == Some(Columns(0, 1, 2, 3, 4, Some(5)))
  {
    var names := ["data", "otwarcie", "najwyzszy", "najnizszy", "zamkniecie", "wolumen"];
    PolishNames();
    PolishColumns(names);
    StandardHeader(Join(["Data", "Otwarcie", "Najwyzszy", "Najnizszy", "Zamkniecie", "Wolumen"], ","), names);
  }

  /** The English header is recognised too. */
  lemma EnglishHeader()
    ensures DetectColumns(Join(["Date", "Open", "High", "Low", "Close", "Volume"], ","))
      == Some(Columns(0, 1, 2, 3, 4, Some(5)))
  {
    var names := ["date", "open", "high", "low", "close", "volume"];
    EnglishNames();
    EnglishColumns(names);
    StandardHeader(Join(["Date", "Open", "High", "Low", "Close", "Volume"], ","), names);
  }

  // ---------------------------------------------------------------------------
  // Rows
  // ---------------------------------------------------------------------------

  /** `cells[i]`, undefined past the end. */
  function Cell(cells: seq<string>, i: nat): (r: Option<string>)
    ensures r.Some? <==> i < |cells|
  {
    if i < |cells| then Some(cells[i]) else None
  }

  /** A usable date cell: present, not empty and not Stooq's "N/D". */
  predicate UsableDate(cell: Option<string>)
  {
    cell.Some? && cell.value != "" && cell.value != "N/D"
  }

  /** One data row, or none when it is skipped. */
  function ParseRow(row: string, cols: Columns, num: string -> Option<real>): (b: Option<DailyBar>)
    ensures var cells := Split(row, ',');
      b.Some? <==>
        && UsableDate(Cell(cells, cols.date))
        && ParseFloatSafe(Cell(cells, cols.open), num).Some?
        && ParseFloatSafe(Cell(cells, cols.high), num).Some?
        && ParseFloatSafe(Cell(cells, cols.low), num).Some?
        && ParseFloatSafe(Cell(cells, cols.close), num).Some?
    ensures var cells := Split(row, ',');
      b.Some? ==>
        && Cell(cells, cols.date) == Some(b.value.date)
        && ParseFloatSafe(Cell(cells, cols.open), num) == Some(b.value.open)
        && ParseFloatSafe(Cell(cells, cols.high), num) == Some(b.value.high)
        && ParseFloatSafe(Cell(cells, cols.low), num) == Some(b.value.low)
        && ParseFloatSafe(Cell(cells, cols.close), num) == Some(b.value.close)
        && b.value.volume == (if cols.volume.Some? then ParseFloatSafe(Cell(cells, cols.volume.value), num) else None)
  {
    var cells := Split(row, ',');
    var date := Cell(cells, cols.date);
    if !UsableDate(date) then None
    else
      var open := ParseFloatSafe(Cell(cells, cols.open), num);
      var high := ParseFloatSafe(Cell(cells, cols.high), num);
      var low := ParseFloatSafe(Cell(cells, cols.low), num);
      var close := ParseFloatSafe(Cell(cells, cols.close), num);
      if open.None? || high.None? || low.None? || close.None? then None
      else
        var volumeCell := if cols.volume.Some? then Cell(cells, cols.volume.value) else None;
        Some(DailyBar(date.value, open.value, high.value, low.value, close.value, ParseFloatSafe(volumeCell, num)))
  }

  function ParsedRows(rows: seq<string>, cols: Columns, num: string -> Option<real>): (r: seq<Option<DailyBar>>)
    ensures |r| == |rows|
  {
    seq(|rows|, k requires 0 <= k < |rows| => ParseRow(rows[k], cols, num))
  }

  /** The bars of the data rows: the rows that parse, in order. */
  function RowsToBars(rows: seq<string>, cols: Columns, num: string -> Option<real>): (bars: seq<DailyBar>)
    ensures |bars| <= |rows|
  {
    Somes(ParsedRows(rows, cols, num))
  }

  /** The `for (const row of rows)` loop: a row that does not parse is skipped,
      the others are pushed in order. */
  method ParseRows(rows: seq<string>, cols: Columns, num: string -> Option<real>) returns (bars: seq<DailyBar>)
    ensures bars == RowsToBars(rows, cols, num)
  {
    bars := [];
    var i := 0;
    while i < |rows|
      invariant 0 <= i <= |rows|
      invariant bars == Somes(ParsedRows(rows[..i], cols, num))
    {
      assert ParsedRows(rows[..i + 1], cols, num)[..i] == ParsedRows(rows[..i], cols, num);
      var b := ParseRow(rows[i], cols, num);
      if b.Some? {
        bars := bars + [b.value];
      }
      i := i + 1;
    }
    assert rows[..i] == rows;
  }

  /** Every emitted bar comes from a data row that parses to it, and the rows
      keep their order: bar `k` comes from the row after exactly `k` parsed
      rows. */
  lemma RowsToBarsOrigin(rows: seq<string>, cols: Columns, num: string -> Option<real>, k: nat)
    requires k < |RowsToBars(rows, cols, num)|
    ensures exists i :: (0 <= i < |rows| && ParseRow(rows[i], cols, num) == Some(RowsToBars(rows, cols, num)[k])
      && |Somes(ParsedRows(rows, cols, num)[..i])| == k)
  {
    SomesOrigin(ParsedRows(rows, cols, num), k);
  }

  /** Every emitted bar has a usable date. */
  lemma RowsToBarsDated(rows: seq<string>, cols: Columns, num: string -> Option<real>)
    ensures forall b :: b in RowsToBars(rows, cols, num) ==> b.date != "" && b.date != "N/D"
  {
    var bars := RowsToBars(rows, cols, num);
    forall b | b in bars ensures b.date != "" && b.date != "N/D" {
      var k :| 0 <= k < |bars| && bars[k] == b;
      RowsToBarsOrigin(rows, cols, num, k);
    }
  }

  // ---------------------------------------------------------------------------
  // The response body
  // ---------------------------------------------------------------------------

  /** The lines of `text.split(/\r?\n/)`: split at line feeds, and a carriage
      return just before a line feed belongs to the separator. */
  function Lines(text: string): (lines: seq<string>)
    ensures |lines| == |Split(text, '\n')|
  {
    var parts := Split(text, '\n');
    seq(|parts|, k requires 0 <= k < |parts| =>
      if k < |parts| - 1 && |parts[k]| > 0 && parts[k][|parts[k]| - 1] == '\r'
      then parts[k][..|parts[k]| - 1] else parts[k])
  }

  /** `s.includes(word)`. */
  predicate ContainsText(s: string, word: string)
    decreases |s|
  {
    if |s| < |word| then false
    else s[..|word|] == word || ContainsText(s[1..], word)
  }

  /** Parsed bars, or a body that mentions "limit" (Stooq's daily quota),
      which makes the provider ask Yahoo instead. */
  datatype BodyOutcome = Parsed(bars: seq<DailyBar>) | LimitReached

  /** The body handling of `fetchDailyBars` as a function of the text. */
  function BodyBars(body: string, num: string -> Option<real>): (r: BodyOutcome)
    ensures Trim(body) == [] ==> r == Parsed([])
    ensures r == LimitReached <==> Trim(body) != [] && ContainsText(ToLower(Trim(body)), "limit")
    ensures r.Parsed? && Trim(body) != [] ==> |r.bars| < |Lines(Trim(body))|
  {
    var text := Trim(body);
    if text == [] then Parsed([])
    else if ContainsText(ToLower(text), "limit") then LimitReached
    else
      var lines := Lines(text);
      var header := Trim(lines[0]);
      if header == [] then Parsed([])
      else
        match DetectColumns(header)
        case None => Parsed([])
        case Some(cols) => Parsed(RowsToBars(lines[1..], cols, num))
  }

  /** A header without a date or price column yields no bars. */
  lemma MissingColumnYieldsNothing(body: string, num: string -> Option<real>)
    requires Trim(body) != [] && !ContainsText(ToLower(Trim(body)), "limit")
    requires DetectColumns(Trim(Lines(Trim(body))[0])).None?
    ensures BodyBars(body, num) == Parsed([])
  {}

  /** `fetchDailyBars` after the response arrived: trim, look for the quota
      message, shift the header off the lines and parse the rest. */
  method ParseDailyBars(body: string, num: string -> Option<real>) returns (r: BodyOutcome)
    ensures r == BodyBars(body, num)
  {
    var text := Trim(body);
    if text == [] {
      return Parsed([]);
    }
    if ContainsText(ToLower(text), "limit") {
      return LimitReached;
    }
    var rows := Lines(text);
    var header := Trim(rows[0]);
    rows := rows[1..];
    if header == [] {
      return Parsed([]);
    }
    var cols := DetectColumns(header);
    if cols.None? {
      return Parsed([]);
    }
    var bars := ParseRows(rows, cols.value, num);
    r := Parsed(bars);
  }

  // ---------------------------------------------------------------------------
  // Yahoo chart arrays
  // ---------------------------------------------------------------------------

  /** The first quote of a chart result; every array may be absent, and every
      entry may be null. */
  datatype Quote = Quote(
    open: Option<seq<Option<real>>>,
    high: Option<seq<Option<real>>>,
    low: Option<seq<Option<real>>>,
    close: Option<seq<Option<real>>>,
    volume: Option<seq<Option<real>>>)

  /** `array?.[i]`: undefined when the array is absent or too short. */
  function At(values: Option<seq<Option<real>>>, i: nat): (r: Option<real>)
    ensures r.Some? ==> values.Some? && i < |values.value| && values.value[i] == r
  {
    if values.Some? && i < |values.value| then values.value[i] else None
  }

  /** The largest time value, in milliseconds, a JavaScript `Date` accepts. */
  const MAX_TIME_MS: int := 8_640_000_000_000_000

  /** `formatYahooDate` returns null exactly when `timestamp * 1000` is out of
      the `Date` range. */
  predicate ValidTimestamp(timestamp: int)
  {
    -MAX_TIME_MS <= timestamp * 1000 <= MAX_TIME_MS
  }

  /** The bar for timestamp `i`, or none when it is skipped. */
  function YahooBarAt(timestamps: seq<int>, quote: Quote, i: nat, iso: int -> string): (b: Option<DailyBar>)
    requires i < |timestamps|
    ensures b.Some? <==>
      && ValidTimestamp(timestamps[i])
      && At(quote.open, i).Some? && At(quote.high, i).Some?
      && At(quote.low, i).Some? && At(quote.close, i).Some?
    ensures b.Some? ==>
      b.value == DailyBar(iso(timestamps[i]), At(quote.open, i).value, At(quote.high, i).value,
                          At(quote.low, i).value, At(quote.close, i).value, At(quote.volume, i))
  {
    if !ValidTimestamp(timestamps[i]) then None
    else
      var open := At(quote.open, i);
      var high := At(quote.high, i);
      var low := At(quote.low, i);
      var close := At(quote.close, i);
      if open.None? || high.None? || low.None? || close.None? then None
      else Some(DailyBar(iso(timestamps[i]), open.value, high.value, low.value, close.value, At(quote.volume, i)))
  }

  function YahooBarsAt(timestamps: seq<int>, quote: Quote, iso: int -> string): (r: seq<Option<DailyBar>>)
    ensures |r| == |timestamps|
  {
    seq(|timestamps|, i requires 0 <= i < |timestamps| => YahooBarAt(timestamps, quote, i, iso))
  }

  /** The index loop of `fetchYahooDailyBars`: one bar per usable timestamp,
      in timestamp order; no quote means no bars. */
  method ZipYahooBars(timestamps: seq<int>, quote: Option<Quote>, iso: int -> string) returns (bars: seq<DailyBar>)
    ensures quote.None? || |timestamps| == 0 ==> bars == []
    ensures quote.Some? ==> bars == Somes(YahooBarsAt(timestamps, quote.value, iso))
    ensures |bars| <= |timestamps|
  {
    if quote.None? || |timestamps| == 0 {
      return [];
    }
    var q := quote.value;
    bars := [];
    var i := 0;
    while i < |timestamps|
      invariant 0 <= i <= |timestamps|
      invariant bars == Somes(YahooBarsAt(timestamps, q, iso)[..i])
    {
      assert YahooBarsAt(timestamps, q, iso)[..i + 1][..i] == YahooBarsAt(timestamps, q, iso)[..i];
      if ValidTimestamp(timestamps[i]) {
        var open := At(q.open, i);
        var high := At(q.high, i);
        var low := At(q.low, i);
        var close := At(q.close, i);
        if open.Some? && high.Some? && low.Some? && close.Some? {
          bars := bars + [DailyBar(iso(timestamps[i]), open.value, high.value, low.value, close.value, At(q.volume, i))];
        }
      }
      i := i + 1;
    }
    assert YahooBarsAt(timestamps, q, iso)[..i] == YahooBarsAt(timestamps, q, iso);
  }
}
