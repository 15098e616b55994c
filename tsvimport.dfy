/**
 * The LogTen TSV import route: the text is split into lines, the first
 * non-blank line is the header, a column index is built from it, the lines
 * after the header that start with a `YYYY-MM-DD` date are the flight lines,
 * and each flight line becomes a flight unless its date or either airport code
 * is missing. A job is imported only when it exists, has been uploaded and has
 * a blob URL; a failure stores its message cut to 500 characters.
 *
 * `Date` parsing and `Number.parseFloat` are function parameters; the database,
 * the blob store and authentication are not part of this model.
 */
module TsvImport {
  import opened Wrappers
  import opened Seqs
  import opened Groups
  import opened Strings

  // ---------------------------------------------------------------- numbers

  function DigitValue(c: char): nat
    requires IsDigit(c)
  {
    c as int - '0' as int
  }

  predicate AllDigits(s: string)
  {
    forall i :: 0 <= i < |s| ==> IsDigit(s[i])
  }

  /** The length of the run of ASCII digits at the front of s. */
  function DigitRun(s: string): (n: nat)
    ensures n <= |s|
    ensures forall i :: 0 <= i < n ==> IsDigit(s[i])
    ensures n == |s| || !IsDigit(s[n])
  {
    if s != [] && IsDigit(s[0]) then 1 + DigitRun(s[1..]) else 0
  }

  /** The value of a string of decimal digits. */
  function DigitsValue(ds: string): nat
    requires forall i :: 0 <= i < |ds| ==> IsDigit(ds[i])
  {
    if ds == [] then 0 else DigitsValue(ds[..|ds| - 1]) * 10 + DigitValue(ds[|ds| - 1])
  }

  /** `Number.parseInt(s, 10)` on a trimmed string: an optional sign, then the longest digit prefix; NaN is None. */
  function ParseIntPrefix(s: string): Option<int>
  {
    var negative := s != [] && s[0] == '-';
    var rest := if s != [] && (s[0] == '-' || s[0] == '+') then s[1..] else s;
    var n := DigitRun(rest);
    if n == 0 then None
    else
      var v: int := DigitsValue(rest[..n]);
      Some(if negative then -v else v)
  }

  /** A number is parsed exactly when a digit follows the optional sign. */
  lemma ParseIntPrefixSome(s: string)
    ensures ParseIntPrefix(s).Some? <==>
              (|s| > 0 && IsDigit(s[0])) || (|s| > 1 && (s[0] == '-' || s[0] == '+') && IsDigit(s[1]))
  {
  }

  /** A string of digits is one digit run. */
  lemma {:induction false} DigitRunAll(s: string)
    requires AllDigits(s)
    ensures DigitRun(s) == |s|
  {
    if s != [] {
      DigitRunAll(s[1..]);
    }
  }

  /** Commas removed, then trimmed. */
  function Cleaned(value: string): string
  {
    Trim(Remove(value, ','))
  }

  /** `parseIntSafe`: null for a missing or empty value or one of only commas and white space, else the parsed prefix. */
  function ParseIntSafe(value: Option<string>): (r: Option<int>)
    ensures value.None? || value == Some("") ==> r.None?
    ensures value.Some? && Cleaned(value.value) == "" ==> r.None?
    ensures value.Some? && value.value != "" ==> r == ParseIntPrefix(Cleaned(value.value))
  {
    if value.None? || value.value == "" then None
    else
      var cleaned := Cleaned(value.value);
      if cleaned == "" then None else ParseIntPrefix(cleaned)
  }

  /** `parseFloatSafe`, with `Number.parseFloat` and the finiteness test as `parseFloat`. */
  function ParseFloatSafe(value: Option<string>, parseFloat: string -> Option<real>): (r: Option<real>)
    ensures value.None? || value == Some("") ==> r.None?
    ensures value.Some? && Cleaned(value.value) == "" ==> r.None?
    ensures value.Some? && Cleaned(value.value) != "" ==> r == parseFloat(Cleaned(value.value))
    ensures r.Some? ==> r == parseFloat(Cleaned(value.value))
  {
    if value.None? || value.value == "" then None
    else
      var cleaned := Cleaned(value.value);
      if cleaned == "" then None else parseFloat(cleaned)
  }

  /** Removing a character twice is removing it once. */
  lemma {:induction false} RemoveTwice(s: string, c: char)
    ensures Remove(Remove(s, c), c) == Remove(s, c)
  {
    if s != [] {
      RemoveTwice(s[1..], c);
      if s[0] != c {
        assert Remove(s, c) == [s[0]] + Remove(s[1..], c);
        assert Remove(s, c)[1..] == Remove(s[1..], c);
      } else {
        assert Remove(s, c) == Remove(s[1..], c);
      }
    }
  }

  /** Commas are ignored wherever they are: `"1,234"` parses as `"1234"`. */
  lemma CommasIgnored(s: string)
    ensures ParseIntSafe(Some(s)) == ParseIntSafe(Some(Remove(s, ',')))
  {
    RemoveTwice(s, ',');
    if s != "" && Remove(s, ',') == "" {
      assert Cleaned(s) == "";
    }
  }

  /** The decimal digits of n, most significant first, without leading zeros. */
  function Show(n: nat): (s: string)
    ensures |s| > 0 && forall i :: 0 <= i < |s| ==> IsDigit(s[i])
  {
    var d := ['0' + (n % 10) as char];
    if n < 10 then d else Show(n / 10) + d
  }

  lemma {:induction false} ShowValue(n: nat)
    ensures DigitsValue(Show(n)) == n
  {
    if n >= 10 {
      ShowValue(n / 10);
      var s := Show(n);
      assert s[..|s| - 1] == Show(n / 10);
    }
  }

  lemma RemoveAbsent(s: string, c: char)
    requires c !in s
    ensures Remove(s, c) == s
  {
    if s != [] {
      assert c !in s[1..];
      RemoveAbsent(s[1..], c);
    }
  }

  /** A string without commas and without white space at either end survives cleaning unchanged. */
  lemma CleanedPlain(s: string)
    requires |s| > 0 && ',' !in s && !IsSpace(s[0]) && !IsSpace(s[|s| - 1])
    ensures Cleaned(s) == s
  {
    RemoveAbsent(s, ',');
    assert TrimStart(s) == s;
  }

  /** Digits survive cleaning unchanged. */
  lemma CleanedDigits(s: string)
    requires |s| > 0 && AllDigits(s)
    ensures Cleaned(s) == s
  {
    assert ',' !in s;
    CleanedPlain(s);
  }

  /** A digit string parses to its value. */
  lemma ParseDigits(s: string)
    requires |s| > 0 && AllDigits(s)
    ensures ParseIntPrefix(s) == Some(DigitsValue(s))
  {
    DigitRunAll(s);
    assert s[..|s|] == s;
  }

  /** With a minus sign in front it parses to the negative. */
  lemma ParseNegativeDigits(s: string)
    requires |s| > 0 && AllDigits(s)
    ensures ParseIntPrefix("-" + s) == Some(-(DigitsValue(s) as int))
  {
    DigitRunAll(s);
    var m := "-" + s;
    assert m[1..] == s;
    assert m[1..][..|s|] == s;
  }

  /** A number written out in decimal parses back to itself. */
  lemma ParseIntShow(n: nat)
    ensures ParseIntSafe(Some(Show(n))) == Some(n)
  {
    var s := Show(n);
    ShowValue(n);
    CleanedDigits(s);
    ParseDigits(s);
  }

  /** A minus sign and digits survive cleaning unchanged. */
  lemma CleanedNegative(s: string)
    requires |s| > 0 && AllDigits(s)
    ensures Cleaned("-" + s) == "-" + s
  {
    var m := "-" + s;
    assert m[0] == '-' && m[|m| - 1] == s[|s| - 1];
    assert ',' !in m by {
      assert forall i :: 0 <= i < |m| ==> m[i] == '-' || IsDigit(m[i]);
    }
    CleanedPlain(m);
  }

  /** With a minus sign in front it parses to the negative. */
  lemma ParseIntShowNegative(n: nat)
    ensures ParseIntSafe(Some("-" + Show(n))) == Some(-(n as int))
  {
    var s := Show(n);
    ShowValue(n);
    NegativeParses(s, n);
  }

  lemma NegativeParses(s: string, k: nat)
    requires |s| > 0 && AllDigits(s) && DigitsValue(s) == k
    ensures ParseIntSafe(Some("-" + s)) == Some(-(k as int))
  {
    ParseNegativeDigits(s);
    CleanedNegative(s);
  }

  // ---------------------------------------------------------------- header and columns

  /** All white space: what `!l.trim()` tests (see `TrimEmpty`). */
  predicate Blank(s: string)
  {
    forall i :: 0 <= i < |s| ==> IsSpace(s[i])
  }

  /** `lines.find((l) => l.trim().length > 0)`, as an index. */
  function FindHeader(lines: seq<string>): (r: Option<nat>)
    ensures r.None? <==> forall i :: 0 <= i < |lines| ==> Blank(lines[i])
    ensures r.Some? ==> r.value < |lines| && !Blank(lines[r.value])
    ensures r.Some? ==> forall j :: 0 <= j < r.value ==> Blank(lines[j])
  {
    if lines == [] then None
    else if !Blank(lines[0]) then Some(0)
    else
      var rest := FindHeader(lines[1..]);
      if rest.None? then None else Some(rest.value + 1)
  }

  /** `headerLine.split("\t").map((h) => h.trim())` */
  function Headers(headerLine: string): seq<string>
  {
    Project(Split(headerLine, '\t'), Trim)
  }

  /** Each header with its position. */
  function Indexed(headers: seq<string>): (r: seq<(string, nat)>)
    ensures |r| == |headers| && forall i :: 0 <= i < |r| ==> r[i] == (headers[i], i)
  {
    seq(|headers|, (i: int) requires 0 <= i < |headers| => (headers[i], i as nat))
  }

  /** `colIndex`: each header name to a position it occupies, the later one for a repeated name. */
  function ColIndex(headers: seq<string>): map<string, nat>
  {
    LastWins(Indexed(headers))
  }

  /** A name is indexed iff it is a header, and its position is that of its last occurrence. */
  lemma ColIndexLast(headers: seq<string>, i: nat)
    requires i < |headers| && forall j :: i < j < |headers| ==> headers[j] != headers[i]
    ensures headers[i] in ColIndex(headers) && ColIndex(headers)[headers[i]] == i
  {
    LastWinsLast(Indexed(headers), i);
  }

  lemma ColIndexDomain(headers: seq<string>, name: string)
    ensures name in ColIndex(headers) <==> name in headers
  {
    var kvs := Indexed(headers);
    assert Project(kvs, Fst) == headers;
  }

  /** `headers.forEach((h, i) => colIndex.set(h, i))` */
  method BuildColIndex(headers: seq<string>) returns (colIndex: map<string, nat>)
    ensures colIndex == ColIndex(headers)
  {
    colIndex := map[];
    var i := 0;
    while i < |headers|
      invariant 0 <= i <= |headers|
      invariant colIndex == LastWins(Indexed(headers)[..i])
    {
      var kvs := Indexed(headers)[..i + 1];
      assert kvs[..i] == Indexed(headers)[..i];
      colIndex := colIndex[headers[i] := i];
      i := i + 1;
    }
    assert Indexed(headers)[..|headers|] == Indexed(headers);
  }

  /** `idx(name)`: the position, or -1. */
  function Idx(colIndex: map<string, nat>, name: string): (i: int)
    ensures i == -1 <==> name !in colIndex
    ensures i >= 0 ==> i == colIndex[name]
  {
    if name in colIndex then colIndex[name] else -1
  }

  const DateColumn: string := "flight_flightDate"
  const FromColumn: string := "flight_from"
  const ToColumn: string := "flight_to"

  // ---------------------------------------------------------------- flight lines

  /** `/^\d{4}-\d{2}-\d{2}(\t|$)/` */
  predicate DateRow(line: string)
  {
    |line| >= 10
    && IsDigit(line[0]) && IsDigit(line[1]) && IsDigit(line[2]) && IsDigit(line[3]) && line[4] == '-'
    && IsDigit(line[5]) && IsDigit(line[6]) && line[7] == '-' && IsDigit(line[8]) && IsDigit(line[9])
    && (|line| == 10 || line[10] == '\t')
  }

  /** The tests the scan makes on each line after the header. */
  predicate IsFlightLine(line: string)
  {
    line != "" && !Blank(line) && DateRow(line)
  }

  /** The blank-line test never decides: a line that starts with a date is not blank. */
  lemma DateRowNotBlank(line: string)
    ensures IsFlightLine(line) <==> DateRow(line)
  {
    if DateRow(line) {
      assert !IsSpace(line[0]);
    }
  }

  /** The lines after the first one equal to the header that pass the tests, in order. */
  function FlightLines(lines: seq<string>, headerLine: string): seq<string>
  {
    if headerLine in lines then Filter(lines[FirstIndex(lines, headerLine) + 1..], IsFlightLine) else []
  }

  /** The `for (const line of lines)` scan with its `sawHeader` flag. */
  method SelectFlightLines(lines: seq<string>, headerLine: string) returns (flightLines: seq<string>)
    ensures flightLines == FlightLines(lines, headerLine)
  {
    flightLines := [];
    var sawHeader := false;
    ghost var start := 0;
    var i := 0;
    while i < |lines|
      invariant 0 <= i <= |lines|
      invariant sawHeader <==> headerLine in lines[..i]
      invariant !sawHeader ==> flightLines == []
      invariant sawHeader ==>
                  headerLine in lines && start == FirstIndex(lines, headerLine) + 1 <= i &&
                  flightLines == Filter(lines[start..i], IsFlightLine)
    {
      var line := lines[i];
      InPrefixSnoc(lines, i, headerLine);
      if !sawHeader {
        if line == headerLine {
          sawHeader := true;
          FirstIndexAt(lines, i, headerLine);
          start := i + 1;
          assert lines[start..i + 1] == [];
        }
      } else {
        FlightLineStep(lines, start, i);
        if line != "" && Trim(line) != "" && DateRow(line) {
          flightLines := flightLines + [line];
        }
      }
      i := i + 1;
    }
    PrefixAll(lines);
    if sawHeader {
      assert lines[start..|lines|] == lines[start..];
    }
  }

  /** One more line after the header: it is kept exactly when the scan's three tests pass. */
  lemma FlightLineStep(lines: seq<string>, start: nat, i: nat)
    requires start <= i < |lines|
    ensures Filter(lines[start..i + 1], IsFlightLine) ==
      if lines[i] != "" && Trim(lines[i]) != "" && DateRow(lines[i])
      then Filter(lines[start..i], IsFlightLine) + [lines[i]]
      else Filter(lines[start..i], IsFlightLine)
  {
    FilterSliceSnoc(lines, start, i, IsFlightLine);
    TrimEmpty(lines[i]);
  }

  // ---------------------------------------------------------------- rows

  /** `get(fields, name)`: the field in the named column, or "" when the column or the field is missing. */
  function Get(fields: seq<string>, colIndex: map<string, nat>, name: string): (r: string)
    ensures name !in colIndex ==> r == ""
    ensures name in colIndex && colIndex[name] >= |fields| ==> r == ""
    ensures name in colIndex && colIndex[name] < |fields| ==> r == fields[colIndex[name]]
  {
    var i := Idx(colIndex, name);
    if i >= 0 then (if i < |fields| then fields[i] else "") else ""
  }

  /** `parseDate`, with `new Date(trimmed + "T00:00:00Z")` and its NaN test as `dateOf`. */
  function ParseDate(value: string, dateOf: string -> Option<int>): (r: Option<int>)
    ensures Trim(value) == "" ==> r.None?
    ensures Trim(value) != "" ==> r == dateOf(Trim(value))
  {
    if value == "" then None
    else
      var trimmed := Trim(value);
      if trimmed == "" then None else dateOf(trimmed)
  }

  /** `x || null` for a text field. */
  function TextOrNull(s: string): (r: Option<string>)
    ensures r.None? <==> s == ""
    ensures r.Some? ==> r.value == s
  {
    if s == "" then None else Some(s)
  }

  /** The date and float conversions the route delegates to the runtime. */
  datatype Parsers = Parsers(dateOf: string -> Option<int>, parseFloat: string -> Option<real>)

  /** A flight to create. */
  datatype ImportedFlight = ImportedFlight(
    date: int, fromIcao: string, toIcao: string,
    totalTime: Option<real>, pic: Option<real>, sic: Option<real>, night: Option<real>,
    crossCountry: Option<real>, ifr: Option<real>,
    dayLandings: int, nightLandings: int,
    route: Option<string>, remarks: Option<string>,
    aircraftMake: Option<string>, aircraftModel: Option<string>, aircraftType: Option<string>,
    tailNumber: Option<string>)

  /** The trimmed, upper-cased airport code in a column. */
  function CodeIn(fields: seq<string>, colIndex: map<string, nat>, name: string): string
  {
    Upper(Trim(Get(fields, colIndex, name)))
  }

  /** A code is empty exactly when its field is empty or white space. */
  lemma CodeInEmpty(fields: seq<string>, colIndex: map<string, nat>, name: string)
    ensures CodeIn(fields, colIndex, name) == "" <==> Blank(Get(fields, colIndex, name))
  {
    TrimEmpty(Get(fields, colIndex, name));
  }

  /** The parsed flight date of a row. */
  function DateIn(fields: seq<string>, colIndex: map<string, nat>, p: Parsers): Option<int>
  {
    ParseDate(Get(fields, colIndex, DateColumn), p.dateOf)
  }

  function FloatIn(fields: seq<string>, colIndex: map<string, nat>, p: Parsers, name: string): Option<real>
  {
    ParseFloatSafe(Some(Get(fields, colIndex, name)), p.parseFloat)
  }

  /** `parseIntSafe(...) ?? 0` */
  function LandingsIn(fields: seq<string>, colIndex: map<string, nat>, name: string): int
  {
    ParseIntSafe(Some(Get(fields, colIndex, name))).GetOr(0)
  }

  function TextIn(fields: seq<string>, colIndex: map<string, nat>, name: string): Option<string>
  {
    TextOrNull(Get(fields, colIndex, name))
  }

  /** The record created for an accepted row. */
  function FlightOf(fields: seq<string>, colIndex: map<string, nat>, p: Parsers, date: int, fromIcao: string, toIcao: string): ImportedFlight
  {
    ImportedFlight(
      date, fromIcao, toIcao,
      FloatIn(fields, colIndex, p, "flight_totalTime"), FloatIn(fields, colIndex, p, "flight_pic"),
      FloatIn(fields, colIndex, p, "flight_sic"), FloatIn(fields, colIndex, p, "flight_night"),
      FloatIn(fields, colIndex, p, "flight_crossCountry"), FloatIn(fields, colIndex, p, "flight_ifr"),
      LandingsIn(fields, colIndex, "flight_dayLandings"), LandingsIn(fields, colIndex, "flight_nightLandings"),
      TextIn(fields, colIndex, "flight_route"), TextIn(fields, colIndex, "flight_remarks"),
      TextIn(fields, colIndex, "aircraftType_make"), TextIn(fields, colIndex, "aircraftType_model"),
      TextIn(fields, colIndex, "aircraftType_type"), TextIn(fields, colIndex, "aircraft_secondaryID"))
  }

  /**
   * One flight line: rejected iff the date does not parse or a trimmed airport
   * code is empty; an accepted row carries the upper-cased codes and the date.
   */
  function ParseRow(line: string, colIndex: map<string, nat>, p: Parsers): (r: Option<ImportedFlight>)
    ensures var fields := Split(line, '\t');
      r.None? <==> (DateIn(fields, colIndex, p).None?
        || CodeIn(fields, colIndex, FromColumn) == "" || CodeIn(fields, colIndex, ToColumn) == "")
    ensures var fields := Split(line, '\t');
      r.Some? ==> (r.value.fromIcao == CodeIn(fields, colIndex, FromColumn) != ""
        && r.value.toIcao == CodeIn(fields, colIndex, ToColumn) != ""
        && DateIn(fields, colIndex, p) == Some(r.value.date))
  {
    var fields := Split(line, '\t');
    var flightDate := DateIn(fields, colIndex, p);
    var fromIcao := CodeIn(fields, colIndex, FromColumn);
    var toIcao := CodeIn(fields, colIndex, ToColumn);
    if flightDate.None? || fromIcao == "" || toIcao == "" then None
    else Some(FlightOf(fields, colIndex, p, flightDate.value, fromIcao, toIcao))
  }

  /** In an accepted row, unparsable landings are 0, an empty route is null and the hours are parsed leniently. */
  lemma RowFields(line: string, colIndex: map<string, nat>, p: Parsers)
    requires ParseRow(line, colIndex, p).Some?
    ensures var f, fields := ParseRow(line, colIndex, p).value, Split(line, '\t');
      (ParseIntSafe(Some(Get(fields, colIndex, "flight_dayLandings"))).None? ==> f.dayLandings == 0)
      && (ParseIntSafe(Some(Get(fields, colIndex, "flight_nightLandings"))).None? ==> f.nightLandings == 0)
      && (f.route.None? <==> Get(fields, colIndex, "flight_route") == "")
      && (f.totalTime.None? <==> ParseFloatSafe(Some(Get(fields, colIndex, "flight_totalTime")), p.parseFloat).None?)
  {
  }

  function RowOf(colIndex: map<string, nat>, p: Parsers): string -> Option<ImportedFlight>
  {
    (line: string) => ParseRow(line, colIndex, p)
  }

  /** `flightLines.map(...).filter((v) => v !== null)` */
  function Rows(lines: seq<string>, colIndex: map<string, nat>, p: Parsers): seq<ImportedFlight>
  {
    Somes(Project(lines, RowOf(colIndex, p)))
  }

  /** The codes of a list of flights, both ends. */
  function CodesOf(fs: seq<ImportedFlight>): (codes: set<string>)
    ensures forall c :: c in codes <==> exists f :: f in fs && (c == f.fromIcao || c == f.toIcao)
  {
    if fs == [] then {}
    else
      var n := |fs| - 1;
      assert fs == fs[..n] + [fs[n]];
      CodesOf(fs[..n]) + {fs[n].fromIcao, fs[n].toIcao}
  }

  /** The row `map` with its `icaos.add` calls: the flights, and the set of their codes. */
  method ParseRows(lines: seq<string>, colIndex: map<string, nat>, p: Parsers)
    returns (flights: seq<ImportedFlight>, icaos: set<string>)
    ensures flights == Rows(lines, colIndex, p)
    ensures icaos == CodesOf(flights)
  {
    flights, icaos := [], {};
    var i := 0;
    while i < |lines|
      invariant 0 <= i <= |lines|
      invariant flights == Rows(lines[..i], colIndex, p)
      invariant icaos == CodesOf(flights)
    {
      RowsStep(lines, i, colIndex, p);
      var r := ParseRow(lines[i], colIndex, p);
      if r.Some? {
        CodesSnoc(flights, r.value);
        icaos := icaos + {r.value.fromIcao, r.value.toIcao};
        flights := flights + [r.value];
      }
      i := i + 1;
    }
    assert lines[..|lines|] == lines;
  }

  lemma RowsStep(lines: seq<string>, i: nat, colIndex: map<string, nat>, p: Parsers)
    requires i < |lines|
    ensures var r := ParseRow(lines[i], colIndex, p);
      Rows(lines[..i + 1], colIndex, p) == Rows(lines[..i], colIndex, p) + (if r.Some? then [r.value] else [])
  {
    assert lines[..i + 1] == lines[..i] + [lines[i]];
    ProjectSnoc(lines[..i], lines[i], RowOf(colIndex, p));
    SomesSnoc(Project(lines[..i], RowOf(colIndex, p)), ParseRow(lines[i], colIndex, p));
  }

  lemma CodesSnoc(fs: seq<ImportedFlight>, f: ImportedFlight)
    ensures CodesOf(fs + [f]) == CodesOf(fs) + {f.fromIcao, f.toIcao}
  {
    assert (fs + [f])[..|fs|] == fs;
  }

  /** Every imported code is non-empty and already upper case. */
  lemma RowsCodes(lines: seq<string>, colIndex: map<string, nat>, p: Parsers)
    ensures forall c :: c in CodesOf(Rows(lines, colIndex, p)) ==> c != "" && Upper(c) == c
  {
    forall c | c in CodesOf(Rows(lines, colIndex, p)) ensures c != "" && Upper(c) == c {
      var f :| f in Rows(lines, colIndex, p) && (c == f.fromIcao || c == f.toIcao);
      var os := Project(lines, RowOf(colIndex, p));
      assert Some(f) in os;
      var k :| 0 <= k < |os| && os[k] == Some(f);
      var fields := Split(lines[k], '\t');
      UpperTwice(Trim(Get(fields, colIndex, FromColumn)));
      UpperTwice(Trim(Get(fields, colIndex, ToColumn)));
    }
  }

  lemma UpperTwice(s: string)
    ensures Upper(Upper(s)) == Upper(s)
  {
    assert forall i :: 0 <= i < |s| ==> UpperChar(UpperChar(s[i])) == UpperChar(s[i]);
  }

  // ---------------------------------------------------------------- the import

  datatype ImportError = EmptyTsv | MissingColumns(flightDate: int, from: int, to: int)

  datatype Parsed = Parsed(flights: seq<ImportedFlight>, icaos: set<string>)

  /** `text.replace(/\r\n/g, "\n").split("\n")` */
  function Lines(text: string): seq<string>
  {
    Split(CrlfToLf(text), '\n')
  }

  /**
   * The parse from text to flights: no non-blank line is "Empty TSV", a header
   * without the date, from or to column is "Missing required columns", and
   * otherwise the flights are the accepted flight lines and the codes theirs.
   */
  function Import(text: string, p: Parsers): (r: Result<Parsed, ImportError>)
    ensures r == Err(EmptyTsv) <==> forall i :: 0 <= i < |Lines(text)| ==> Blank(Lines(text)[i])
    ensures r.Err? && r.error.MissingColumns? ==>
      r.error.flightDate == -1 || r.error.from == -1 || r.error.to == -1
    ensures r.Err? && r.error.MissingColumns? <==>
      FindHeader(Lines(text)).Some? &&
      var headers := Headers(Lines(text)[FindHeader(Lines(text)).value]);
      DateColumn !in headers || FromColumn !in headers || ToColumn !in headers
    ensures r.Ok? ==>
      FindHeader(Lines(text)).Some? &&
      var headerLine := Lines(text)[FindHeader(Lines(text)).value];
      r.value.flights == Rows(FlightLines(Lines(text), headerLine), ColIndex(Headers(headerLine)), p)
    ensures r.Ok? ==> r.value.icaos == CodesOf(r.value.flights)
  {
    var lines := Lines(text);
    var h := FindHeader(lines);
    if h.None? then Err(EmptyTsv)
    else
      var headerLine := lines[h.value];
      var colIndex := ColIndex(Headers(headerLine));
      var iFlightDate := Idx(colIndex, DateColumn);
      var iFrom := Idx(colIndex, FromColumn);
      var iTo := Idx(colIndex, ToColumn);
      MissingColumnsIff(Headers(headerLine));
      if iFlightDate < 0 || iFrom < 0 || iTo < 0 then Err(MissingColumns(iFlightDate, iFrom, iTo))
      else
        var flights := Rows(FlightLines(lines, headerLine), colIndex, p);
        Ok(Parsed(flights, CodesOf(flights)))
  }

  /** The route's parsing steps, with its loops. */
  method RunImport(text: string, p: Parsers) returns (r: Result<Parsed, ImportError>)
    ensures r == Import(text, p)
  {
    var lines := Lines(text);
    var h := FindHeader(lines);
    if h.None? {
      return Err(EmptyTsv);
    }
    var headerLine := lines[h.value];
    var colIndex := BuildColIndex(Headers(headerLine));
    var iFlightDate := Idx(colIndex, DateColumn);
    var iFrom := Idx(colIndex, FromColumn);
    var iTo := Idx(colIndex, ToColumn);
    if iFlightDate < 0 || iFrom < 0 || iTo < 0 {
      return Err(MissingColumns(iFlightDate, iFrom, iTo));
    }
    var flightLines := SelectFlightLines(lines, headerLine);
    var flights, icaos := ParseRows(flightLines, colIndex, p);
    r := Ok(Parsed(flights, icaos));
  }

  /** The required-column test fails exactly when one of the three names is not a header. */
  lemma MissingColumnsIff(headers: seq<string>)
    ensures var colIndex := ColIndex(headers);
      Idx(colIndex, DateColumn) < 0 || Idx(colIndex, FromColumn) < 0 || Idx(colIndex, ToColumn) < 0
      <==> DateColumn !in headers || FromColumn !in headers || ToColumn !in headers
  {
    ColIndexDomain(headers, DateColumn);
    ColIndexDomain(headers, FromColumn);
    ColIndexDomain(headers, ToColumn);
  }

  // ---------------------------------------------------------------- the job

  datatype Job = Job(id: string, status: string, blobUrl: Option<string>)

  datatype GuardError = JobNotFound | NotReady(status: string, hasBlobUrl: bool) | MissingBlobUrl

  predicate HasBlobUrl(job: Job) { job.blobUrl.Some? && job.blobUrl.value != "" }

  /**
   * The checks before importing: a missing job, a status other than
   * `UPLOADED` and a missing or empty blob URL each answer 400; otherwise the
   * blob URL is fetched.
   */
  function Guard(job: Option<Job>): (r: Result<string, GuardError>)
    ensures r.Ok? <==> job.Some? && job.value.status == "UPLOADED" && HasBlobUrl(job.value)
    ensures r.Ok? ==> r.value == job.value.blobUrl.value
    ensures r == Err(JobNotFound) <==> job.None?
    ensures r.Err? && r.error.NotReady? ==>
      job.Some? && job.value.status != "UPLOADED" && r.error.status == job.value.status && (r.error.hasBlobUrl <==> HasBlobUrl(job.value))
    ensures r == Err(MissingBlobUrl) <==> job.Some? && job.value.status == "UPLOADED" && !HasBlobUrl(job.value)
  {
    if job.None? then Err(JobNotFound)
    else if job.value.status != "UPLOADED" then Err(NotReady(job.value.status, HasBlobUrl(job.value)))
    else if !HasBlobUrl(job.value) then Err(MissingBlobUrl)
    else Ok(job.value.blobUrl.value)
  }

  /** The stored failure message: the error's message, or "Import failed", cut to 500 characters. */
  function FailureMessage(message: string): (m: string)
    ensures 0 < |m| <= 500
    ensures message != "" ==> |m| <= |message| && m == message[..|m|] && (|message| <= 500 ==> m == message)
    ensures |message| > 500 ==> m == message[..500]
    ensures message == "" ==> m == "Import failed"
  {
    var full := if message == "" then "Import failed" else message;
    if |full| <= 500 then full else full[..500]
  }
}
