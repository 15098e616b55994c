/**
 * The airport-index builder: a minimal CSV line parser, and a pass over the
 * OurAirports rows that files each row's coordinates under its GPS code, its
 * ident and its IATA code, in that order, when the code is three or four
 * upper-case letters or digits; the first row to claim a code keeps it.
 *
 * JavaScript's `Number` conversion with its finiteness test is a function
 * parameter; reading and writing the files is not part of this model.
 */
module AirportIndex {
  import opened Wrappers
  import opened Seqs
  import opened Groups
  import opened Strings

  // ---------------------------------------------------------------- parseCsvLine

  /**
   * The fields the scan still produces from the rest `s` of the line, given the
   * field read so far and the quote state: `""` adds one `"` and keeps the
   * state, a lone `"` flips it and is dropped, a comma outside quotes ends the
   * field, and any other character is added to the field.
   */
  function Scan(s: string, cur: string, inQ: bool): seq<string>
    decreases |s|
  {
    if s == [] then [cur]
    else if s[0] == '"' && |s| > 1 && s[1] == '"' then Scan(s[2..], cur + ['"'], inQ)
    else if s[0] == '"' then Scan(s[1..], cur, !inQ)
    else if s[0] == ',' && !inQ then [cur] + Scan(s[1..], "", inQ)
    else Scan(s[1..], cur + [s[0]], inQ)
  }

  /** `parseCsvLine(line)` */
  function ParseCsvLine(line: string): seq<string>
  {
    Scan(line, "", false)
  }

  /** The `for` loop over the characters, with its `i++` past an escaped quote. */
  method ParseCsvLineLoop(line: string) returns (out: seq<string>)
    ensures out == ParseCsvLine(line)
  {
    out := [];
    var cur := "";
    var inQ := false;
    var i := 0;
    while i < |line|
      invariant 0 <= i <= |line|
      invariant out + Scan(line[i..], cur, inQ) == ParseCsvLine(line)
      decreases |line| - i
    {
      var ch := line[i];
      if ch == '"' && i + 1 < |line| && line[i + 1] == '"' {
        assert line[i..][2..] == line[i + 2..];
        cur := cur + ['"'];
        i := i + 2;
        continue;
      }
      assert line[i..][1..] == line[i + 1..];
      if ch == '"' {
        inQ := !inQ;
        i := i + 1;
        continue;
      }
      if ch == ',' && !inQ {
        out := out + [cur];
        cur := "";
        i := i + 1;
        continue;
      }
      cur := cur + [ch];
      i := i + 1;
    }
    out := out + [cur];
  }

  /** The commas the scan sees outside quotes. */
  function OutsideCommas(s: string, inQ: bool): nat
    decreases |s|
  {
    if s == [] then 0
    else if s[0] == '"' && |s| > 1 && s[1] == '"' then OutsideCommas(s[2..], inQ)
    else if s[0] == '"' then OutsideCommas(s[1..], !inQ)
    else if s[0] == ',' && !inQ then 1 + OutsideCommas(s[1..], inQ)
    else OutsideCommas(s[1..], inQ)
  }

  lemma {:induction false} ScanLength(s: string, cur: string, inQ: bool)
    ensures |Scan(s, cur, inQ)| == OutsideCommas(s, inQ) + 1
    decreases |s|
  {
    if s == [] {
    } else if s[0] == '"' && |s| > 1 && s[1] == '"' {
      ScanLength(s[2..], cur + ['"'], inQ);
    } else if s[0] == '"' {
      ScanLength(s[1..], cur, !inQ);
    } else if s[0] == ',' && !inQ {
      ScanLength(s[1..], "", inQ);
    } else {
      ScanLength(s[1..], cur + [s[0]], inQ);
    }
  }

  /** One field more than there are commas outside quotes, so never none. */
  lemma FieldCount(line: string)
    ensures |ParseCsvLine(line)| == OutsideCommas(line, false) + 1
    ensures |ParseCsvLine(line)| > 0
  {
    ScanLength(line, "", false);
  }

  lemma {:induction false} ScanNoQuotes(s: string, cur: string)
    requires '"' !in s
    ensures Scan(s, cur, false) == [cur + Split(s, ',')[0]] + Split(s, ',')[1..]
    decreases |s|
  {
    if s != [] {
      assert '"' !in s[1..];
      var rest := Split(s[1..], ',');
      assert s[0] in s;
      if s[0] == ',' {
        ScanNoQuotes(s[1..], "");
        assert cur + "" == cur;
        assert Split(s, ',') == [""] + rest;
        assert "" + rest[0] == rest[0];
        assert rest == [rest[0]] + rest[1..];
      } else {
        ScanNoQuotes(s[1..], cur + [s[0]]);
        assert Split(s, ',') == [[s[0]] + rest[0]] + rest[1..];
        assert cur + [s[0]] + rest[0] == cur + ([s[0]] + rest[0]);
      }
    } else {
      assert cur + "" == cur;
    }
  }

  /** A line without quotes splits exactly on its commas. */
  lemma SplitWithoutQuotes(line: string)
    requires '"' !in line
    ensures ParseCsvLine(line) == Split(line, ',')
  {
    ScanNoQuotes(line, "");
    var parts := Split(line, ',');
    assert "" + parts[0] == parts[0];
    assert parts == [parts[0]] + parts[1..];
  }

  lemma {:induction false} ScanInQuotes(t: string, rest: string, cur: string)
    requires '"' !in t
    ensures Scan(t + rest, cur, true) == Scan(rest, cur + t, true)
    decreases |t|
  {
    if t != [] {
      assert (t + rest)[0] == t[0];
      assert (t + rest)[1..] == t[1..] + rest;
      assert '"' !in t[1..];
      ScanInQuotes(t[1..], rest, cur + [t[0]]);
      assert cur + [t[0]] + t[1..] == cur + t;
    } else {
      assert t + rest == rest;
      assert cur + t == cur;
    }
  }

  /**
   * A quoted field keeps its commas and loses its quotes, provided it is not
   * empty (`""` is an escaped quote) and the closing quote is not followed by
   * another quote.
   */
  lemma QuotedField(t: string, rest: string, cur: string)
    requires |t| > 0 && '"' !in t
    requires rest == [] || rest[0] != '"'
    ensures Scan(['"'] + t + ['"'] + rest, cur, false) == Scan(rest, cur + t, false)
  {
    var s := ['"'] + t + ['"'] + rest;
    assert s[1] == t[0] && t[0] != '"';
    assert s[1..] == t + (['"'] + rest);
    ScanInQuotes(t, ['"'] + rest, cur);
    var q := ['"'] + rest;
    assert q[1..] == rest;
  }

  /** An empty quoted field is read as an escaped quote: it yields a lone `"`. */
  lemma EmptyQuotedField()
    ensures ParseCsvLine("\"\"") == ["\""]
  {
    assert "\"\""[2..] == "";
    assert "" + ['"'] == "\"";
  }

  // ---------------------------------------------------------------- keys

  predicate KeyChar(c: char) { IsAsciiUpper(c) || IsDigit(c) }

  /** `/^[A-Z0-9]{3,4}$/` */
  predicate ShortCode(key: string)
  {
    3 <= |key| <= 4 && forall i :: 0 <= i < |key| ==> KeyChar(key[i])
  }

  /** `/^K[A-Z0-9]{3}$/` */
  predicate KCode(key: string)
  {
    |key| == 4 && key[0] == 'K' && forall i :: 1 <= i < 4 ==> KeyChar(key[i])
  }

  /** The tests a candidate key must pass. */
  predicate Accepted(key: string)
  {
    key != "" && (ShortCode(key) || KCode(key))
  }

  /** The `K...` alternative adds nothing: a key is kept iff it is 3 or 4 letters or digits. */
  lemma AcceptedIff(key: string)
    ensures Accepted(key) <==> ShortCode(key)
  {
    if KCode(key) {
      assert KeyChar(key[0]);
    }
  }

  // ---------------------------------------------------------------- the index

  datatype LatLon = LatLon(lat: real, lon: real)

  /**
   * A map filled first-wins from key/value pairs in order
   * (`if (!airportIndex[key]) airportIndex[key] = ...`).
   */
  function FirstWins<K, V>(kvs: seq<(K, V)>): map<K, V>
  {
    if kvs == [] then map[]
    else
      var n := |kvs| - 1;
      var m := FirstWins(kvs[..n]);
      if kvs[n].0 in m then m else m[kvs[n].0 := kvs[n].1]
  }

  /** The index holds exactly the keys offered. */
  lemma {:induction false} FirstWinsKeys<K, V>(kvs: seq<(K, V)>, k: K)
    ensures k in FirstWins(kvs) <==> k in Project(kvs, Fst)
  {
    if kvs != [] {
      var n := |kvs| - 1;
      assert kvs == kvs[..n] + [kvs[n]];
      ProjectSnoc(kvs[..n], kvs[n], Fst);
      FirstWinsKeys(kvs[..n], k);
    }
  }

  lemma FirstWinsSnoc<K, V>(kvs: seq<(K, V)>, kv: (K, V))
    ensures FirstWins(kvs + [kv]) == if kv.0 in FirstWins(kvs) then FirstWins(kvs) else FirstWins(kvs)[kv.0 := kv.1]
  {
    assert (kvs + [kv])[..|kvs|] == kvs;
  }

  /** One candidate key offered to the index. */
  lemma OfferOne(done: seq<(string, LatLon)>, key: string, at: LatLon, next: map<string, LatLon>)
    requires next == FirstWins(done)
    ensures (if Accepted(key) && key !in next then next[key := at] else next)
         == FirstWins(done + (if Accepted(key) then [(key, at)] else []))
  {
    if Accepted(key) {
      FirstWinsSnoc(done, (key, at));
    } else {
      assert done + [] == done;
    }
  }

  /** A key maps to the value of the first pair that has it. */
  lemma {:induction false} FirstWinsFirst<K, V>(kvs: seq<(K, V)>, i: nat)
    requires i < |kvs| && forall j :: 0 <= j < i ==> kvs[j].0 != kvs[i].0
    ensures kvs[i].0 in FirstWins(kvs) && FirstWins(kvs)[kvs[i].0] == kvs[i].1
  {
    var n := |kvs| - 1;
    var init := kvs[..n];
    if i < n {
      assert init[i] == kvs[i];
      FirstWinsFirst(init, i);
    } else {
      FirstWinsKeys(init, kvs[i].0);
      assert kvs[i].0 !in Project(init, Fst) by {
        forall j | 0 <= j < |init| ensures Project(init, Fst)[j] != kvs[i].0 {
          assert init[j] == kvs[j];
        }
      }
    }
  }

  /** `cols[i]`, undefined outside the row. */
  function ColAt(cols: seq<string>, i: int): Option<string>
  {
    if 0 <= i < |cols| then Some(cols[i]) else None
  }

  /** `(cols[i] || "").trim().toUpperCase()` */
  function CodeAt(cols: seq<string>, i: int): string
  {
    Upper(Trim(ColAt(cols, i).GetOr("")))
  }

  /** `Number(cols[i])` with its finiteness test; `undefined` is NaN. */
  function NumberAt(cols: seq<string>, i: int, toNumber: string -> Option<real>): Option<real>
  {
    if ColAt(cols, i).None? then None else toNumber(ColAt(cols, i).value)
  }

  /** `header.indexOf(name)` */
  function IndexOf(header: seq<string>, name: string): (i: int)
    ensures i == -1 <==> name !in header
    ensures i >= 0 ==> i < |header| && header[i] == name && forall j :: 0 <= j < i ==> header[j] != name
  {
    if name in header then FirstIndex(header, name) else -1
  }

  /** The positions of the columns that are read. */
  datatype Columns = Columns(ident: int, gps: int, iata: int, lat: int, lon: int)

  function ColumnsOf(header: seq<string>): Columns
  {
    Columns(IndexOf(header, "ident"), IndexOf(header, "gps_code"), IndexOf(header, "iata_code"),
      IndexOf(header, "latitude_deg"), IndexOf(header, "longitude_deg"))
  }

  /** The candidate keys of a row, in the order they are tried. */
  function Candidates(cols: seq<string>, c: Columns): seq<string>
  {
    [CodeAt(cols, c.gps), CodeAt(cols, c.ident), CodeAt(cols, c.iata)]
  }

  /** The accepted keys, each with the row's coordinates. */
  function KeyPairs(keys: seq<string>, at: LatLon): (r: seq<(string, LatLon)>)
    ensures forall kv :: kv in r ==> Accepted(kv.0) && kv.1 == at
  {
    if keys == [] then []
    else
      var n := |keys| - 1;
      KeyPairs(keys[..n], at) + (if Accepted(keys[n]) then [(keys[n], at)] else [])
  }

  lemma KeyPairsSnoc(before: seq<(string, LatLon)>, keys: seq<string>, j: nat, at: LatLon)
    requires j < |keys|
    ensures before + KeyPairs(keys[..j + 1], at)
         == (before + KeyPairs(keys[..j], at)) + (if Accepted(keys[j]) then [(keys[j], at)] else [])
  {
    assert keys[..j + 1][..j] == keys[..j];
  }

  /** The coordinates of a row, when both are finite numbers. */
  function RowAt(cols: seq<string>, c: Columns, toNumber: string -> Option<real>): Option<LatLon>
  {
    var lat := NumberAt(cols, c.lat, toNumber);
    var lon := NumberAt(cols, c.lon, toNumber);
    if lat.Some? && lon.Some? then Some(LatLon(lat.value, lon.value)) else None
  }

  /** What one data row offers the index. */
  function RowPairs(row: string, c: Columns, toNumber: string -> Option<real>): seq<(string, LatLon)>
  {
    var cols := ParseCsvLine(row);
    var at := RowAt(cols, c, toNumber);
    if at.None? then [] else KeyPairs(Candidates(cols, c), at.value)
  }

  /** Everything the data rows offer, in row order. */
  function Pairs(rows: seq<string>, c: Columns, toNumber: string -> Option<real>): seq<(string, LatLon)>
  {
    if rows == [] then []
    else
      var n := |rows| - 1;
      Pairs(rows[..n], c, toNumber) + RowPairs(rows[n], c, toNumber)
  }

  lemma PairsSnoc(rows: seq<string>, r: nat, c: Columns, toNumber: string -> Option<real>)
    requires r < |rows|
    ensures Pairs(rows[..r + 1], c, toNumber) == Pairs(rows[..r], c, toNumber) + RowPairs(rows[r], c, toNumber)
  {
    assert rows[..r + 1][..r] == rows[..r];
  }

  /** `fs.readFileSync(...).trim().split("\n")` */
  function RawLines(text: string): (r: seq<string>)
    ensures |r| >= 1
  {
    Split(Trim(text), '\n')
  }

  /** The index the script writes, for the file's text. */
  function IndexFor(text: string, toNumber: string -> Option<real>): map<string, LatLon>
  {
    var raw := RawLines(text);
    FirstWins(Pairs(raw[1..], ColumnsOf(ParseCsvLine(raw[0])), toNumber))
  }

  /** Every key in the index passed the key tests; each is filed with the first coordinates offered for it. */
  lemma IndexForKeys(text: string, toNumber: string -> Option<real>, i: nat)
    ensures forall k :: k in IndexFor(text, toNumber) ==> ShortCode(k)
    ensures var raw := RawLines(text);
      var kvs := Pairs(raw[1..], ColumnsOf(ParseCsvLine(raw[0])), toNumber);
      i < |kvs| && (forall j :: 0 <= j < i ==> kvs[j].0 != kvs[i].0) ==>
        kvs[i].0 in IndexFor(text, toNumber) && IndexFor(text, toNumber)[kvs[i].0] == kvs[i].1
  {
    var raw := RawLines(text);
    var kvs := Pairs(raw[1..], ColumnsOf(ParseCsvLine(raw[0])), toNumber);
    PairsAccepted(raw[1..], ColumnsOf(ParseCsvLine(raw[0])), toNumber);
    forall k | k in IndexFor(text, toNumber) ensures ShortCode(k) {
      FirstWinsKeys(kvs, k);
      ProjectMember(kvs, Fst, k);
      AcceptedIff(k);
    }
    if i < |kvs| && (forall j :: 0 <= j < i ==> kvs[j].0 != kvs[i].0) {
      FirstWinsFirst(kvs, i);
    }
  }

  lemma {:induction false} PairsAccepted(rows: seq<string>, c: Columns, toNumber: string -> Option<real>)
    ensures forall kv :: kv in Pairs(rows, c, toNumber) ==> Accepted(kv.0)
  {
    if rows != [] {
      PairsAccepted(rows[..|rows| - 1], c, toNumber);
    }
  }

  /** The inner `for (const key of [gps, ident, iata])` loop. */
  method OfferKeys(index: map<string, LatLon>, keys: seq<string>, at: LatLon, ghost before: seq<(string, LatLon)>)
    returns (next: map<string, LatLon>)
    requires index == FirstWins(before)
    ensures next == FirstWins(before + KeyPairs(keys, at))
  {
    next := index;
    var j := 0;
    assert before + KeyPairs(keys[..0], at) == before;
    while j < |keys|
      invariant 0 <= j <= |keys|
      invariant next == FirstWins(before + KeyPairs(keys[..j], at))
    {
      var key := keys[j];
      KeyPairsSnoc(before, keys, j, at);
      OfferOne(before + KeyPairs(keys[..j], at), key, at, next);
      if key != "" && (ShortCode(key) || KCode(key)) && key !in next {
        next := next[key := at];
      }
      j := j + 1;
    }
    assert keys[..|keys|] == keys;
  }

  /** The row loop, over the lines after the header. */
  method FillIndex(rows: seq<string>, c: Columns, toNumber: string -> Option<real>) returns (index: map<string, LatLon>)
    ensures index == FirstWins(Pairs(rows, c, toNumber))
  {
    index := map[];
    var r := 0;
    assert rows[..0] == [];
    while r < |rows|
      invariant 0 <= r <= |rows|
      invariant index == FirstWins(Pairs(rows[..r], c, toNumber))
    {
      var cols := ParseCsvLineLoop(rows[r]);
      PairsSnoc(rows, r, c, toNumber);
      var at := RowAt(cols, c, toNumber);
      if at.Some? {
        index := OfferKeys(index, Candidates(cols, c), at.value, Pairs(rows[..r], c, toNumber));
      } else {
        assert Pairs(rows[..r], c, toNumber) + [] == Pairs(rows[..r], c, toNumber);
      }
      r := r + 1;
    }
    assert rows[..r] == rows;
  }

  /** The script: the header row, then the data rows in order. */
  method BuildAirportIndex(text: string, toNumber: string -> Option<real>) returns (index: map<string, LatLon>)
    ensures index == IndexFor(text, toNumber)
  {
    var raw := RawLines(text);
    var header := ParseCsvLineLoop(raw[0]);
    index := FillIndex(raw[1..], ColumnsOf(header), toNumber);
  }
}
