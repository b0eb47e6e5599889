/**
 * The signed Release table: printed by `sign_flat`, checked by `verify` (both scripts/repo.py) and read a
 * second time by `paragraphs` and `signed_hashes` (updates.py).
 */
module Release {
  import opened Text
  import opened Stanzas

  /** The size and SHA-256 digest of a metadata file. */
  datatype Stamp = Stamp(size: nat, digest: string)

  datatype Row = Row(digest: string, size: nat, name: string)

  datatype TableFault = Malformed | Unexpected | Mismatch | Incomplete | Empty

  const INDEXES: seq<string> := ["Packages", "Packages.gz"]
  const EXTRAS: seq<string> := ["snapshot.json", "promotion.json"]

  predicate Listable(name: string) {
    name in INDEXES || name in EXTRAS
  }

  predicate HexDigest(s: string) {
    |s| == 64 && forall i :: 0 <= i < 64 ==> IsDigit(s[i]) || 'a' <= s[i] <= 'f'
  }

  // ----- printing -------------------------------------------------------------

  function Padded(s: string): string {
    Spaces(if |s| < 16 then 16 - |s| else 0) + s
  }

  function RowLine(row: Row): string {
    " " + row.digest + " " + Padded(Decimal(row.size)) + " " + row.name
  }

  function RowLines(rows: seq<Row>): (ls: seq<string>)
    ensures |ls| == |rows| && forall k :: 0 <= k < |rows| ==> ls[k] == RowLine(rows[k])
  {
    seq(|rows|, k requires 0 <= k < |rows| => RowLine(rows[k]))
  }

  /** The fixed header of a Release file; only these four values vary. */
  function Header(suite: string, date: string, until: string, architectures: string): Entry {
    [ Field("Origin", ["Rougarou"]), Field("Label", ["Rougarou"]), Field("Suite", [suite]),
      Field("Codename", ["rougarou"]), Field("Date", [date]), Field("Valid-Until", [until]),
      Field("Architectures", [architectures]), Field("Description", ["Rougarou curated package snapshot"]),
      Field("Acquire-By-Hash", ["yes"]) ]
  }

  function ReleaseText(header: Entry, rows: seq<Row>): string {
    Join(EntryLines(header) + ["SHA256:"] + RowLines(rows), "\n") + "\n"
  }

  /** The rows of the metadata files present: both indexes, then whichever of the two extras exist. */
  function SignedRows(files: map<string, Stamp>): seq<Row>
    requires forall name :: name in INDEXES ==> name in files
  {
    RowsOf(files, INDEXES) + RowsOf(files, EXTRAS)
  }

  function RowsOf(files: map<string, Stamp>, names: seq<string>): (rows: seq<Row>)
    ensures forall row :: row in rows ==> row.name in names && row.name in files
    ensures forall row :: row in rows ==> files[row.name] == Stamp(row.size, row.digest)
    ensures forall name :: name in names && name in files ==> exists row :: row in rows && row.name == name
  {
    if names == [] then []
    else
      var n := names[0];
      var rest := RowsOf(files, names[1..]);
      if n in files then
        assert forall name :: name in names ==> name == n || name in names[1..];
        [Row(files[n].digest, files[n].size, n)] + rest
      else rest
  }

  // ----- reading --------------------------------------------------------------

  /** The three words of a table line; the size must be decimal. */
  function RowOf(line: string): Option<Row> {
    var words := Words(line);
    if |words| == 3 && Digits(words[1]) then Some(Row(words[0], Number(words[1]), words[2])) else None
  }

  predicate Named(rows: seq<Row>, name: string) {
    exists k :: 0 <= k < |rows| && rows[k].name == name
  }

  /** `verify`'s pass over the SHA256 field against the files present. */
  function CheckRows(lines: seq<string>, files: map<string, Stamp>, checked: seq<Row>): Result<seq<Row>, TableFault>
    decreases lines
  {
    if lines == [] then Ok(checked)
    else if Strip(lines[0]) == "" then CheckRows(lines[1..], files, checked)
    else match RowOf(lines[0])
      case None => Err(Malformed)
      case Some(row) =>
        if !Listable(row.name) || Named(checked, row.name) then Err(Unexpected)
        else if row.name !in files || files[row.name] != Stamp(row.size, row.digest) then Err(Mismatch)
        else CheckRows(lines[1..], files, checked + [row])
  }

  function CheckTable(value: string, files: map<string, Stamp>): Result<seq<Row>, TableFault> {
    match CheckRows(Lines(value), files, [])
    case Err(e) => Err(e)
    case Ok(rows) => if forall name :: name in INDEXES ==> Named(rows, name) then Ok(rows) else Err(Incomplete)
  }

  method VerifyTable(value: string, files: map<string, Stamp>) returns (out: Result<seq<Row>, TableFault>)
    ensures out == CheckTable(value, files)
    ensures out.Ok? ==> forall row :: row in out.value ==>
              row.name in files && files[row.name] == Stamp(row.size, row.digest)
  {
    var checked: seq<Row> := [];
    var lines := Lines(value);
    var k := 0;
    while k < |lines|
      invariant 0 <= k <= |lines|
      invariant CheckRows(lines, files, []) == CheckRows(lines[k..], files, checked)
      invariant forall row :: row in checked ==> row.name in files && files[row.name] == Stamp(row.size, row.digest)
    {
      assert lines[k..][1..] == lines[k + 1..];
      if Strip(lines[k]) != "" {
        match RowOf(lines[k])
        case None => return Err(Malformed);
        case Some(row) =>
          if !Listable(row.name) || Named(checked, row.name) {
            return Err(Unexpected);
          }
          if row.name !in files || files[row.name] != Stamp(row.size, row.digest) {
            return Err(Mismatch);
          }
          checked := checked + [row];
      }
      k := k + 1;
    }
    assert lines[k..] == [];
    out := if forall name :: name in INDEXES ==> Named(checked, name) then Ok(checked) else Err(Incomplete);
  }

  /** `signed_hashes`: every path with its digest and size. */
  function HashRows(lines: seq<string>, result: map<string, Stamp>): Result<map<string, Stamp>, TableFault>
    decreases lines
  {
    if lines == [] then Ok(result)
    else if Strip(lines[0]) == "" then HashRows(lines[1..], result)
    else match RowOf(lines[0])
      case None => Err(Malformed)
      case Some(row) =>
        if !HexDigest(row.digest) then Err(Malformed)
        else if row.name in result then Err(Unexpected)
        else HashRows(lines[1..], result[row.name := Stamp(row.size, row.digest)])
  }

  function SignedHashes(value: string): Result<map<string, Stamp>, TableFault> {
    match HashRows(Lines(value), map[])
    case Err(e) => Err(e)
    case Ok(result) => if result == map[] then Err(Empty) else Ok(result)
  }

  method ReadSignedHashes(value: string) returns (out: Result<map<string, Stamp>, TableFault>)
    ensures out == SignedHashes(value)
  {
    var result: map<string, Stamp> := map[];
    var lines := Lines(value);
    var k := 0;
    while k < |lines|
      invariant 0 <= k <= |lines|
      invariant HashRows(lines, map[]) == HashRows(lines[k..], result)
    {
      assert lines[k..][1..] == lines[k + 1..];
      if Strip(lines[k]) != "" {
        match RowOf(lines[k])
        case None => return Err(Malformed);
        case Some(row) =>
          if !HexDigest(row.digest) {
            return Err(Malformed);
          }
          if row.name in result {
            return Err(Unexpected);
          }
          result := result[row.name := Stamp(row.size, row.digest)];
      }
      k := k + 1;
    }
    assert lines[k..] == [];
    out := if result == map[] then Err(Empty) else Ok(result);
  }

  // ----- one row --------------------------------------------------------------

  predicate GoodRow(row: Row) {
    HexDigest(row.digest) && Solid(row.name)
  }

  predicate GoodRows(rows: seq<Row>) {
    && (forall k :: 0 <= k < |rows| ==> GoodRow(rows[k]))
    && (forall i, j :: 0 <= i < j < |rows| ==> rows[i].name != rows[j].name)
  }

  lemma HexIsSolid(s: string)
    requires HexDigest(s)
    ensures Solid(s)
  {
    forall i | 0 <= i < |s| ensures !IsSpace(s[i]) {
      assert IsDigit(s[i]) || 'a' <= s[i] <= 'f';
    }
  }

  lemma PrefixedWord(gap: nat, word: string, rest: string)
    requires Solid(word) && (rest == "" || IsSpace(rest[0]))
    ensures Words(Spaces(gap) + (word + rest)) == [word] + Words(rest)
  {
    SpacesThen(gap, word + rest);
    WordThen(word, rest);
  }

  lemma WordsOfRow(row: Row)
    requires GoodRow(row)
    ensures Words(RowLine(row)[1..]) == [row.digest, Decimal(row.size), row.name]
    ensures Words(RowLine(row)) == [row.digest, Decimal(row.size), row.name]
    ensures IsSpace(RowLine(row)[0]) && !IsSpace(RowLine(row)[1])
  {
    var number := Decimal(row.size);
    DigitsAreSolid(number);
    HexIsSolid(row.digest);
    var gap := if |number| < 16 then 16 - |number| else 0;
    var tail := Spaces(1) + (row.name + "");
    var middle := Spaces(gap + 1) + (number + tail);
    PrefixedWord(1, row.name, "");
    PrefixedWord(gap + 1, number, tail);
    PrefixedWord(0, row.digest, middle);
    PrefixedWord(1, row.digest, middle);
    RowLineParts(row, gap, number, tail, middle);
    var ws := [number] + Words(tail);
    assert ws == [number, row.name];
    assert [row.digest] + ws == [row.digest, number, row.name];
  }

  lemma RowLineParts(row: Row, gap: nat, number: string, tail: string, middle: string)
    requires number == Decimal(row.size) && gap == if |number| < 16 then 16 - |number| else 0
    requires tail == Spaces(1) + (row.name + "") && middle == Spaces(gap + 1) + (number + tail)
    ensures RowLine(row) == Spaces(1) + (row.digest + middle)
    ensures RowLine(row)[1..] == Spaces(0) + (row.digest + middle)
  {
    assert Spaces(1) == " " && Spaces(gap + 1) == " " + Spaces(gap);
    assert tail == " " + row.name;
    assert middle == " " + Spaces(gap) + number + " " + row.name;
  }

  lemma RowIsRead(row: Row)
    requires GoodRow(row)
    ensures RowOf(RowLine(row)) == Some(row) && RowOf(RowLine(row)[1..]) == Some(row)
  {
    WordsOfRow(row);
    NumberOfDecimal(row.size);
  }

  lemma RowIsOneLine(row: Row)
    requires GoodRow(row)
    ensures OneLine(RowLine(row)) && Indented(RowLine(row))
    ensures Strip(RowLine(row)) != "" && Strip(RowLine(row)[1..]) != ""
    ensures RowLine(row) != "" && OneLine(RowLine(row)[1..]) && RowLine(row)[1..] != ""
  {
    var number := Decimal(row.size);
    DigitsAreSolid(number);
    HexIsSolid(row.digest);
    var line := RowLine(row);
    forall i | 0 <= i < |line| ensures !IsBreak(line[i]) {
      var a, b := 1 + |row.digest|, 2 + |row.digest| + |Padded(number)|;
      if 1 <= i < a {
        assert line[i] == row.digest[i - 1];
      } else if a < i < b {
        assert line[i] == Padded(number)[i - a - 1];
      } else if b < i {
        assert line[i] == row.name[i - b - 1];
      }
    }
    WordsOfRow(row);
    StripBlank(line);
    StripBlank(line[1..]);
    assert !IsSpace(line[1..][0]);
  }

  // ----- the whole text -------------------------------------------------------

  /** Header fields with one-line values, under distinct well-formed keys other than SHA256. */
  predicate GoodHeader(header: Entry) {
    && DistinctKeys(header)
    && (forall i :: 0 <= i < |header| ==>
          && CanonicalKey(header[i].key) && header[i].key != "SHA256"
          && |header[i].lines| == 1 && OneLine(header[i].lines[0]))
  }

  /** The keys of the signed header, in order. */
  const HEADER_KEYS: seq<string> :=
    ["Origin", "Label", "Suite", "Codename", "Date", "Valid-Until", "Architectures", "Description", "Acquire-By-Hash"]

  lemma HeaderKeysAreGood(i: nat)
    requires i < 9
    ensures CanonicalKey(HEADER_KEYS[i])
  {
    if i == 0 { assert CanonicalKey("Origin"); }
    if i == 1 { assert CanonicalKey("Label"); }
    if i == 2 { assert CanonicalKey("Suite"); }
    if i == 3 { assert CanonicalKey("Codename"); }
    if i == 4 { assert CanonicalKey("Date"); }
    if i == 5 { assert CanonicalKey("Valid-Until"); }
    if i == 6 { assert CanonicalKey("Architectures"); }
    if i == 7 { assert CanonicalKey("Description"); }
    if i == 8 { assert CanonicalKey("Acquire-By-Hash"); }
  }

  lemma HeaderKeysDiffer(i: nat, j: nat)
    requires i < j < 9
    ensures HEADER_KEYS[i] != HEADER_KEYS[j] && HEADER_KEYS[i] != "SHA256" && HEADER_KEYS[j] != "SHA256"
  {
    assert |HEADER_KEYS[i]| != |HEADER_KEYS[j]| || HEADER_KEYS[i][0] != HEADER_KEYS[j][0];
    assert "SHA256"[5] == '6' && "Origin"[5] == 'n';
  }

  lemma SignedHeaderIsGood(suite: string, date: string, until: string, architectures: string)
    requires OneLine(suite) && OneLine(date) && OneLine(until) && OneLine(architectures)
    ensures GoodHeader(Header(suite, date, until, architectures))
  {
    var h := Header(suite, date, until, architectures);
    SignedValues(suite, date, until, architectures);
    forall i | 0 <= i < 9 ensures CanonicalKey(h[i].key) && h[i].key != "SHA256" {
      HeaderKeysAreGood(i);
      HeaderKeysDiffer(if i == 0 then 0 else i - 1, if i == 0 then 1 else i);
    }
    forall i, j | 0 <= i < j < 9 ensures h[i].key != h[j].key {
      HeaderKeysDiffer(i, j);
    }
  }

  lemma SignedValues(suite: string, date: string, until: string, architectures: string)
    requires OneLine(suite) && OneLine(date) && OneLine(until) && OneLine(architectures)
    ensures var h := Header(suite, date, until, architectures);
            |h| == 9 && forall i :: 0 <= i < 9 ==>
              h[i].key == HEADER_KEYS[i] && |h[i].lines| == 1 && OneLine(h[i].lines[0])
  {
    assert OneLine("Rougarou") && OneLine("rougarou") && OneLine("yes");
    assert OneLine("Rougarou curated package snapshot");
  }

  function StripHeader(header: Entry, both: bool): (h: Entry)
    requires forall i :: 0 <= i < |header| ==> |header[i].lines| == 1
    ensures |h| == |header|
    ensures forall i :: 0 <= i < |header| ==>
              h[i] == Field(header[i].key, [if both then Strip(header[i].lines[0]) else LStrip(header[i].lines[0])])
  {
    seq(|header|, i requires 0 <= i < |header| =>
      Field(header[i].key, [if both then Strip(header[i].lines[0]) else LStrip(header[i].lines[0])]))
  }

  lemma ReleaseLines(header: Entry, rows: seq<Row>)
    requires GoodHeader(header) && GoodRows(rows)
    ensures Lines(ReleaseText(header, rows)) == EntryLines(header) + ["SHA256:"] + RowLines(rows)
  {
    var lines := EntryLines(header) + ["SHA256:"] + RowLines(rows);
    HeaderLinesAreLines(header);
    assert OneLine("SHA256:");
    forall k | 0 <= k < |lines| ensures OneLine(lines[k]) {
      var n := |EntryLines(header)|;
      if k > n {
        assert lines[k] == RowLine(rows[k - n - 1]);
        RowIsOneLine(rows[k - n - 1]);
      }
    }
    JoinIsUnlines(lines);
    var s := ReleaseText(header, rows);
    assert s + "" == s;
    LinesOfUnlines(lines, s, "");
  }

  lemma {:induction false} HeaderLinesAreLines(header: Entry)
    requires forall i :: 0 <= i < |header| ==>
               OneLine(header[i].key) && |header[i].lines| == 1 && OneLine(header[i].lines[0])
    ensures forall k :: 0 <= k < |EntryLines(header)| ==> OneLine(EntryLines(header)[k])
  {
    if header != [] {
      HeaderLinesAreLines(header[1..]);
      assert OneLine(header[0].key + ": " + header[0].lines[0]);
    }
  }

  lemma {:induction false} ReadHeader(r: Reader, header: Entry)
    requires GoodHeader(header)
    requires forall i :: 0 <= i < |header| ==> !HasKey(r.entry, header[i].key)
    ensures ReadLines(r, EntryLines(header)) == Ok(r.(entry := r.entry + StripHeader(header, false)))
    ensures ScanLines(r, EntryLines(header)) == Ok(r.(entry := r.entry + StripHeader(header, true)))
    decreases |header|, 1
  {
    if header == [] {
      assert r.entry + StripHeader(header, false) == r.entry == r.entry + StripHeader(header, true);
    } else {
      var f, rest := header[0], header[1..];
      KeyLine(f.key, f.lines[0]);
      assert FieldLines(f) == [f.key + ": " + f.lines[0]];
      StripBlank(FieldLines(f)[0]);
      LStripMargin(f.lines[0]);
      ReadOne(r, FieldLines(f)[0]);
      ScanOne(r, FieldLines(f)[0]);
      ReadRestOfHeader(r, header, Field(f.key, [LStrip(f.lines[0])]));
      ScanRestOfHeader(r, header, Field(f.key, [Strip(f.lines[0])]));
    }
  }

  lemma LStripMargin(value: string)
    ensures LStrip(" " + value) == LStrip(value) && Strip(" " + value) == Strip(value)
  {
    assert (" " + value)[1..] == value;
  }

  lemma {:induction false} ReadRestOfHeader(r: Reader, header: Entry, first: Field)
    requires header != [] && GoodHeader(header) && first == StripHeader(header, false)[0]
    requires forall i :: 0 <= i < |header| ==> !HasKey(r.entry, header[i].key)
    requires ReadLines(r, FieldLines(header[0])) == Ok(r.(entry := r.entry + [first]))
    ensures ReadLines(r, EntryLines(header)) == Ok(r.(entry := r.entry + StripHeader(header, false)))
    decreases |header|, 0
  {
    var rest, next := header[1..], r.(entry := r.entry + [first]);
    NextHeader(r, header, first);
    ReadHeader(next, rest);
    var all := r.(entry := r.entry + StripHeader(header, false));
    StripRest(r.entry, header, first, false);
    ReadThen(r, FieldLines(header[0]), next, EntryLines(rest), all);
  }

  lemma StripRest(before: Entry, header: Entry, first: Field, both: bool)
    requires header != [] && forall i :: 0 <= i < |header| ==> |header[i].lines| == 1
    requires first == StripHeader(header, both)[0]
    ensures before + StripHeader(header, both) == before + [first] + StripHeader(header[1..], both)
  {
    assert StripHeader(header, both) == [first] + StripHeader(header[1..], both);
    Regroup(before, [first], StripHeader(header[1..], both), StripHeader(header, both));
  }

  lemma NextHeader(r: Reader, header: Entry, first: Field)
    requires header != [] && GoodHeader(header) && first.key == header[0].key
    requires forall i :: 0 <= i < |header| ==> !HasKey(r.entry, header[i].key)
    ensures GoodHeader(header[1..])
    ensures forall i :: 0 <= i < |header[1..]| ==> !HasKey(r.entry + [first], header[1..][i].key)
  {
    RestIsNew(r.entry, first, header);
  }

  lemma {:induction false} ScanRestOfHeader(r: Reader, header: Entry, first: Field)
    requires header != [] && GoodHeader(header) && first == StripHeader(header, true)[0]
    requires forall i :: 0 <= i < |header| ==> !HasKey(r.entry, header[i].key)
    requires ScanLines(r, FieldLines(header[0])) == Ok(r.(entry := r.entry + [first]))
    ensures ScanLines(r, EntryLines(header)) == Ok(r.(entry := r.entry + StripHeader(header, true)))
    decreases |header|, 0
  {
    var rest, next := header[1..], r.(entry := r.entry + [first]);
    NextHeader(r, header, first);
    ReadHeader(next, rest);
    var all := r.(entry := r.entry + StripHeader(header, true));
    StripRest(r.entry, header, first, true);
    ScanThen(r, FieldLines(header[0]), next, EntryLines(rest), all);
  }

  /** The fields both readers find; the updater also drops the margin of the table rows. */
  function ReleaseFields(header: Entry, rows: seq<Row>, updater: bool): Entry
    requires forall i :: 0 <= i < |header| ==> |header[i].lines| == 1
  {
    StripHeader(header, updater) +
    [Field("SHA256", [""] + if updater then TrimMore(RowLines(rows)) else RowLines(rows))]
  }

  /** A field line with nothing but its key. */
  lemma BareKey(r: Reader, key: string, line: string)
    requires CanonicalKey(key) && key != "" && !HasKey(r.entry, key) && line == key + ":"
    ensures ReadLine(r, line) == Ok(r.(entry := r.entry + [Field(key, [""])]))
    ensures ScanLine(r, line) == Ok(r.(entry := r.entry + [Field(key, [""])]))
  {
    assert line == key + ":" + "";
    ColonOf(key, "");
    assert line[0] == key[0] && line[..|key|] == key && line[|key| + 1..] == "";
    StripBlank(line);
  }

  lemma TableHead(r: Reader)
    requires !HasKey(r.entry, "SHA256")
    ensures ReadLine(r, "SHA256:") == Ok(r.(entry := r.entry + [Field("SHA256", [""])]))
    ensures ScanLine(r, "SHA256:") == Ok(r.(entry := r.entry + [Field("SHA256", [""])]))
  {
    var key, line := "SHA256", "SHA256:";
    assert line == key + ":" && CanonicalKey(key);
    BareKey(r, key, line);
  }

  lemma RowLinesContinue(rows: seq<Row>)
    requires GoodRows(rows)
    ensures forall k :: 0 <= k < |rows| ==> Indented(RowLines(rows)[k]) && !Blank(RowLines(rows)[k])
  {
    forall k | 0 <= k < |rows| ensures Indented(RowLines(rows)[k]) && !Blank(RowLines(rows)[k]) {
      RowIsOneLine(rows[k]);
      StripBlank(RowLines(rows)[k]);
    }
  }

  lemma ReadTable(r: Reader, rows: seq<Row>)
    requires GoodRows(rows) && !HasKey(r.entry, "SHA256")
    ensures ReadLines(r, ["SHA256:"] + RowLines(rows)) ==
            Ok(r.(entry := r.entry + [Field("SHA256", [""] + RowLines(rows))]))
  {
    var more := RowLines(rows);
    TableHead(r);
    RowLinesContinue(rows);
    ReadOne(r, "SHA256:");
    ReadContinuations(r.done, r.entry, "SHA256", [""], more);
    var all := r.(entry := r.entry + [Field("SHA256", [""] + more)]);
    ReadThen(r, ["SHA256:"], r.(entry := r.entry + [Field("SHA256", [""])]), more, all);
  }

  lemma ScanTable(r: Reader, rows: seq<Row>)
    requires GoodRows(rows) && !HasKey(r.entry, "SHA256")
    ensures ScanLines(r, ["SHA256:"] + RowLines(rows)) ==
            Ok(r.(entry := r.entry + [Field("SHA256", [""] + TrimMore(RowLines(rows)))]))
  {
    var more := RowLines(rows);
    TableHead(r);
    RowLinesContinue(rows);
    ScanOne(r, "SHA256:");
    ScanContinuations(r.done, r.entry, "SHA256", [""], more);
    var all := r.(entry := r.entry + [Field("SHA256", [""] + TrimMore(more))]);
    ScanThen(r, ["SHA256:"], r.(entry := r.entry + [Field("SHA256", [""])]), more, all);
  }

  lemma NoTableYet(header: Entry, both: bool)
    requires GoodHeader(header)
    ensures !HasKey(StripHeader(header, both), "SHA256")
  {
  }

  /** The lines of a Release, header and table, with the blank line that every reader adds. */
  lemma ReleaseParts(header: Entry, rows: seq<Row>)
    requires GoodHeader(header) && GoodRows(rows)
    ensures Lines(ReleaseText(header, rows)) == EntryLines(header) + (["SHA256:"] + RowLines(rows))
    ensures ReadLines(START, EntryLines(header)) == Ok(Reader([], StripHeader(header, false)))
    ensures ScanLines(START, EntryLines(header)) == Ok(Reader([], StripHeader(header, true)))
  {
    ReleaseLines(header, rows);
    Regroup(EntryLines(header), ["SHA256:"], RowLines(rows), ["SHA256:"] + RowLines(rows));
    ReadHeader(START, header);
    assert START.entry + StripHeader(header, false) == StripHeader(header, false);
    assert START.entry + StripHeader(header, true) == StripHeader(header, true);
  }

  lemma ReleaseIsParsed(header: Entry, rows: seq<Row>)
    requires GoodHeader(header) && GoodRows(rows)
    ensures Records(ReleaseText(header, rows)) == Ok([ReleaseFields(header, rows, false)])
  {
    ReleaseParts(header, rows);
    var top, table := EntryLines(header), ["SHA256:"] + RowLines(rows);
    var a, x := Reader([], StripHeader(header, false)), Reader([], ReleaseFields(header, rows, false));
    NoTableYet(header, false);
    ReadTable(a, rows);
    ReadThen(START, top, a, table, x);
    ReadOne(x, "");
    ReadThen(START, top + table, x, [""], Close(x));
    assert [] + [x.entry] == [x.entry];
  }

  lemma ReleaseIsScanned(header: Entry, rows: seq<Row>)
    requires GoodHeader(header) && GoodRows(rows)
    ensures Paragraphs(ReleaseText(header, rows)) == Ok([ReleaseFields(header, rows, true)])
  {
    ReleaseParts(header, rows);
    var top, table := EntryLines(header), ["SHA256:"] + RowLines(rows);
    var b, y := Reader([], StripHeader(header, true)), Reader([], ReleaseFields(header, rows, true));
    NoTableYet(header, true);
    ScanTable(b, rows);
    ScanThen(START, top, b, table, y);
    StripBlank("");
    ScanOne(y, "");
    ScanThen(START, top + table, y, [""], Close(y));
    assert [] + [y.entry] == [y.entry];
  }

  /** Publisher and updater both find exactly one stanza in the printed Release, with the fields printed. */
  lemma ReleaseIsRead(header: Entry, rows: seq<Row>)
    requires GoodHeader(header) && GoodRows(rows)
    ensures Records(ReleaseText(header, rows)) == Ok([ReleaseFields(header, rows, false)])
    ensures Paragraphs(ReleaseText(header, rows)) == Ok([ReleaseFields(header, rows, true)])
  {
    ReleaseIsParsed(header, rows);
    ReleaseIsScanned(header, rows);
  }

  // ----- the table round trip -------------------------------------------------

  lemma {:induction false} LinesOfJoin(ls: seq<string>, s: string)
    requires ls != [] && ls[|ls| - 1] != "" && s == Join(ls, "\n")
    requires forall k :: 0 <= k < |ls| ==> OneLine(ls[k])
    ensures Lines(s) == ls
  {
    var front, last := ls[..|ls| - 1], ls[|ls| - 1];
    JoinLast(ls);
    LinesOfUnlines(front, s, last);
    assert FirstBreak(last) == |last|;
    assert front + [last] == ls;
  }

  lemma {:induction false} JoinLast(ls: seq<string>)
    requires ls != []
    ensures Join(ls, "\n") == Unlines(ls[..|ls| - 1]) + ls[|ls| - 1]
  {
    if |ls| > 1 {
      JoinLast(ls[1..]);
      assert ls[1..][..|ls| - 2] == ls[..|ls| - 1][1..];
    }
  }

  lemma LinesAfterNothing(ls: seq<string>)
    requires ls != [] && ls[|ls| - 1] != "" && forall k :: 0 <= k < |ls| ==> OneLine(ls[k])
    ensures Lines(Join([""] + ls, "\n")) == [""] + ls
  {
    var all := [""] + ls;
    assert all[|all| - 1] == ls[|ls| - 1];
    forall k | 0 <= k < |all| ensures OneLine(all[k]) {
      assert k > 0 ==> all[k] == ls[k - 1];
    }
    LinesOfJoin(all, Join(all, "\n"));
  }

  /** The SHA256 value as a reader holds it, split again into lines. */
  lemma TableLines(rows: seq<Row>)
    requires GoodRows(rows) && rows != []
    ensures Lines(Join([""] + RowLines(rows), "\n")) == [""] + RowLines(rows)
    ensures Lines(Join([""] + TrimMore(RowLines(rows)), "\n")) == [""] + TrimMore(RowLines(rows))
  {
    forall k | 0 <= k < |rows|
      ensures OneLine(RowLines(rows)[k]) && OneLine(TrimMore(RowLines(rows))[k])
      ensures RowLines(rows)[k] != "" && TrimMore(RowLines(rows))[k] != ""
    {
      RowIsOneLine(rows[k]);
    }
    LinesAfterNothing(RowLines(rows));
    LinesAfterNothing(TrimMore(RowLines(rows)));
  }

  predicate RowMatches(row: Row, files: map<string, Stamp>) {
    row.name in files && files[row.name] == Stamp(row.size, row.digest)
  }

  predicate Matches(rows: seq<Row>, files: map<string, Stamp>) {
    forall k :: 0 <= k < |rows| ==> RowMatches(rows[k], files)
  }

  lemma CheckPrintedRow(row: Row, more: seq<string>, files: map<string, Stamp>, checked: seq<Row>)
    requires GoodRow(row) && Listable(row.name) && !Named(checked, row.name)
    ensures CheckRows([RowLine(row)] + more, files, checked) ==
            if RowMatches(row, files) then CheckRows(more, files, checked + [row]) else Err(Mismatch)
  {
    RowIsRead(row);
    RowIsOneLine(row);
    assert ([RowLine(row)] + more)[1..] == more;
  }

  lemma MatchesFrom(rows: seq<Row>, k: nat, files: map<string, Stamp>)
    requires k < |rows|
    ensures Matches(rows[k..], files) <==> RowMatches(rows[k], files) && Matches(rows[k + 1..], files)
  {
    assert rows[k..] == [rows[k]] + rows[k + 1..];
  }

  lemma RowsFrom(rows: seq<Row>, k: nat)
    requires k < |rows|
    ensures rows[k..] == [rows[k]] + rows[k + 1..] && rows[..k] + [rows[k]] == rows[..k + 1]
    ensures RowLines(rows[k..]) == [RowLine(rows[k])] + RowLines(rows[k + 1..])
  {
  }

  lemma TrimMoreCons(line: string, rest: seq<string>)
    ensures TrimMore([line] + rest) == [Unindent(line)] + TrimMore(rest)
  {
  }

  lemma NotNamedYet(rows: seq<Row>, k: nat)
    requires GoodRows(rows) && k < |rows|
    ensures !Named(rows[..k], rows[k].name)
  {
  }

  lemma {:induction false} CheckPrintedRows(rows: seq<Row>, k: nat, files: map<string, Stamp>)
    requires GoodRows(rows) && k <= |rows| && forall i :: 0 <= i < |rows| ==> Listable(rows[i].name)
    ensures CheckRows(RowLines(rows[k..]), files, rows[..k]) ==
            if Matches(rows[k..], files) then Ok(rows) else Err(Mismatch)
    decreases |rows| - k
  {
    if k == |rows| {
      assert RowLines(rows[k..]) == [] && rows[..k] == rows;
    } else {
      RowsFrom(rows, k);
      NotNamedYet(rows, k);
      CheckPrintedRow(rows[k], RowLines(rows[k + 1..]), files, rows[..k]);
      CheckPrintedRows(rows, k + 1, files);
      MatchesFrom(rows, k, files);
    }
  }

  function Stamps(rows: seq<Row>): (m: map<string, Stamp>)
    ensures forall name :: name in m <==> Named(rows, name)
  {
    if rows == [] then map[]
    else
      var last := rows[|rows| - 1];
      var before := Stamps(rows[..|rows| - 1]);
      assert forall name :: Named(rows, name) <==> Named(rows[..|rows| - 1], name) || name == last.name by {
        assert rows == rows[..|rows| - 1] + [last];
      }
      before[last.name := Stamp(last.size, last.digest)]
  }

  lemma HashPrintedRow(row: Row, more: seq<string>, result: map<string, Stamp>)
    requires GoodRow(row) && row.name !in result
    ensures HashRows([Unindent(RowLine(row))] + more, result) ==
            HashRows(more, result[row.name := Stamp(row.size, row.digest)])
  {
    RowIsRead(row);
    RowIsOneLine(row);
    assert ([Unindent(RowLine(row))] + more)[1..] == more;
  }

  lemma {:induction false} HashPrintedRows(rows: seq<Row>, k: nat)
    requires GoodRows(rows) && k <= |rows|
    ensures HashRows(TrimMore(RowLines(rows[k..])), Stamps(rows[..k])) == Ok(Stamps(rows))
    decreases |rows| - k
  {
    if k == |rows| {
      assert TrimMore(RowLines(rows[k..])) == [] && rows[..k] == rows;
    } else {
      RowsFrom(rows, k);
      NotNamedYet(rows, k);
      TrimMoreCons(RowLine(rows[k]), RowLines(rows[k + 1..]));
      HashPrintedRow(rows[k], TrimMore(RowLines(rows[k + 1..])), Stamps(rows[..k]));
      assert rows[..k + 1][..k] == rows[..k];
      HashPrintedRows(rows, k + 1);
    }
  }

  /**
   * The printed table, seen through the publisher's own parser, passes `verify` against a set of files exactly
   * when every listed file is there with the size and digest signed.
   */
  lemma VerifyAcceptsExactlyTheSigned(header: Entry, signed: map<string, Stamp>, files: map<string, Stamp>)
    requires GoodHeader(header) && Signable(signed)
    ensures var rows := SignedRows(signed);
            var table := Field("SHA256", [""] + RowLines(rows));
            && Records(ReleaseText(header, rows)) == Ok([StripHeader(header, false) + [table]])
            && CheckTable(Join(table.lines, "\n"), files) == if Matches(rows, files) then Ok(rows) else Err(Mismatch)
  {
    var rows := SignedRows(signed);
    SignedRowsAreGood(signed);
    ReleaseIsRead(header, rows);
    TableLines(rows);
    StripBlank("");
    var lines := [""] + RowLines(rows);
    assert lines[1..] == RowLines(rows[0..]) && rows[..0] == [] && rows[0..] == rows;
    CheckPrintedRows(rows, 0, files);
  }

  /** What `sign_flat` has at hand: both indexes, perhaps the extras, and nothing else, each with a real digest. */
  predicate Signable(signed: map<string, Stamp>) {
    && (forall name :: name in INDEXES ==> name in signed)
    && (forall name :: name in signed ==> Listable(name) && HexDigest(signed[name].digest))
  }

  lemma SignedRowsAreGood(signed: map<string, Stamp>)
    requires Signable(signed)
    ensures GoodRows(SignedRows(signed))
    ensures forall k :: 0 <= k < |SignedRows(signed)| ==> Listable(SignedRows(signed)[k].name)
    ensures forall name :: name in INDEXES ==> Named(SignedRows(signed), name)
    ensures SignedRows(signed) != []
  {
    var rows := SignedRows(signed);
    SignedNames(signed);
    SignedNamesDiffer(rows);
    forall k | 0 <= k < |rows| ensures GoodRow(rows[k]) {
      SignedRowIsGood(signed, k);
    }
  }

  lemma SignedRowIsGood(signed: map<string, Stamp>, k: nat)
    requires Signable(signed) && k < |SignedRows(signed)|
    ensures GoodRow(SignedRows(signed)[k])
  {
    var row := SignedRows(signed)[k];
    assert row in RowsOf(signed, INDEXES) || row in RowsOf(signed, EXTRAS);
    ListableIsSolid(row.name);
  }

  lemma SignedNamesDiffer(rows: seq<Row>)
    requires 2 <= |rows| <= 4 && rows[0].name == "Packages" && rows[1].name == "Packages.gz"
    requires |rows| == 3 ==> rows[2].name == "snapshot.json" || rows[2].name == "promotion.json"
    requires |rows| == 4 ==> rows[2].name == "snapshot.json" && rows[3].name == "promotion.json"
    ensures forall i, j :: 0 <= i < j < |rows| ==> rows[i].name != rows[j].name
    ensures forall k :: 0 <= k < |rows| ==> Listable(rows[k].name)
    ensures forall name :: name in INDEXES ==> Named(rows, name)
  {
    NamesAreDistinct();
    assert "snapshot.json" == EXTRAS[0] && "promotion.json" == EXTRAS[1];
    forall name | name in INDEXES ensures Named(rows, name) {
      assert name == rows[0].name || name == rows[1].name;
    }
  }

  lemma SignedNames(signed: map<string, Stamp>)
    requires Signable(signed)
    ensures var rows := SignedRows(signed);
            && 2 <= |rows| <= 4 && rows[0].name == "Packages" && rows[1].name == "Packages.gz"
            && (|rows| == 3 ==> rows[2].name == "snapshot.json" || rows[2].name == "promotion.json")
            && (|rows| == 4 ==> rows[2].name == "snapshot.json" && rows[3].name == "promotion.json")
  {
    assert "Packages" in INDEXES && "Packages.gz" in INDEXES;
    RowsOfTwo(signed, "Packages", "Packages.gz");
    RowsOfTwo(signed, "snapshot.json", "promotion.json");
  }

  lemma NamesAreDistinct()
    ensures "Packages" != "Packages.gz" && "snapshot.json" != "promotion.json"
    ensures "Packages" != "snapshot.json" && "Packages" != "promotion.json"
    ensures "Packages.gz" != "snapshot.json" && "Packages.gz" != "promotion.json"
  {
    assert "snapshot.json"[0] == 's' && "promotion.json"[0] == 'p' && "Packages.gz"[0] == 'P' && "Packages"[0] == 'P';
    assert |"Packages"| == 8 && |"Packages.gz"| == 11;
  }

  lemma ListableIsSolid(name: string)
    requires Listable(name)
    ensures Solid(name)
  {
    assert name == "Packages" || name == "Packages.gz" || name == "snapshot.json" || name == "promotion.json";
  }

  lemma RowsOfTwo(files: map<string, Stamp>, x: string, y: string)
    ensures RowsOf(files, [x, y]) ==
            (if x in files then [Row(files[x].digest, files[x].size, x)] else []) +
            (if y in files then [Row(files[y].digest, files[y].size, y)] else [])
  {
    assert [x, y][1..] == [y] && [y][1..] == [];
    assert RowsOf(files, [y][1..]) == [];
    assert RowsOf(files, [y]) == if y in files then [Row(files[y].digest, files[y].size, y)] else [];
  }

  /** The updater's readers recover from the same text exactly the digest and size of every signed file. */
  lemma UpdaterReadsTheSigned(header: Entry, signed: map<string, Stamp>)
    requires GoodHeader(header) && Signable(signed)
    ensures var rows := SignedRows(signed);
            var table := Field("SHA256", [""] + TrimMore(RowLines(rows)));
            && Paragraphs(ReleaseText(header, rows)) == Ok([StripHeader(header, true) + [table]])
            && SignedHashes(Join(table.lines, "\n")) == Ok(signed)
  {
    var rows := SignedRows(signed);
    SignedRowsAreGood(signed);
    ReleaseIsRead(header, rows);
    TableLines(rows);
    StripBlank("");
    var lines := [""] + TrimMore(RowLines(rows));
    assert lines[1..] == TrimMore(RowLines(rows[0..])) && rows[..0] == [] && rows[0..] == rows;
    HashPrintedRows(rows, 0);
    StampsOfSigned(signed);
  }

  lemma {:induction false} StampsAt(rows: seq<Row>, k: nat)
    requires GoodRows(rows) && k < |rows|
    ensures Stamps(rows)[rows[k].name] == Stamp(rows[k].size, rows[k].digest)
    ensures Named(rows, rows[k].name)
    decreases |rows|
  {
    if k < |rows| - 1 {
      StampsAt(rows[..|rows| - 1], k);
    }
  }

  lemma RowExists(files: map<string, Stamp>, names: seq<string>, name: string) returns (row: Row)
    requires name in names && name in files
    ensures row in RowsOf(files, names) && row.name == name
  {
    var rows := RowsOf(files, names);
    row :| row in rows && row.name == name;
  }

  lemma SignedIsNamed(signed: map<string, Stamp>, name: string)
    requires Signable(signed) && name in signed
    ensures Named(SignedRows(signed), name)
  {
    assert Listable(name);
    if name in INDEXES {
      var row := RowExists(signed, INDEXES, name);
      assert row in SignedRows(signed);
    } else {
      var row := RowExists(signed, EXTRAS, name);
      assert row in SignedRows(signed);
    }
  }

  lemma NamedIsSigned(signed: map<string, Stamp>, k: nat)
    requires Signable(signed) && k < |SignedRows(signed)|
    ensures var row := SignedRows(signed)[k];
            row.name in signed && signed[row.name] == Stamp(row.size, row.digest)
  {
    var row := SignedRows(signed)[k];
    assert row in RowsOf(signed, INDEXES) || row in RowsOf(signed, EXTRAS);
  }

  lemma StampIsSigned(signed: map<string, Stamp>, name: string)
    requires Signable(signed) && GoodRows(SignedRows(signed)) && name in Stamps(SignedRows(signed))
    ensures name in signed && Stamps(SignedRows(signed))[name] == signed[name]
  {
    var rows := SignedRows(signed);
    var k :| 0 <= k < |rows| && rows[k].name == name;
    StampsAt(rows, k);
    NamedIsSigned(signed, k);
  }

  lemma StampsOfSigned(signed: map<string, Stamp>)
    requires Signable(signed)
    ensures Stamps(SignedRows(signed)) == signed && signed != map[]
  {
    var rows := SignedRows(signed);
    SignedRowsAreGood(signed);
    forall name | name in signed ensures name in Stamps(rows) {
      SignedIsNamed(signed, name);
      assert Named(rows, name);
    }
    forall name | name in Stamps(rows) ensures name in signed && Stamps(rows)[name] == signed[name] {
      StampIsSigned(signed, name);
    }
    assert INDEXES[0] in signed;
  }

  // ----- source_text ----------------------------------------------------------

  datatype Source = Source(uri: string, suite: string, components: seq<string>, key: string)

  function SourceEntry(s: Source): Entry {
    [Field("Types", ["deb"]), Field("URIs", [s.uri]), Field("Suites", [s.suite])] +
    (if s.components == [] then [] else [Field("Components", [Join(s.components, " ")])]) +
    [Field("Architectures", ["amd64"]), Field("Signed-By", [s.key])]
  }

  function SourceEntries(sources: seq<Source>): (es: seq<Entry>)
    ensures |es| == |sources| && forall i :: 0 <= i < |sources| ==> es[i] == SourceEntry(sources[i])
  {
    seq(|sources|, i requires 0 <= i < |sources| => SourceEntry(sources[i]))
  }

  function SourceText(sources: seq<Source>): string {
    Join(PrintEntries(SourceEntries(sources)), "\n\n") + "\n"
  }

  /** A value that is its own stripped image and spans one line. */
  predicate Plain(s: string) {
    OneLine(s) && !Indented(s) && Strip(s) == s
  }

  lemma PlainField(key: string, value: string)
    requires CanonicalKey(key) && Plain(value)
    ensures CanonicalField(Field(key, [value])) && TrimField(Field(key, [value])) == Field(key, [value])
  {
    assert TrimMore([value][1..]) == [];
  }

  const SOURCE_KEYS: seq<string> := ["Types", "URIs", "Suites", "Components", "Architectures", "Signed-By"]

  lemma SourceKeysAreGood(i: nat)
    requires i < 6
    ensures CanonicalKey(SOURCE_KEYS[i])
  {
    if i == 0 { assert CanonicalKey("Types"); }
    if i == 1 { assert CanonicalKey("URIs"); }
    if i == 2 { assert CanonicalKey("Suites"); }
    if i == 3 { assert CanonicalKey("Components"); }
    if i == 4 { assert CanonicalKey("Architectures"); }
    if i == 5 { assert CanonicalKey("Signed-By"); }
  }

  lemma SourceFields(s: Source)
    requires Plain(s.uri) && Plain(s.suite) && Plain(s.key) && Plain(Join(s.components, " "))
    ensures var e := SourceEntry(s);
            && forall i :: 0 <= i < |e| ==>
                 && |e[i].lines| == 1 && Plain(e[i].lines[0])
                 && e[i].key == SOURCE_KEYS[if i < 3 || |e| == 6 then i else i + 1]
  {
    assert Plain("deb") && Plain("amd64");
  }

  lemma SourceEntryIsCanonical(s: Source)
    requires Plain(s.uri) && Plain(s.suite) && Plain(s.key) && Plain(Join(s.components, " "))
    ensures CanonicalEntry(SourceEntry(s)) && NoBlankMore(SourceEntry(s)) && TrimEntry(SourceEntry(s)) == SourceEntry(s)
  {
    var e := SourceEntry(s);
    SourceFields(s);
    forall i | 0 <= i < |e| ensures CanonicalField(e[i]) && TrimField(e[i]) == e[i] {
      SourceKeysAreGood(if i < 3 || |e| == 6 then i else i + 1);
      PlainField(e[i].key, e[i].lines[0]);
      assert e[i] == Field(e[i].key, [e[i].lines[0]]);
    }
    forall i, j | 0 <= i < j < |e| ensures e[i].key != e[j].key {
      assert |e[i].key| != |e[j].key|;
    }
  }

  /** The updater's printed APT sources are read back field for field by its own reader. */
  lemma SourceTextIsRead(sources: seq<Source>)
    requires sources != []
    requires forall i :: 0 <= i < |sources| ==>
               Plain(sources[i].uri) && Plain(sources[i].suite) && Plain(sources[i].key) &&
                   Plain(Join(sources[i].components, " "))
    ensures Paragraphs(SourceText(sources)) == Ok(SourceEntries(sources))
  {
    var es := SourceEntries(sources);
    forall i | 0 <= i < |es| ensures CanonicalEntry(es[i]) && NoBlankMore(es[i]) && TrimEntry(es[i]) == es[i] {
      SourceEntryIsCanonical(sources[i]);
    }
    ShorterText(es, SourceText(sources));
    ScanAll([], es);
    assert [] + Trimmed(es) == es;
  }

  lemma {:induction false} AllLinesEnd(entries: seq<Entry>)
    requires entries != []
    ensures |AllLines(entries)| > 0 && AllLines(entries)[|AllLines(entries)| - 1] == ""
  {
    if |entries| > 1 {
      AllLinesEnd(entries[1..]);
    }
  }

  lemma ShorterText(entries: seq<Entry>, text: string)
    requires Canonical(entries) && text + "\n" == Encode(entries)
    ensures Lines(text) + [""] == AllLines(entries)
  {
    var all := AllLines(entries);
    AllLinesEnd(entries);
    var front := all[..|all| - 1];
    assert all == front + [""];
    PrintedEntries(entries);
    UnlinesAppend(front, [""]);
    assert Unlines([""]) == "\n" by { assert Unlines([""][1..]) == ""; }
    assert text == Unlines(front) by {
      assert (text + "\n")[..|text|] == (Unlines(front) + "\n")[..|text|];
    }
    AllLinesAreLines(entries);
    assert text + "" == text;
    LinesOfUnlines(front, text, "");
  }
}
