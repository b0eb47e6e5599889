/** Control-file stanzas: the printer and parser of `scripts/repo.py` and the second reader in `updates.py`. */
module Stanzas {
  import opened Text

  /** One field; its value is `lines` joined by line feeds, the first being the text after the colon. */
  datatype Field = Field(key: string, lines: seq<string>)

  type Entry = seq<Field>

  datatype Fault = OrphanContinuation | BadField | NoEntries

  /** What a reader has finished, and the stanza it is inside. */
  datatype Reader = Reader(done: seq<Entry>, entry: Entry)

  predicate HasKey(entry: Entry, key: string) {
    exists i :: 0 <= i < |entry| && entry[i].key == key
  }

  /** The key a continuation line would extend: the last one read, or none. */
  function CurrentKey(entry: Entry): string {
    if entry == [] then "" else entry[|entry| - 1].key
  }

  function Close(r: Reader): Reader {
    if r.entry == [] then r else Reader(r.done + [r.entry], [])
  }

  function Extend(entry: Entry, line: string): Entry
    requires entry != []
  {
    var last := entry[|entry| - 1];
    entry[..|entry| - 1] + [last.(lines := last.lines + [line])]
  }

  // ----- `records` -----------------------------------------------------------

  function ReadLine(r: Reader, line: string): Result<Reader, Fault> {
    if line == "" then Ok(Close(r))
    else if IsSpace(line[0]) then
      if CurrentKey(r.entry) == "" then Err(OrphanContinuation)
      else Ok(r.(entry := Extend(r.entry, line)))
    else
      var n := Colon(line);
      if n == |line| || HasKey(r.entry, line[..n]) then Err(BadField)
      else Ok(r.(entry := r.entry + [Field(line[..n], [LStrip(line[n + 1..])])]))
  }

  function ReadLines(r: Reader, lines: seq<string>): Result<Reader, Fault>
    decreases lines
  {
    if lines == [] then Ok(r)
    else match ReadLine(r, lines[0])
      case Err(e) => Err(e)
      case Ok(next) => ReadLines(next, lines[1..])
  }

  const START := Reader([], [])

  function Records(text: string): Result<seq<Entry>, Fault> {
    match ReadLines(START, Lines(text) + [""])
    case Err(e) => Err(e)
    case Ok(r) => if r.done == [] then Err(NoEntries) else Ok(r.done)
  }

  /** The parser as the loop it is, over `result`, `entry` and `key`. */
  method ParseRecords(text: string) returns (out: Result<seq<Entry>, Fault>)
    ensures out == Records(text)
  {
    var result, entry, key := [], [], "";
    var lines := Lines(text) + [""];
    var k := 0;
    while k < |lines|
      invariant 0 <= k <= |lines|
      invariant key == CurrentKey(entry)
      invariant ReadLines(START, lines) == ReadLines(Reader(result, entry), lines[k..])
    {
      var line := lines[k];
      assert lines[k..][1..] == lines[k + 1..];
      if line == "" {
        if entry != [] {
          result, entry, key := result + [entry], [], "";
        }
      } else if IsSpace(line[0]) {
        if key == "" {
          return Err(OrphanContinuation);
        }
        entry := Extend(entry, line);
      } else {
        var n := Colon(line);
        if n == |line| || HasKey(entry, line[..n]) {
          return Err(BadField);
        }
        key := line[..n];
        entry := entry + [Field(key, [LStrip(line[n + 1..])])];
      }
      k := k + 1;
    }
    out := if result == [] then Err(NoEntries) else Ok(result);
  }

  // ----- `encode_records` ----------------------------------------------------

  function PrintField(f: Field): string {
    f.key + ": " + Join(f.lines, "\n")
  }

  function PrintFields(entry: Entry): seq<string> {
    if entry == [] then [] else [PrintField(entry[0])] + PrintFields(entry[1..])
  }

  function PrintEntries(entries: seq<Entry>): seq<string> {
    if entries == [] then [] else [Join(PrintFields(entries[0]), "\n")] + PrintEntries(entries[1..])
  }

  function Encode(entries: seq<Entry>): string {
    Join(PrintEntries(entries), "\n\n") + "\n\n"
  }

  // ----- canonical entries ---------------------------------------------------

  predicate CanonicalKey(key: string) {
    OneLine(key) && ':' !in key && !Indented(key)
  }

  predicate CanonicalField(f: Field) {
    && CanonicalKey(f.key)
    && f.lines != [] && OneLine(f.lines[0]) && !Indented(f.lines[0])
    && (forall k :: 1 <= k < |f.lines| ==> Indented(f.lines[k]) && OneLine(f.lines[k]))
    && (f.key == "" ==> |f.lines| == 1)
  }

  predicate DistinctKeys(entry: Entry) {
    forall i, j :: 0 <= i < j < |entry| ==> entry[i].key != entry[j].key
  }

  predicate CanonicalFields(entry: Entry) {
    DistinctKeys(entry) && forall i :: 0 <= i < |entry| ==> CanonicalField(entry[i])
  }

  predicate CanonicalEntry(entry: Entry) {
    entry != [] && CanonicalFields(entry)
  }

  predicate Canonical(entries: seq<Entry>) {
    entries != [] && forall i :: 0 <= i < |entries| ==> CanonicalEntry(entries[i])
  }

  // ----- printed text, line by line ------------------------------------------

  function FieldLines(f: Field): seq<string> {
    if f.lines == [] then [f.key + ": "] else [f.key + ": " + f.lines[0]] + f.lines[1..]
  }

  function EntryLines(entry: Entry): seq<string> {
    if entry == [] then [] else FieldLines(entry[0]) + EntryLines(entry[1..])
  }

  function AllLines(entries: seq<Entry>): seq<string> {
    if entries == [] then [] else EntryLines(entries[0]) + [""] + AllLines(entries[1..])
  }

  lemma {:induction false} PrintedField(f: Field)
    requires f.lines != []
    ensures PrintField(f) + "\n" == Unlines(FieldLines(f))
  {
    JoinIsUnlines(f.lines);
    assert FieldLines(f)[1..] == f.lines[1..];
    assert PrintField(f) + "\n" == f.key + ": " + (Join(f.lines, "\n") + "\n");
  }

  lemma {:induction false} PrintedEntry(entry: Entry)
    requires entry != [] && forall i :: 0 <= i < |entry| ==> entry[i].lines != []
    ensures Join(PrintFields(entry), "\n") + "\n" == Unlines(EntryLines(entry))
  {
    PrintedField(entry[0]);
    var rest := PrintFields(entry[1..]);
    UnlinesAppend(FieldLines(entry[0]), EntryLines(entry[1..]));
    if |entry| == 1 {
      assert rest == [];
    } else {
      PrintedEntry(entry[1..]);
      assert |rest| >= 1 && PrintFields(entry)[1..] == rest;
    }
  }

  lemma PrintedStanza(entry: Entry)
    requires CanonicalEntry(entry)
    ensures Join(PrintFields(entry), "\n") + "\n\n" == Unlines(EntryLines(entry) + [""])
  {
    var text := Join(PrintFields(entry), "\n");
    PrintedEntry(entry);
    UnlinesAppend(EntryLines(entry), [""]);
    assert Unlines([""]) == "\n" by { assert Unlines([""][1..]) == ""; }
    assert text + "\n\n" == text + "\n" + "\n";
  }

  lemma {:induction false} PrintedEntries(entries: seq<Entry>)
    requires Canonical(entries)
    ensures Encode(entries) == Unlines(AllLines(entries))
  {
    var head, rest := Join(PrintFields(entries[0]), "\n"), PrintEntries(entries[1..]);
    PrintedStanza(entries[0]);
    UnlinesAppend(EntryLines(entries[0]) + [""], AllLines(entries[1..]));
    assert PrintEntries(entries)[1..] == rest;
    if |entries| == 1 {
      assert rest == [] && AllLines(entries[1..]) == [];
    } else {
      PrintedEntries(entries[1..]);
      assert |rest| >= 1;
      assert Encode(entries) == (head + "\n\n") + Encode(entries[1..]);
    }
  }

  lemma {:induction false} EntryLinesAreLines(entry: Entry)
    requires forall i :: 0 <= i < |entry| ==> CanonicalField(entry[i])
    ensures forall k :: 0 <= k < |EntryLines(entry)| ==> OneLine(EntryLines(entry)[k])
  {
    if entry != [] {
      EntryLinesAreLines(entry[1..]);
      var f := entry[0];
      assert OneLine(f.key + ": " + f.lines[0]);
    }
  }

  lemma {:induction false} AllLinesAreLines(entries: seq<Entry>)
    requires forall i :: 0 <= i < |entries| ==> CanonicalEntry(entries[i])
    ensures forall k :: 0 <= k < |AllLines(entries)| ==> OneLine(AllLines(entries)[k])
  {
    if entries != [] {
      EntryLinesAreLines(entries[0]);
      AllLinesAreLines(entries[1..]);
    }
  }

  /** What `splitlines` makes of the printed text. */
  lemma EncodedLines(entries: seq<Entry>)
    requires Canonical(entries)
    ensures Lines(Encode(entries)) == AllLines(entries)
  {
    PrintedEntries(entries);
    AllLinesAreLines(entries);
    var s := Encode(entries);
    assert s + "" == s;
    LinesOfUnlines(AllLines(entries), s, "");
  }

  // ----- parse (print entries) == entries -------------------------------------

  lemma {:induction false} ReadAppend(r: Reader, a: seq<string>, b: seq<string>)
    ensures ReadLines(r, a + b) ==
            match ReadLines(r, a) case Err(e) => Err(e) case Ok(m) => ReadLines(m, b)
    decreases a
  {
    if a == [] {
      assert a + b == b;
    } else {
      assert (a + b)[1..] == a[1..] + b;
      var step := ReadLine(r, a[0]);
      if step.Ok? {
        ReadAppend(step.value, a[1..], b);
      }
    }
  }

  lemma {:induction false} ReadContinuations(done: seq<Entry>, before: Entry, key: string, have: seq<string>,
                                             more: seq<string>)
    requires key != "" || more == []
    requires forall k :: 0 <= k < |more| ==> Indented(more[k])
    ensures ReadLines(Reader(done, before + [Field(key, have)]), more) ==
            Ok(Reader(done, before + [Field(key, have + more)]))
    decreases more
  {
    if more == [] {
      assert have + more == have;
    } else {
      var r := Reader(done, before + [Field(key, have)]);
      assert Extend(r.entry, more[0]) == before + [Field(key, have + [more[0]])];
      assert (have + [more[0]]) + more[1..] == have + more;
      ReadContinuations(done, before, key, have + [more[0]], more[1..]);
    }
  }

  lemma KeyLine(key: string, value: string)
    requires CanonicalKey(key)
    ensures var line := key + ": " + value;
            && line != "" && !IsSpace(line[0])
            && Colon(line) == |key| && line[..|key|] == key && line[|key| + 1..] == " " + value
  {
    var line := key + ": " + value;
    assert line == key + ":" + (" " + value);
    ColonOf(key, " " + value);
  }

  lemma {:induction false} ReadField(r: Reader, f: Field)
    requires CanonicalField(f) && !HasKey(r.entry, f.key)
    ensures ReadLines(r, FieldLines(f)) == Ok(r.(entry := r.entry + [f]))
  {
    KeyLine(f.key, f.lines[0]);
    assert (" " + f.lines[0])[1..] == f.lines[0];
    assert LStrip(" " + f.lines[0]) == f.lines[0];
    assert FieldLines(f)[1..] == f.lines[1..];
    ReadContinuations(r.done, r.entry, f.key, [f.lines[0]], f.lines[1..]);
    assert [f.lines[0]] + f.lines[1..] == f.lines;
  }

  lemma NextFieldIsNew(before: Entry, entry: Entry)
    requires entry != [] && CanonicalFields(before + entry)
    ensures CanonicalField(entry[0]) && !HasKey(before, entry[0].key)
    ensures (before + [entry[0]]) + entry[1..] == before + entry
  {
    var whole := before + entry;
    assert whole[|before|] == entry[0];
    assert forall i :: 0 <= i < |before| ==> whole[i] == before[i];
  }

  lemma {:induction false} ReadEntry(r: Reader, entry: Entry, whole: Entry)
    requires whole == r.entry + entry && CanonicalFields(whole)
    ensures ReadLines(r, EntryLines(entry)) == Ok(r.(entry := whole))
    decreases entry
  {
    if entry == [] {
      assert whole == r.entry;
    } else {
      NextFieldIsNew(r.entry, entry);
      ReadField(r, entry[0]);
      var next := r.(entry := r.entry + [entry[0]]);
      ReadEntry(next, entry[1..], whole);
      ReadThen(r, FieldLines(entry[0]), next, EntryLines(entry[1..]), r.(entry := whole));
    }
  }

  lemma ReadStanza(done: seq<Entry>, entry: Entry)
    requires CanonicalEntry(entry)
    ensures ReadLines(Reader(done, []), EntryLines(entry) + [""]) == Ok(Reader(done + [entry], []))
  {
    var r := Reader(done, []);
    assert r.entry + entry == entry;
    ReadEntry(r, entry, entry);
    ReadAppend(r, EntryLines(entry), [""]);
    ReadOne(Reader(done, entry), "");
  }

  lemma ReadOne(r: Reader, line: string)
    ensures ReadLines(r, [line]) == ReadLine(r, line)
  {
    assert [line][1..] == [];
  }

  lemma ReadThen(r: Reader, a: seq<string>, m: Reader, b: seq<string>, z: Reader)
    requires ReadLines(r, a) == Ok(m) && ReadLines(m, b) == Ok(z)
    ensures ReadLines(r, a + b) == Ok(z)
  {
    ReadAppend(r, a, b);
  }

  lemma {:induction false} ReadAll(done: seq<Entry>, entries: seq<Entry>)
    requires forall i :: 0 <= i < |entries| ==> CanonicalEntry(entries[i])
    ensures ReadLines(Reader(done, []), AllLines(entries)) == Ok(Reader(done + entries, []))
    decreases entries
  {
    if entries == [] {
      assert done + entries == done;
    } else {
      var first, more := EntryLines(entries[0]) + [""], AllLines(entries[1..]);
      var mid, all := done + [entries[0]], done + entries;
      Regroup(done, [entries[0]], entries[1..], entries);
      ReadStanza(done, entries[0]);
      ReadAll(mid, entries[1..]);
      ReadThen(Reader(done, []), first, Reader(mid, []), more, Reader(all, []));
    }
  }

  /** Printing canonical entries and parsing the text gives the entries back. */
  lemma StanzaRoundTrip(entries: seq<Entry>)
    requires Canonical(entries)
    ensures Records(Encode(entries)) == Ok(entries)
  {
    EncodedLines(entries);
    ReadAll([], entries);
    assert [] + entries == entries;
    ReadAppend(START, AllLines(entries), [""]);
    ReadOne(Reader(entries, []), "");
  }

  // ----- whatever parses is canonical ----------------------------------------

  predicate CanonicalReader(r: Reader) {
    CanonicalFields(r.entry) && forall i :: 0 <= i < |r.done| ==> CanonicalEntry(r.done[i])
  }

  lemma ReadLineKeeps(r: Reader, line: string)
    requires CanonicalReader(r) && OneLine(line) && ReadLine(r, line).Ok?
    ensures CanonicalReader(ReadLine(r, line).value)
  {
    if line != "" && !IsSpace(line[0]) {
      var n := Colon(line);
      var key, value := line[..n], line[n + 1..];
      assert OneLine(key) && OneLine(value);
      assert CanonicalField(Field(key, [LStrip(value)]));
    } else if line != "" {
      var last := r.entry[|r.entry| - 1];
      assert CanonicalField(last.(lines := last.lines + [line]));
    }
  }

  lemma {:induction false} ReadLinesKeep(r: Reader, lines: seq<string>)
    requires CanonicalReader(r) && ReadLines(r, lines).Ok?
    requires forall k :: 0 <= k < |lines| ==> OneLine(lines[k])
    ensures CanonicalReader(ReadLines(r, lines).value)
    decreases lines
  {
    if lines != [] {
      ReadLineKeeps(r, lines[0]);
      ReadLinesKeep(ReadLine(r, lines[0]).value, lines[1..]);
    }
  }

  /** Every list of entries read from any text is canonical, so printing it and parsing again changes nothing. */
  lemma ParsedIsCanonical(text: string)
    requires Records(text).Ok?
    ensures Canonical(Records(text).value)
    ensures Records(Encode(Records(text).value)) == Records(text)
  {
    ReadLinesKeep(START, Lines(text) + [""]);
    StanzaRoundTrip(Records(text).value);
  }

  // ----- `paragraphs`: the updater's own reader -------------------------------

  function ScanLine(r: Reader, line: string): Result<Reader, Fault> {
    if Strip(line) == "" then Ok(Close(r))
    else if IsSpace(line[0]) then
      if r.entry == [] then Err(OrphanContinuation)
      else Ok(r.(entry := Extend(r.entry, line[1..])))
    else
      var n := Colon(line);
      if n == |line| || HasKey(r.entry, line[..n]) then Err(BadField)
      else Ok(r.(entry := r.entry + [Field(line[..n], [Strip(line[n + 1..])])]))
  }

  function ScanLines(r: Reader, lines: seq<string>): Result<Reader, Fault>
    decreases lines
  {
    if lines == [] then Ok(r)
    else match ScanLine(r, lines[0])
      case Err(e) => Err(e)
      case Ok(next) => ScanLines(next, lines[1..])
  }

  function Paragraphs(text: string): Result<seq<Entry>, Fault> {
    match ScanLines(START, Lines(text) + [""])
    case Err(e) => Err(e)
    case Ok(r) => Ok(r.done)
  }

  /** The updater's parser as its loop over `rows`, `row` and `previous`. */
  method ScanParagraphs(text: string) returns (out: Result<seq<Entry>, Fault>)
    ensures out == Paragraphs(text)
  {
    var rows, row, previous := [], [], None;
    var lines := Lines(text) + [""];
    var k := 0;
    while k < |lines|
      invariant 0 <= k <= |lines|
      invariant previous.None? <==> row == []
      invariant ScanLines(START, lines) == ScanLines(Reader(rows, row), lines[k..])
    {
      var line := lines[k];
      assert lines[k..][1..] == lines[k + 1..];
      if Strip(line) == "" {
        if row != [] {
          rows := rows + [row];
        }
        row, previous := [], None;
      } else if IsSpace(line[0]) {
        if previous.None? {
          return Err(OrphanContinuation);
        }
        row := Extend(row, line[1..]);
      } else {
        var n := Colon(line);
        if n == |line| || HasKey(row, line[..n]) {
          return Err(BadField);
        }
        row, previous := row + [Field(line[..n], [Strip(line[n + 1..])])], Some(line[..n]);
      }
      k := k + 1;
    }
    out := Ok(rows);
  }

  // ----- what the updater makes of the publisher's text -----------------------

  function Unindent(line: string): string {
    if line == "" then "" else line[1..]
  }

  function TrimMore(lines: seq<string>): (t: seq<string>)
    ensures |t| == |lines|
    ensures forall k :: 0 <= k < |lines| ==> t[k] == Unindent(lines[k])
  {
    seq(|lines|, k requires 0 <= k < |lines| => Unindent(lines[k]))
  }

  /** A field as the updater keeps it: the first line stripped, the margin of each further line dropped. */
  function TrimField(f: Field): Field {
    if f.lines == [] then f else f.(lines := [Strip(f.lines[0])] + TrimMore(f.lines[1..]))
  }

  function TrimEntry(entry: Entry): (t: Entry)
    ensures |t| == |entry|
    ensures forall i :: 0 <= i < |entry| ==> t[i] == TrimField(entry[i])
  {
    seq(|entry|, i requires 0 <= i < |entry| => TrimField(entry[i]))
  }

  function Trimmed(entries: seq<Entry>): (t: seq<Entry>)
    ensures |t| == |entries|
    ensures forall i :: 0 <= i < |entries| ==> t[i] == TrimEntry(entries[i])
  {
    seq(|entries|, i requires 0 <= i < |entries| => TrimEntry(entries[i]))
  }

  /** No continuation line consists of white space alone. */
  predicate NoBlankMore(entry: Entry) {
    forall i, k :: 0 <= i < |entry| && 1 <= k < |entry[i].lines| ==> !Blank(entry[i].lines[k])
  }

  predicate NoBlankContinuation(entries: seq<Entry>) {
    forall i :: 0 <= i < |entries| ==> NoBlankMore(entries[i])
  }

  lemma {:induction false} ScanAppend(r: Reader, a: seq<string>, b: seq<string>)
    ensures ScanLines(r, a + b) ==
            match ScanLines(r, a) case Err(e) => Err(e) case Ok(m) => ScanLines(m, b)
    decreases a
  {
    if a == [] {
      assert a + b == b;
    } else {
      assert (a + b)[1..] == a[1..] + b;
      var step := ScanLine(r, a[0]);
      if step.Ok? {
        ScanAppend(step.value, a[1..], b);
      }
    }
  }

  lemma {:induction false} ScanContinuations(done: seq<Entry>, before: Entry, key: string, have: seq<string>,
                                             more: seq<string>)
    requires forall k :: 0 <= k < |more| ==> Indented(more[k]) && !Blank(more[k])
    ensures ScanLines(Reader(done, before + [Field(key, have)]), more) ==
            Ok(Reader(done, before + [Field(key, have + TrimMore(more))]))
    decreases more
  {
    if more == [] {
      assert have + TrimMore(more) == have;
    } else {
      StripBlank(more[0]);
      var r := Reader(done, before + [Field(key, have)]);
      var next := have + [more[0][1..]];
      assert Extend(r.entry, more[0][1..]) == before + [Field(key, next)];
      assert next + TrimMore(more[1..]) == have + TrimMore(more);
      ScanContinuations(done, before, key, next, more[1..]);
    }
  }

  lemma {:induction false} ScanField(r: Reader, f: Field)
    requires CanonicalField(f) && !HasKey(r.entry, f.key)
    requires forall k :: 1 <= k < |f.lines| ==> !Blank(f.lines[k])
    ensures ScanLines(r, FieldLines(f)) == Ok(r.(entry := r.entry + [TrimField(f)]))
  {
    KeyLine(f.key, f.lines[0]);
    StripBlank(FieldLines(f)[0]);
    assert (" " + f.lines[0])[1..] == f.lines[0];
    assert LStrip(" " + f.lines[0]) == LStrip(f.lines[0]);
    assert FieldLines(f)[1..] == f.lines[1..];
    ScanContinuations(r.done, r.entry, f.key, [Strip(f.lines[0])], f.lines[1..]);
  }

  /** The keys still to come stay new when the first field of the entry is added. */
  lemma RestIsNew(before: Entry, f: Field, entry: Entry)
    requires entry != [] && DistinctKeys(entry) && f.key == entry[0].key
    requires forall i :: 0 <= i < |entry| ==> !HasKey(before, entry[i].key)
    ensures forall i :: 0 <= i < |entry[1..]| ==> !HasKey(before + [f], entry[1..][i].key)
  {
  }

  lemma RestIsCanonical(entry: Entry)
    requires entry != [] && CanonicalFields(entry) && NoBlankMore(entry)
    ensures CanonicalField(entry[0]) && CanonicalFields(entry[1..]) && NoBlankMore(entry[1..])
    ensures forall k :: 1 <= k < |entry[0].lines| ==> !Blank(entry[0].lines[k])
  {
  }

  lemma {:induction false} ScanEntry(r: Reader, entry: Entry, all: Entry)
    requires CanonicalFields(entry) && NoBlankMore(entry) && all == r.entry + TrimEntry(entry)
    requires forall i :: 0 <= i < |entry| ==> !HasKey(r.entry, entry[i].key)
    ensures ScanLines(r, EntryLines(entry)) == Ok(r.(entry := all))
    decreases entry
  {
    if entry == [] {
      assert all == r.entry;
    } else {
      var f, rest := entry[0], entry[1..];
      var next := r.(entry := r.entry + [TrimField(f)]);
      RestIsCanonical(entry);
      ScanField(r, f);
      RestIsNew(r.entry, TrimField(f), entry);
      Regroup(r.entry, [TrimField(f)], TrimEntry(rest), TrimEntry(entry));
      ScanEntry(next, rest, all);
      ScanThen(r, FieldLines(f), next, EntryLines(rest), r.(entry := all));
    }
  }

  lemma ScanOne(r: Reader, line: string)
    ensures ScanLines(r, [line]) == ScanLine(r, line)
  {
    assert [line][1..] == [];
  }

  lemma ScanThen(r: Reader, a: seq<string>, m: Reader, b: seq<string>, z: Reader)
    requires ScanLines(r, a) == Ok(m) && ScanLines(m, b) == Ok(z)
    ensures ScanLines(r, a + b) == Ok(z)
  {
    ScanAppend(r, a, b);
  }

  lemma ScanStanza(done: seq<Entry>, entry: Entry)
    requires CanonicalEntry(entry) && NoBlankMore(entry)
    ensures ScanLines(Reader(done, []), EntryLines(entry) + [""]) == Ok(Reader(done + [TrimEntry(entry)], []))
  {
    var r := Reader(done, []);
    assert r.entry + TrimEntry(entry) == TrimEntry(entry);
    ScanEntry(r, entry, TrimEntry(entry));
    ScanAppend(r, EntryLines(entry), [""]);
    StripBlank("");
    ScanOne(Reader(done, TrimEntry(entry)), "");
  }

  lemma {:induction false} ScanAll(done: seq<Entry>, entries: seq<Entry>)
    requires forall i :: 0 <= i < |entries| ==> CanonicalEntry(entries[i])
    requires NoBlankContinuation(entries)
    ensures ScanLines(Reader(done, []), AllLines(entries)) == Ok(Reader(done + Trimmed(entries), []))
    decreases entries
  {
    if entries == [] {
      assert done + Trimmed(entries) == done;
    } else {
      var first, more := EntryLines(entries[0]) + [""], AllLines(entries[1..]);
      var mid, all := done + [TrimEntry(entries[0])], done + Trimmed(entries);
      Regroup(done, [TrimEntry(entries[0])], Trimmed(entries[1..]), Trimmed(entries));
      ScanStanza(done, entries[0]);
      ScanAll(mid, entries[1..]);
      ScanThen(Reader(done, []), first, Reader(mid, []), more, Reader(all, []));
    }
  }

  /** The reader's own output never holds a continuation of white space alone. */
  lemma {:induction false} ScannedHasNoBlank(r: Reader, lines: seq<string>)
    requires NoBlankMore(r.entry) && NoBlankContinuation(r.done) && ScanLines(r, lines).Ok?
    ensures NoBlankContinuation(ScanLines(r, lines).value.done)
    decreases lines
  {
    if lines != [] {
      var line := lines[0];
      StripBlank(line);
      var next := ScanLine(r, line).value;
      if Strip(line) != "" && IsSpace(line[0]) {
        assert !Blank(line[1..]) by {
          var i :| 0 <= i < |line| && !IsSpace(line[i]);
          assert line[1..][i - 1] == line[i];
        }
      }
      assert NoBlankMore(next.entry);
      ScannedHasNoBlank(next, lines[1..]);
    }
  }

  lemma TrimmedBlank(entries: seq<Entry>)
    requires Canonical(entries) && NoBlankContinuation(Trimmed(entries))
    ensures NoBlankContinuation(entries)
  {
    forall i, j, k | 0 <= i < |entries| && 0 <= j < |entries[i]| && 1 <= k < |entries[i][j].lines|
      ensures !Blank(entries[i][j].lines[k])
    {
      var f := entries[i][j];
      assert CanonicalEntry(entries[i]) && CanonicalField(f);
      assert NoBlankMore(Trimmed(entries)[i]) && Trimmed(entries)[i][j] == TrimField(f);
      var t := TrimField(f).lines[k];
      assert t == f.lines[1..][k - 1][1..] == f.lines[k][1..];
      assert !Blank(t);
      var n :| 0 <= n < |t| && !IsSpace(t[n]);
      assert f.lines[k][n + 1] == t[n];
    }
  }

  /**
   * The updater reads the publisher's stanzas as their field-wise trimmed image exactly when no
   * continuation line is white space alone; the publisher's own parser keeps such lines.
   */
  lemma ParagraphsOfEncode(entries: seq<Entry>)
    requires Canonical(entries)
    ensures Paragraphs(Encode(entries)) == Ok(Trimmed(entries)) <==> NoBlankContinuation(entries)
  {
    EncodedLines(entries);
    if NoBlankContinuation(entries) {
      ScanAll([], entries);
      assert [] + Trimmed(entries) == Trimmed(entries);
      ScanAppend(START, AllLines(entries), [""]);
      StripBlank("");
      ScanOne(Reader(Trimmed(entries), []), "");
    } else if Paragraphs(Encode(entries)) == Ok(Trimmed(entries)) {
      ScannedHasNoBlank(START, Lines(Encode(entries)) + [""]);
      TrimmedBlank(entries);
    }
  }

  /** A field with a continuation line of one blank. */
  function BlankContinuation(): seq<Entry> {
    [[Field("A", ["x", " "])]]
  }

  /** The publisher reads such a stanza back as it is, the updater does not read it as the same stanza. */
  lemma BlankContinuationIsLost()
    ensures Records(Encode(BlankContinuation())) == Ok(BlankContinuation())
    ensures Paragraphs(Encode(BlankContinuation())) != Ok(Trimmed(BlankContinuation()))
  {
    var es := BlankContinuation();
    var e := es[0];
    assert CanonicalKey("A") && OneLine("x") && OneLine(" ") && Indented(" ") && !Indented("x");
    assert e[0].lines[1] == " " && Blank(" ");
    assert CanonicalField(e[0]) && CanonicalEntry(e);
    StanzaRoundTrip(es);
    ParagraphsOfEncode(es);
  }
}
