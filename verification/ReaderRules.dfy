/** What one line does in each of the two readers, and the lines of the APT sources the updater writes. */
module ReaderRules {
  import opened Text
  import opened TextLaws
  import opened Stanzas
  import opened Release

  // ----- the publisher's reader ---------------------------------------------------------------------------

  /** The line is a key without colons, the colon, and what follows it; it does not begin with white space. */
  predicate IsField(line: string, key: string, rest: string) {
    line == key + ":" + rest && ':' !in key && (key == "" || key[0] !in SPACES)
  }

  /** The rest is white space and this value, which does not begin with any. */
  predicate IsAfterGap(rest: string, gap: string, value: string) {
    rest == gap + value && AllOf(gap, SPACES) && (value == "" || value[0] !in SPACES)
  }

  predicate IsNew(entry: Entry, key: string) {
    forall i :: 0 <= i < |entry| ==> entry[i].key != key
  }

  lemma FieldLine(line: string, key: string, rest: string)
    requires IsField(line, key, rest)
    ensures line != "" && !IsSpace(line[0]) && Colon(line) == |key| < |line|
    ensures line[..|key|] == key && line[|key| + 1..] == rest
  {
    ColonOf(key, rest);
    SpaceIs(line[0]);
  }

  /** A new field is added, without the white space before its value; a known one, or no colon, is an error. */
  lemma FieldIsRead(r: Reader, line: string, key: string, gap: string, value: string)
    requires IsField(line, key, gap + value) && IsAfterGap(gap + value, gap, value)
    ensures ReadLine(r, line) ==
            if IsNew(r.entry, key) then Ok(Reader(r.done, r.entry + [Field(key, [value])])) else Err(BadField)
  {
    FieldLine(line, key, gap + value);
    if value != "" {
      SpaceIs(value[0]);
    }
    TakenOffLeft(gap, value);
  }

  lemma {:induction false} NoColon(line: string)
    requires ':' !in line
    ensures Colon(line) == |line|
  {
  }

  lemma NoFieldIsRead(r: Reader, line: string)
    requires line != "" && line[0] !in SPACES && ':' !in line
    ensures ReadLine(r, line) == Err(BadField) && ScanLine(r, line) == Err(BadField)
  {
    SpaceIs(line[0]);
    NoColon(line);
    StripBlank(line);
  }

  /** A line that begins with white space goes on with the last field as it is; without one it is an error. */
  lemma ContinuationIsRead(r: Reader, line: string)
    requires line != "" && line[0] in SPACES
    ensures r.entry == [] || r.entry[|r.entry| - 1].key == "" ==> ReadLine(r, line) == Err(OrphanContinuation)
    ensures r.entry != [] && r.entry[|r.entry| - 1].key != "" ==>
              var last := r.entry[|r.entry| - 1];
              ReadLine(r, line) ==
              Ok(Reader(r.done, r.entry[..|r.entry| - 1] + [Field(last.key, last.lines + [line])]))
  {
    SpaceIs(line[0]);
  }

  /** An empty line ends the stanza, if there is one. */
  lemma EmptyIsRead(r: Reader)
    ensures ReadLine(r, "") == Ok(if r.entry == [] then r else Reader(r.done + [r.entry], []))
  {
  }

  /** Every line is of one of these four kinds. */
  lemma LineKinds(line: string) returns (key: string, gap: string, value: string)
    ensures line == "" || line[0] in SPACES || ':' !in line ||
            (IsField(line, key, gap + value) && IsAfterGap(gap + value, gap, value))
  {
    key, gap, value := "", "", "";
    if line != "" && line[0] !in SPACES && ':' in line {
      var n := Colon(line);
      var rest := line[n + 1..];
      key := line[..n];
      value := LStrip(rest);
      gap := LeftGap(rest);
      assert line == key + ":" + rest;
      assert rest == gap + value;
    }
  }

  lemma {:induction false} LeftGap(s: string) returns (gap: string)
    ensures IsAfterGap(s, gap, LStrip(s))
    decreases |s|
  {
    if s == "" || !IsSpace(s[0]) {
      gap := "";
      assert s == gap + s;
      if s != "" {
        SpaceIs(s[0]);
      }
    } else {
      var rest := LeftGap(s[1..]);
      SpaceIs(s[0]);
      gap := [s[0]] + rest;
      assert s == gap + LStrip(s);
    }
  }

  /** The stanzas are what the lines leave, one after the other, and an empty line at the end; none is an error. */
  lemma {:induction false} LinesThenLine(r: Reader, lines: seq<string>, line: string)
    ensures ReadLines(r, lines + [line]) ==
            match ReadLines(r, lines) case Err(e) => Err(e) case Ok(m) => ReadLine(m, line)
    ensures ReadLines(r, []) == Ok(r)
  {
    ReadAppend(r, lines, [line]);
    forall m: Reader ensures ReadLines(m, [line]) == ReadLine(m, line) {
      ReadOne(m, line);
    }
  }

  lemma RecordsAre(text: string)
    ensures Records(text) ==
            match ReadLines(Reader([], []), Lines(text) + [""])
            case Err(e) => Err(e)
            case Ok(r) => if |r.done| == 0 then Err(NoEntries) else Ok(r.done)
  {
  }

  // ----- the updater's reader -----------------------------------------------------------------------------

  /** White space around the value is dropped at both ends. */
  lemma FieldIsScanned(r: Reader, line: string, key: string, pre: string, value: string, post: string)
    requires IsField(line, key, pre + value + post) && AllOf(pre, SPACES) && AllOf(post, SPACES)
    requires value == "" ==> post == ""
    requires value != "" ==> value[0] !in SPACES && value[|value| - 1] !in SPACES
    ensures ScanLine(r, line) ==
            if IsNew(r.entry, key) then Ok(Reader(r.done, r.entry + [Field(key, [value])])) else Err(BadField)
  {
    FieldLine(line, key, pre + value + post);
    StripIs(pre, value, post);
    StripBlank(line);
  }

  /** A line that begins with white space, and has more, goes on with the last field, without that first character. */
  lemma ContinuationIsScanned(r: Reader, c: char, rest: string)
    requires c in SPACES && !AllOf(rest, SPACES)
    ensures r.entry == [] ==> ScanLine(r, [c] + rest) == Err(OrphanContinuation)
    ensures r.entry != [] ==>
              var last := r.entry[|r.entry| - 1];
              ScanLine(r, [c] + rest) ==
              Ok(Reader(r.done, r.entry[..|r.entry| - 1] + [Field(last.key, last.lines + [rest])]))
  {
    var line := [c] + rest;
    SpaceIs(c);
    assert line[1..] == rest;
    assert !AllOf(line, SPACES) by {
      var i :| 0 <= i < |rest| && rest[i] !in SPACES;
      assert line[i + 1] == rest[i];
    }
    StripBlank(line);
    SpacesAre(line);
  }

  /** A line of white space alone ends the stanza, if there is one. */
  lemma BlankIsScanned(r: Reader, line: string)
    requires AllOf(line, SPACES)
    ensures ScanLine(r, line) == Ok(if r.entry == [] then r else Reader(r.done + [r.entry], []))
  {
    StripBlank(line);
    SpacesAre(line);
  }

  lemma {:induction false} LinesThenScanned(r: Reader, lines: seq<string>, line: string)
    ensures ScanLines(r, lines + [line]) ==
            match ScanLines(r, lines) case Err(e) => Err(e) case Ok(m) => ScanLine(m, line)
    ensures ScanLines(r, []) == Ok(r)
  {
    ScanAppend(r, lines, [line]);
    forall m: Reader ensures ScanLines(m, [line]) == ScanLine(m, line) {
      ScanOne(m, line);
    }
  }

  // ----- the printed stanza ---------------------------------------------------------------------------------

  /** A field is printed as its key, a colon and a blank, and its lines. */
  lemma FieldIsPrinted(key: string, value: string, more: seq<string>, rest: Entry)
    ensures EntryLines([Field(key, [value] + more)] + rest) == [key + ": " + value] + more + EntryLines(rest)
    ensures EntryLines([]) == []
  {
    var f := Field(key, [value] + more);
    assert ([f] + rest)[1..] == rest && f.lines[1..] == more;
  }

  // ----- the APT sources -------------------------------------------------------------------------------------

  /** The lines of one source; components only where there are any. */
  predicate IsSource(lines: seq<string>, s: Source) {
    if s.components == [] then
      lines == ["Types: deb", "URIs: " + s.uri, "Suites: " + s.suite, "Architectures: amd64", "Signed-By: " + s.key]
    else
      lines == ["Types: deb", "URIs: " + s.uri, "Suites: " + s.suite, "Components: " + Join(s.components, " "),
                "Architectures: amd64", "Signed-By: " + s.key]
  }

  lemma OneField(key: string, value: string, rest: Entry)
    ensures EntryLines([Field(key, [value])] + rest) == [key + ": " + value] + EntryLines(rest)
  {
    FieldIsPrinted(key, value, [], rest);
    assert [value] + [] == [value];
  }

  lemma SourceKeysThen()
    ensures "Types" + ": " + "deb" == "Types: deb" && "URIs" + ": " == "URIs: " && "Suites" + ": " == "Suites: "
    ensures "Components" + ": " == "Components: " && "Architectures" + ": " + "amd64" == "Architectures: amd64"
    ensures "Signed-By" + ": " == "Signed-By: "
  {
  }

  lemma SourceIs(s: Source)
    ensures IsSource(EntryLines(SourceEntry(s)), s)
  {
    var key := Field("Signed-By", [s.key]);
    var arch := Field("Architectures", ["amd64"]);
    var last := [arch, key];
    SourceKeysThen();
    OneField("Signed-By", s.key, []);
    OneField("Architectures", "amd64", [key]);
    assert EntryLines(last) == ["Architectures: amd64", "Signed-By: " + s.key];
    var tail := last;
    if s.components != [] {
      var components := Join(s.components, " ");
      OneField("Components", components, last);
      tail := [Field("Components", [components])] + last;
    }
    OneField("Suites", s.suite, tail);
    OneField("URIs", s.uri, [Field("Suites", [s.suite])] + tail);
    OneField("Types", "deb", [Field("URIs", [s.uri])] + ([Field("Suites", [s.suite])] + tail));
    assert SourceEntry(s) ==
           [Field("Types", ["deb"])] + ([Field("URIs", [s.uri])] + ([Field("Suites", [s.suite])] + tail));
  }

  /** The sources are written one after the other, with an empty line between two. */
  predicate AreSources(lines: seq<string>, sources: seq<Source>)
    decreases |sources|
  {
    sources != [] &&
    var n := if sources[0].components == [] then 5 else 6;
    && n <= |lines| && IsSource(lines[..n], sources[0])
    && if |sources| == 1 then n == |lines|
       else n < |lines| && lines[n] == "" && AreSources(lines[n + 1..], sources[1..])
  }

  /** All the lines of the sources, each source followed by an empty line. */
  lemma {:induction false} SourcesAre(sources: seq<Source>, lines: seq<string>)
    requires sources != [] && lines + [""] == AllLines(SourceEntries(sources))
    ensures AreSources(lines, sources)
    decreases |sources|
  {
    var es := SourceEntries(sources);
    var first := EntryLines(SourceEntry(sources[0]));
    var n := |first|;
    SourceIs(sources[0]);
    var rest := AllLines(es[1..]);
    assert lines + [""] == first + [""] + rest;
    if |sources| == 1 {
      assert es[1..] == [];
      assert lines == first by {
        assert (lines + [""])[..|lines|] == lines && (first + [""])[..n] == first;
      }
      assert lines[..n] == first;
    } else {
      assert es[1..] == SourceEntries(sources[1..]);
      AllLinesEnd(es[1..]);
      Divided(lines, first, rest);
      SourcesAre(sources[1..], lines[n + 1..]);
    }
  }

  lemma Divided(lines: seq<string>, first: seq<string>, rest: seq<string>)
    requires rest != [] && rest[|rest| - 1] == "" && lines + [""] == first + [""] + rest
    ensures |first| < |lines| && lines[..|first|] == first && lines[|first|] == ""
    ensures lines[|first| + 1..] + [""] == rest
  {
    var all, n := lines + [""], |first|;
    assert all[..n] == first && all[n] == "" && all[n + 1..] == rest;
    assert lines[..n] == all[..n];
    assert lines[n + 1..] + [""] == all[n + 1..];
  }

  /** What the updater writes for its sources, line by line. */
  lemma {:induction false} SourceTextIs(sources: seq<Source>)
    requires sources != []
    requires forall i :: 0 <= i < |sources| ==>
               Plain(sources[i].uri) && Plain(sources[i].suite) && Plain(sources[i].key) &&
                 Plain(Join(sources[i].components, " "))
    ensures AreSources(Lines(SourceText(sources)), sources)
  {
    var es := SourceEntries(sources);
    forall i | 0 <= i < |es| ensures CanonicalEntry(es[i]) {
      SourceEntryIsCanonical(sources[i]);
    }
    ShorterText(es, SourceText(sources));
    SourcesAre(sources, Lines(SourceText(sources)));
  }
}
