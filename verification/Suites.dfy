/** The signed Release as a text, line by line, and which suite each directory of the store is signed for. */
module Suites {
  import opened Text
  import opened Stanzas
  import opened Release
  import opened Packages
  import opened Verification
  import opened Repository
  import opened Availability
  import opened SignedStore

  // ----- the text -----------------------------------------------------------------------------------

  /** The line of one file: its digest, its size in a column of sixteen, its name. */
  ghost predicate IsRow(line: string, name: string, text: string, sha: string -> string) {
    exists pad: nat :: line == " " + sha(text) + " " + Spaces(pad) + Decimal(|text|) + " " + name &&
      (pad == 0 || pad + |Decimal(|text|)| == 16) && pad + |Decimal(|text|)| >= 16
  }

  lemma RowIs(name: string, text: string, sha: string -> string)
    ensures IsRow(RowLine(Row(sha(text), |text|, name)), name, text, sha)
  {
    var d := Decimal(|text|);
    var pad := if |d| < 16 then 16 - |d| else 0;
    assert Padded(d) == Spaces(pad) + d;
    assert RowLine(Row(sha(text), |text|, name)) == " " + sha(text) + " " + Spaces(pad) + d + " " + name;
  }

  /** The first ten lines of a Release. */
  function HeadingLines(suite: string, h: Heading): seq<string> {
    ["Origin: Rougarou", "Label: Rougarou", "Suite: " + suite, "Codename: rougarou", "Date: " + h.date,
     "Valid-Until: " + h.until, "Architectures: " + h.architectures, "Description: Rougarou curated package snapshot",
     "Acquire-By-Hash: yes", "SHA256:"]
  }

  /** One line for each file that was there to be signed. */
  ghost predicate IsTable(rows: seq<string>, m: Top, sha: string -> string) {
    && |rows| == (if m.promotion.Some? then 4 else 3)
    && IsRow(rows[0], "Packages", m.packages, sha) && IsRow(rows[1], "Packages.gz", m.gz, sha)
    && IsRow(rows[2], "snapshot.json", m.manifest, sha)
    && (m.promotion.Some? ==> IsRow(rows[3], "promotion.json", m.promotion.value, sha))
  }

  /** The Release of a directory. */
  ghost predicate IsReleaseOf(lines: seq<string>, suite: string, h: Heading, m: Top, sha: string -> string) {
    |lines| >= 10 && lines[..10] == HeadingLines(suite, h) && IsTable(lines[10..], m, sha)
  }

  lemma NineLines(a: Field, b: Field, c: Field, d: Field, e: Field, f: Field, g: Field, h: Field, i: Field)
    requires |a.lines| == |b.lines| == |c.lines| == |d.lines| == |e.lines| == |f.lines| == 1
    requires |g.lines| == |h.lines| == |i.lines| == 1
    ensures EntryLines([a, b, c, d, e, f, g, h, i]) ==
            [a.key + ": " + a.lines[0], b.key + ": " + b.lines[0], c.key + ": " + c.lines[0],
             d.key + ": " + d.lines[0], e.key + ": " + e.lines[0], f.key + ": " + f.lines[0],
             g.key + ": " + g.lines[0], h.key + ": " + h.lines[0], i.key + ": " + i.lines[0]]
  {
    LineOff(a, [b, c, d, e, f, g, h, i]);
    LineOff(b, [c, d, e, f, g, h, i]);
    LineOff(c, [d, e, f, g, h, i]);
    LineOff(d, [e, f, g, h, i]);
    LineOff(e, [f, g, h, i]);
    LineOff(f, [g, h, i]);
    LineOff(g, [h, i]);
    LineOff(h, [i]);
    LineOff(i, []);
  }

  lemma LineOff(a: Field, more: Entry)
    requires |a.lines| == 1
    ensures EntryLines([a] + more) == [a.key + ": " + a.lines[0]] + EntryLines(more)
  {
    assert ([a] + more)[1..] == more;
  }

  lemma KeysThen()
    ensures "Origin" + ": " + "Rougarou" == "Origin: Rougarou" && "Label" + ": " + "Rougarou" == "Label: Rougarou"
    ensures "Codename" + ": " + "rougarou" == "Codename: rougarou"
    ensures "Acquire-By-Hash" + ": " + "yes" == "Acquire-By-Hash: yes"
    ensures "Suite" + ": " == "Suite: " && "Date" + ": " == "Date: " && "Valid-Until" + ": " == "Valid-Until: "
    ensures "Architectures" + ": " == "Architectures: "
  {
  }

  lemma DescriptionIs()
    ensures "Description" + ": " + "Rougarou curated package snapshot" ==
            "Description: Rougarou curated package snapshot"
  {
  }

  lemma HeadingIs(suite: string, h: Heading)
    ensures EntryLines(HeaderOf(suite, h)) ==
            ["Origin: Rougarou", "Label: Rougarou", "Suite: " + suite, "Codename: rougarou", "Date: " + h.date,
             "Valid-Until: " + h.until, "Architectures: " + h.architectures,
             "Description: Rougarou curated package snapshot", "Acquire-By-Hash: yes"]
  {
    NineLines(Field("Origin", ["Rougarou"]), Field("Label", ["Rougarou"]), Field("Suite", [suite]),
              Field("Codename", ["rougarou"]), Field("Date", [h.date]), Field("Valid-Until", [h.until]),
              Field("Architectures", [h.architectures]), Field("Description", ["Rougarou curated package snapshot"]),
              Field("Acquire-By-Hash", ["yes"]));
    KeysThen();
    DescriptionIs();
  }

  lemma RowsAre(m: Top, sha: string -> string)
    ensures SignedRows(FileStamps(m, sha)) ==
            [Row(sha(m.packages), |m.packages|, "Packages"), Row(sha(m.gz), |m.gz|, "Packages.gz"),
             Row(sha(m.manifest), |m.manifest|, "snapshot.json")] +
            (if m.promotion.Some? then [Row(sha(m.promotion.value), |m.promotion.value|, "promotion.json")] else [])
  {
    NamesAreDistinct();
    RowsOfTwo(FileStamps(m, sha), "Packages", "Packages.gz");
    RowsOfTwo(FileStamps(m, sha), "snapshot.json", "promotion.json");
  }

  lemma TableIs(m: Top, sha: string -> string)
    ensures IsTable(RowLines(SignedRows(FileStamps(m, sha))), m, sha)
  {
    RowsAre(m, sha);
    RowIs("Packages", m.packages, sha);
    RowIs("Packages.gz", m.gz, sha);
    RowIs("snapshot.json", m.manifest, sha);
    if m.promotion.Some? {
      RowIs("promotion.json", m.promotion.value, sha);
    }
  }

  lemma Composed(lines: seq<string>, nine: seq<string>, rows: seq<string>, suite: string, h: Heading, m: Top,
                 sha: string -> string)
    requires lines == nine + ["SHA256:"] + rows && nine + ["SHA256:"] == HeadingLines(suite, h) && IsTable(rows, m, sha)
    ensures IsReleaseOf(lines, suite, h, m, sha)
  {
    assert lines[..10] == nine + ["SHA256:"] && lines[10..] == rows;
  }

  /** What `sign_flat` writes as the Release, line by line. */
  lemma ReleaseIs(r: Signature, sha: string -> string)
    requires GoodSigned(r) && forall a :: HexDigest(sha(a))
    ensures IsReleaseOf(Lines(SignedRelease(r, sha)), r.suite, r.heading, r.over, sha)
  {
    var h, m := r.heading, r.over;
    SignedHeaderIsGood(r.suite, h.date, h.until, h.architectures);
    StampsAreSignable(m, sha);
    SignedRowsAreGood(FileStamps(m, sha));
    var rows := SignedRows(FileStamps(m, sha));
    ReleaseLines(HeaderOf(r.suite, h), rows);
    HeadingIs(r.suite, h);
    TableIs(m, sha);
    Composed(Lines(SignedRelease(r, sha)), EntryLines(HeaderOf(r.suite, h)), RowLines(rows), r.suite, h, m, sha);
  }

  // ----- which suite -----------------------------------------------------------------------------------

  /** The directory verifies as of this suite and snapshot, and its Release says this suite and no other. */
  ghost predicate IsOfSuite(t: Tree, suite: string, sid: Sid, bytes: map<Inode, string>, tools: Tools) {
    && OnDisk(t, bytes, tools) == Ok(Verified(suite, Some(sid)))
    && t.release.Some? && IsReleaseOf(Lines(SignedRelease(t.release.value, tools.sha)), suite,
                                      t.release.value.heading, t.top, tools.sha)
  }

  lemma SoundIsOfSuite(t: Tree, suite: string, bytes: map<Inode, string>, tools: Tools)
    requires Sound(t, suite, bytes, tools) && forall a :: HexDigest(tools.sha(a))
    requires suite == "snapshot" || suite == "testing" || suite == "stable"
    ensures IsOfSuite(t, suite, t.snapshot, bytes, tools)
  {
    SuiteIsWord(suite);
    SoundVerifies(t, suite, bytes, tools);
    ReleaseIs(t.release.value, tools.sha);
  }

  lemma PublicationIsOfSuite(s: Store, key: Key, tools: Tools)
    requires PublicationsSound(s, tools) && key in s.publications && forall a :: HexDigest(tools.sha(a))
    ensures IsOfSuite(s.publications[key], if key.channel == Stable then "stable" else "testing",
                      s.publications[key].snapshot, s.bytes, tools)
  {
    assert Kept(s.publications[key], SuiteOf(key.channel), s, tools);
    SoundIsOfSuite(s.publications[key], SuiteOf(key.channel), s.bytes, tools);
  }

  lemma SnapshotIsOfSuite(s: Store, sid: Sid, tools: Tools)
    requires SnapshotsSound(s, tools) && sid in s.snapshots && forall a :: HexDigest(tools.sha(a))
    ensures IsOfSuite(s.snapshots[sid], "snapshot", sid, s.bytes, tools)
  {
    assert SnapshotSound(s.snapshots[sid], sid, s.bytes, tools);
    SoundIsOfSuite(s.snapshots[sid], "snapshot", s.bytes, tools);
  }

  /** Snapshots are of suite `snapshot`, publications of testing of `testing`, publications of stable of `stable`. */
  ghost predicate AllOfTheirSuites(s: Store, tools: Tools) {
    && (forall sid :: sid in s.snapshots ==> IsOfSuite(s.snapshots[sid], "snapshot", sid, s.bytes, tools))
    && (forall key :: key in s.publications ==>
          IsOfSuite(s.publications[key], if key.channel == Stable then "stable" else "testing",
                    s.publications[key].snapshot, s.bytes, tools))
  }

  lemma StoreIsOfSuites(s: Store, tools: Tools)
    requires SnapshotsSound(s, tools) && PublicationsSound(s, tools) && forall a :: HexDigest(tools.sha(a))
    ensures AllOfTheirSuites(s, tools)
  {
    forall sid | sid in s.snapshots ensures IsOfSuite(s.snapshots[sid], "snapshot", sid, s.bytes, tools) {
      SnapshotIsOfSuite(s, sid, tools);
    }
    forall key | key in s.publications
      ensures IsOfSuite(s.publications[key], if key.channel == Stable then "stable" else "testing",
                        s.publications[key].snapshot, s.bytes, tools)
    {
      PublicationIsOfSuite(s, key, tools);
    }
  }

  /** In every reachable state every directory is signed for its suite, says so, and verifies as of it. */
  lemma EveryDirectoryIsOfItsSuite(run: seq<Step>, tools: Tools)
    requires Hashes(tools.sha, ContentsOf(run)) && Follows(EMPTY, run, tools)
    ensures AllOfTheirSuites(After(EMPTY, run, tools), tools)
  {
    RunIsSound(run, tools, ContentsOf(run));
    StoreIsOfSuites(After(EMPTY, run, tools), tools);
  }
}
