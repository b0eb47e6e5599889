/** What `verify` of repo.py checks of a signed directory, and what passing it is worth. */
module Verification {
  import opened Text
  import opened Stanzas
  import opened Release
  import opened Packages

  /** The files at the top of a directory that a Release covers; a snapshot has no record of a promotion. */
  datatype Top = Top(packages: string, gz: string, manifest: string, promotion: Option<string>)

  /** What a Release says: a suite, what signing fills in, and the files as they were then. */
  datatype Signature = Signature(suite: string, heading: Heading, over: Top)

  /** SHA-256, gzip decompression, and the snapshot that a manifest names. */
  datatype Tools = Tools(sha: string -> string, gunzip: string -> Option<string>, identity: string -> Option<string>)

  /** What signing fills in from the clock and the index. */
  datatype Heading = Heading(date: string, until: string, architectures: string)

  datatype Verified = Verified(suite: string, snapshot: Option<string>)

  datatype Fault = BadRelease | BadTable | BadIndex

  predicate GoodHeading(h: Heading) {
    OneLine(h.date) && OneLine(h.until) && OneLine(h.architectures)
  }

  function StampOf(text: string, sha: string -> string): Stamp {
    Stamp(|text|, sha(text))
  }

  /** The files the table may list, as they are. */
  function FileStamps(m: Top, sha: string -> string): map<string, Stamp> {
    var always := map["Packages" := StampOf(m.packages, sha), "Packages.gz" := StampOf(m.gz, sha),
                      "snapshot.json" := StampOf(m.manifest, sha)];
    if m.promotion.Some? then always["promotion.json" := StampOf(m.promotion.value, sha)] else always
  }

  function HeaderOf(suite: string, h: Heading): Entry {
    Header(suite, h.date, h.until, h.architectures)
  }

  /** The Release text that `sign_flat` writes. */
  function SignedRelease(r: Signature, sha: string -> string): string {
    ReleaseText(HeaderOf(r.suite, r.heading), SignedRows(FileStamps(r.over, sha)))
  }

  predicate GoodSigned(r: Signature) {
    GoodHeading(r.heading) && OneLine(r.suite) && LStrip(r.suite) == r.suite
  }

  /** `release.get(key)`. */
  function ValueOf(entry: Entry, key: string): Option<string> {
    var i := At(entry, key);
    if i < |entry| then Some(Join(entry[i].lines, "\n")) else None
  }

  predicate GoodRelease(release: Entry) {
    && ValueOf(release, "Origin") == Some("Rougarou") && ValueOf(release, "Codename") == Some("rougarou")
    && ValueOf(release, "Valid-Until").Some?
  }

  function OrEmpty(value: Option<string>): string {
    if value.Some? then value.value else ""
  }

  /** `verify`, after the signatures; that the date has not passed is not part of this model. */
  function Verify(m: Top, release: string, pool: Files, tools: Tools): Result<Verified, Fault> {
    match Records(release)
    case Err(_) => Err(BadRelease)
    case Ok(entries) =>
      if |entries| != 1 || !GoodRelease(entries[0]) then Err(BadRelease)
      else match CheckTable(OrEmpty(ValueOf(entries[0], "SHA256")), FileStamps(m, tools.sha))
        case Err(_) => Err(BadTable)
        case Ok(rows) =>
          if !GoodIndex(m, pool, tools) then Err(BadIndex)
          else Ok(Verified(OrEmpty(ValueOf(entries[0], "Suite")),
                           if Named(rows, "snapshot.json") then tools.identity(m.manifest) else None))
  }

  /** The compressed index is the index, and the index is of this pool. */
  predicate GoodIndex(m: Top, pool: Files, tools: Tools) {
    tools.gunzip(m.gz) == Some(m.packages) && Valid(m.packages, pool, tools.sha)
  }

  method VerifyDirectory(m: Top, release: string, pool: Files, tools: Tools) returns (out: Result<Verified, Fault>)
    ensures out == Verify(m, release, pool, tools)
  {
    var parsed := ParseRecords(release);
    if parsed.Err? || |parsed.value| != 1 || !GoodRelease(parsed.value[0]) {
      return Err(BadRelease);
    }
    var fields := parsed.value[0];
    var table := VerifyTable(OrEmpty(ValueOf(fields, "SHA256")), FileStamps(m, tools.sha));
    if table.Err? {
      return Err(BadTable);
    }
    if tools.gunzip(m.gz) != Some(m.packages) {
      return Err(BadIndex);
    }
    var index := ValidatePackages(m.packages, pool, tools.sha);
    if index.Err? {
      return Err(BadIndex);
    }
    var identity := if Named(table.value, "snapshot.json") then tools.identity(m.manifest) else None;
    out := Ok(Verified(OrEmpty(ValueOf(fields, "Suite")), identity));
  }

  // ----- what was signed verifies, and nothing else ------------------------------------------

  lemma FoundAt(entry: Entry, key: string, i: nat)
    requires i < |entry| && entry[i].key == key && |entry[i].lines| == 1 &&
             forall j :: 0 <= j < i ==> entry[j].key != key
    ensures ValueOf(entry, key) == Some(entry[i].lines[0])
  {
    assert At(entry, key) == i;
  }

  /** The release as the parser sees it. */
  function ParsedRelease(suite: string, h: Heading, rows: seq<Row>): Entry
    requires GoodHeading(h) && OneLine(suite)
  {
    SignedValues(suite, h.date, h.until, h.architectures);
    StripHeader(HeaderOf(suite, h), false) + [Field("SHA256", [""] + RowLines(rows))]
  }

  lemma ParsedKeys(suite: string, h: Heading, rows: seq<Row>, i: nat)
    requires GoodHeading(h) && OneLine(suite) && i < 9
    ensures var e := ParsedRelease(suite, h, rows);
            && |e| == 10 && e[i].key == HEADER_KEYS[i] && e[i].lines == [LStrip(HeaderOf(suite, h)[i].lines[0])]
            && (forall j :: 0 <= j < i ==> e[j].key != HEADER_KEYS[i])
  {
    SignedValues(suite, h.date, h.until, h.architectures);
    forall j | 0 <= j < i ensures HEADER_KEYS[j] != HEADER_KEYS[i] {
      HeaderKeysDiffer(j, i);
    }
  }

  lemma HeaderValue(suite: string, h: Heading, rows: seq<Row>, i: nat, key: string, value: string)
    requires GoodHeading(h) && OneLine(suite) && i < 9 && key == HEADER_KEYS[i] &&
             value == HeaderOf(suite, h)[i].lines[0]
    ensures ValueOf(ParsedRelease(suite, h, rows), key) == Some(LStrip(value))
  {
    ParsedKeys(suite, h, rows, i);
    FoundAt(ParsedRelease(suite, h, rows), key, i);
  }

  lemma TableValue(suite: string, h: Heading, rows: seq<Row>)
    requires GoodHeading(h) && OneLine(suite)
    ensures ValueOf(ParsedRelease(suite, h, rows), "SHA256") == Some(Join([""] + RowLines(rows), "\n"))
  {
    var e := ParsedRelease(suite, h, rows);
    forall j | 0 <= j < 9 ensures e[j].key != "SHA256" {
      ParsedKeys(suite, h, rows, j);
      HeaderKeysDiffer(if j == 0 then 0 else j - 1, if j == 0 then 1 else j);
    }
    ParsedKeys(suite, h, rows, 0);
    assert e[9].key == "SHA256";
    assert At(e, "SHA256") == 9;
  }

  lemma Unpadded(value: string)
    requires value != "" && !IsSpace(value[0])
    ensures LStrip(value) == value
  {
  }

  lemma FixedValue(suite: string, h: Heading, rows: seq<Row>, i: nat, key: string, value: string)
    requires GoodHeading(h) && OneLine(suite) && i < 9 && key == HEADER_KEYS[i] &&
             value == HeaderOf(suite, h)[i].lines[0]
    requires value != "" && !IsSpace(value[0])
    ensures ValueOf(ParsedRelease(suite, h, rows), key) == Some(value)
  {
    HeaderValue(suite, h, rows, i, key, value);
    Unpadded(value);
  }

  lemma IdentityIsGood(suite: string, h: Heading, rows: seq<Row>)
    requires GoodHeading(h) && OneLine(suite)
    ensures GoodRelease(ParsedRelease(suite, h, rows))
  {
    FixedValue(suite, h, rows, 0, "Origin", "Rougarou");
    FixedValue(suite, h, rows, 3, "Codename", "rougarou");
    HeaderValue(suite, h, rows, 5, "Valid-Until", h.until);
  }

  lemma SuiteIsRead(suite: string, h: Heading, rows: seq<Row>)
    requires GoodHeading(h) && OneLine(suite)
    ensures ValueOf(ParsedRelease(suite, h, rows), "Suite") == Some(LStrip(suite))
  {
    SuiteField(suite, h);
    HeaderValue(suite, h, rows, 2, HeaderOf(suite, h)[2].key, suite);
  }

  lemma SuiteField(suite: string, h: Heading)
    ensures HeaderOf(suite, h)[2] == Field("Suite", [suite]) && HEADER_KEYS[2] == "Suite"
  {
  }

  lemma StampsAreSignable(m: Top, sha: string -> string)
    requires forall a :: HexDigest(sha(a))
    ensures Signable(FileStamps(m, sha))
  {
  }

  /** A directory under a signed Release verifies exactly if its files have the signed sizes and digests. */
  lemma VerifiesByStamps(r: Signature, found: Top, pool: Files, tools: Tools)
    requires (forall a :: HexDigest(tools.sha(a))) && GoodSigned(r)
    ensures Verify(found, SignedRelease(r, tools.sha), pool, tools) ==
            if !Matches(SignedRows(FileStamps(r.over, tools.sha)), FileStamps(found, tools.sha)) then Err(BadTable)
            else if !GoodIndex(found, pool, tools) then Err(BadIndex)
            else Ok(Verified(r.suite, tools.identity(found.manifest)))
  {
    var signed, files := FileStamps(r.over, tools.sha), FileStamps(found, tools.sha);
    var rows, h := SignedRows(signed), r.heading;
    StampsAreSignable(r.over, tools.sha);
    SignedHeaderIsGood(r.suite, h.date, h.until, h.architectures);
    VerifyAcceptsExactlyTheSigned(HeaderOf(r.suite, h), signed, files);
    IdentityIsGood(r.suite, h, rows);
    SuiteIsRead(r.suite, h, rows);
    TableValue(r.suite, h, rows);
    SignedIsNamed(signed, "snapshot.json");
  }

  /** The same signed files; a directory may have a promotion record that was not there to be signed. */
  predicate SameFiles(m: Top, found: Top) {
    && found.packages == m.packages && found.gz == m.gz && found.manifest == m.manifest
    && (m.promotion.Some? ==> found.promotion == m.promotion)
  }

  function Texts(m: Top): set<string> {
    {m.packages, m.gz, m.manifest} + if m.promotion.Some? then {m.promotion.value} else {}
  }

  lemma MatchesIff(m: Top, found: Top, sha: string -> string)
    requires Hashes(sha, Texts(m) + Texts(found))
    ensures Matches(SignedRows(FileStamps(m, sha)), FileStamps(found, sha)) <==> SameFiles(m, found)
  {
    var signed, files := FileStamps(m, sha), FileStamps(found, sha);
    var rows := SignedRows(signed);
    if Matches(rows, files) {
      MatchedFiles(m, found, sha);
    }
    if SameFiles(m, found) {
      forall k | 0 <= k < |rows| ensures RowMatches(rows[k], files) {
        assert rows[k] in RowsOf(signed, INDEXES) || rows[k] in RowsOf(signed, EXTRAS);
      }
    }
  }

  lemma MatchedFiles(m: Top, found: Top, sha: string -> string)
    requires Hashes(sha, Texts(m) + Texts(found)) && Matches(SignedRows(FileStamps(m, sha)), FileStamps(found, sha))
    ensures SameFiles(m, found)
  {
    var signed, files := FileStamps(m, sha), FileStamps(found, sha);
    StampsAreSignable(m, sha);
    forall name | name in signed ensures name in files && files[name] == signed[name] {
      MatchedName(SignedRows(signed), signed, files, name);
    }
    assert "Packages" in signed && "Packages.gz" in signed && "snapshot.json" in signed;
    assert m.promotion.Some? ==> "promotion.json" in signed;
    NamesAreDistinct();
  }

  lemma MatchedName(rows: seq<Row>, signed: map<string, Stamp>, files: map<string, Stamp>, name: string)
    requires Signable(signed) && rows == SignedRows(signed) && Matches(rows, files) && name in signed
    ensures name in files && files[name] == signed[name]
  {
    SignedIsNamed(signed, name);
    var k :| 0 <= k < |rows| && rows[k].name == name;
    assert RowMatches(rows[k], files);
    assert rows[k] in RowsOf(signed, INDEXES) || rows[k] in RowsOf(signed, EXTRAS);
  }

  /**
   * Under a signed Release `verify` accepts a directory if and only if its files are the signed ones to the byte and
   * their index is good; it then reports the signed suite and snapshot.
   */
  lemma OnlyTheSignedVerifies(r: Signature, found: Top, pool: Files, tools: Tools)
    requires Hashes(tools.sha, Texts(r.over) + Texts(found)) && GoodSigned(r)
    ensures Verify(found, SignedRelease(r, tools.sha), pool, tools).Ok? <==>
            SameFiles(r.over, found) && GoodIndex(r.over, pool, tools)
    ensures Verify(found, SignedRelease(r, tools.sha), pool, tools).Ok? ==>
              Verify(found, SignedRelease(r, tools.sha), pool, tools) ==
              Ok(Verified(r.suite, tools.identity(r.over.manifest)))
  {
    VerifiesByStamps(r, found, pool, tools);
    MatchesIff(r.over, found, tools.sha);
  }

  lemma OwnStampsMatch(m: Top, sha: string -> string)
    ensures Matches(SignedRows(FileStamps(m, sha)), FileStamps(m, sha))
  {
    var signed := FileStamps(m, sha);
    var rows := SignedRows(signed);
    forall k | 0 <= k < |rows| ensures RowMatches(rows[k], signed) {
      assert rows[k] in RowsOf(signed, INDEXES) || rows[k] in RowsOf(signed, EXTRAS);
    }
  }

  /** What has just been signed verifies exactly if its index is good. */
  lemma SignedVerifies(r: Signature, pool: Files, tools: Tools)
    requires (forall a :: HexDigest(tools.sha(a))) && GoodSigned(r)
    ensures Verify(r.over, SignedRelease(r, tools.sha), pool, tools) ==
            if GoodIndex(r.over, pool, tools) then Ok(Verified(r.suite, tools.identity(r.over.manifest)))
                else Err(BadIndex)
  {
    OwnStampsMatch(r.over, tools.sha);
    VerifiesByStamps(r, r.over, pool, tools);
  }
}
