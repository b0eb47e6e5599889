/** Exactly which directories verify, and which table of digests the updater accepts, told in the words of a Release. */
module ReleaseRules {
  import opened Text
  import opened TextLaws
  import opened Stanzas
  import opened Release
  import opened Packages
  import opened Verification
  import opened IndexRules

  // ----- rows -----------------------------------------------------------------------------------------

  /** A line of three words: a digest, a size in decimal digits and a name. */
  predicate IsRowLine(line: string, row: Row) {
    && |Words(line)| == 3 && Words(line)[0] == row.digest && Words(line)[2] == row.name
    && Words(line)[1] != "" && AllOf(Words(line)[1], {'0', '1', '2', '3', '4', '5', '6', '7', '8', '9'})
    && row.size == Number(Words(line)[1])
  }

  lemma RowLineIs(line: string, row: Row)
    ensures RowOf(line) == Some(row) <==> IsRowLine(line, row)
  {
    if |Words(line)| == 3 {
      var size := Words(line)[1];
      forall i | 0 <= i < |size|
        ensures IsDigit(size[i]) <==> size[i] in {'0', '1', '2', '3', '4', '5', '6', '7', '8', '9'}
      {
        assert IsDigit(size[i]) <==> 48 <= size[i] as int <= 57;
      }
    }
  }

  /** The lines that are not white space alone, in order. */
  function Written(lines: seq<string>): (w: seq<string>)
    ensures |w| <= |lines|
  {
    if lines == [] then [] else (if AllOf(lines[0], SPACES) then [] else [lines[0]]) + Written(lines[1..])
  }

  lemma WrittenIs(line: string)
    ensures Strip(line) == "" <==> AllOf(line, SPACES)
  {
    StripBlank(line);
    SpacesAre(line);
  }

  /** The written lines are these rows, one for one. */
  predicate AreRows(lines: seq<string>, rows: seq<Row>) {
    |Written(lines)| == |rows| && forall k :: 0 <= k < |rows| ==> IsRowLine(Written(lines)[k], rows[k])
  }

  lemma FirstRow(lines: seq<string>, rows: seq<Row>)
    requires lines != [] && !AllOf(lines[0], SPACES)
    ensures AreRows(lines, rows) <==>
              rows != [] && IsRowLine(lines[0], rows[0]) && AreRows(lines[1..], rows[1..])
  {
    var w, rest := Written(lines), Written(lines[1..]);
    assert w == [lines[0]] + rest;
    if rows != [] && IsRowLine(lines[0], rows[0]) && AreRows(lines[1..], rows[1..]) {
      forall k | 0 <= k < |rows| ensures IsRowLine(w[k], rows[k]) {
        if k > 0 {
          assert IsRowLine(rest[k - 1], rows[1..][k - 1]);
        }
      }
    }
    if AreRows(lines, rows) {
      assert w[0] == lines[0];
      forall k | 0 <= k < |rows| - 1 ensures IsRowLine(rest[k], rows[1..][k]) {
        assert IsRowLine(w[k + 1], rows[k + 1]);
      }
    }
  }

  // ----- the table that `verify` checks -----------------------------------------------------------------

  /** The row is of one of the four files, which is there with this size and digest. */
  predicate IsOfFile(row: Row, files: map<string, Stamp>) {
    && (row.name == "Packages" || row.name == "Packages.gz" || row.name == "snapshot.json" ||
        row.name == "promotion.json")
    && row.name in files && files[row.name].size == row.size && files[row.name].digest == row.digest
  }

  /** Some row is of this name. */
  predicate IsListed(rows: seq<Row>, name: string) {
    exists k :: 0 <= k < |rows| && rows[k].name == name
  }

  lemma NamedIs(rows: seq<Row>, name: string)
    ensures Named(rows, name) <==> IsListed(rows, name)
  {
  }

  predicate NoNameTwice(rows: seq<Row>) {
    forall i, j :: 0 <= i < j < |rows| ==> rows[i].name != rows[j].name
  }

  predicate AllOfFiles(rows: seq<Row>, files: map<string, Stamp>) {
    forall k :: 0 <= k < |rows| ==> IsOfFile(rows[k], files)
  }

  lemma ListableIs(name: string)
    ensures Listable(name) <==>
              name == "Packages" || name == "Packages.gz" || name == "snapshot.json" || name == "promotion.json"
  {
    assert INDEXES[0] == "Packages" && INDEXES[1] == "Packages.gz";
    assert EXTRAS[0] == "snapshot.json" && EXTRAS[1] == "promotion.json";
  }

  /** The rows are new, distinct and of the files. */
  predicate Follow(checked: seq<Row>, rows: seq<Row>, files: map<string, Stamp>) {
    NoNameTwice(rows) && AllOfFiles(rows, files) && forall k :: 0 <= k < |rows| ==> !Named(checked, rows[k].name)
  }

  lemma FollowFirst(checked: seq<Row>, rows: seq<Row>, files: map<string, Stamp>)
    requires rows != []
    ensures Follow(checked, rows, files) <==>
              IsOfFile(rows[0], files) && !Named(checked, rows[0].name) &&
              Follow(checked + [rows[0]], rows[1..], files)
  {
    var row, rest, next := rows[0], rows[1..], checked + [rows[0]];
    forall name ensures Named(next, name) <==> Named(checked, name) || name == row.name {
      assert next[|checked|] == row;
      if Named(checked, name) {
        var k :| 0 <= k < |checked| && checked[k].name == name;
        assert next[k].name == name;
      }
    }
    forall k | 0 <= k < |rest| ensures rest[k] == rows[k + 1] {}
    if IsOfFile(row, files) && !Named(checked, row.name) && Follow(next, rest, files) {
      forall k | 0 < k < |rows| ensures IsOfFile(rows[k], files) && !Named(next, rows[k].name) {
        assert rest[k - 1] == rows[k];
      }
    }
  }

  lemma {:induction false} CheckedFrom(lines: seq<string>, files: map<string, Stamp>, checked: seq<Row>, rows: seq<Row>)
    ensures CheckRows(lines, files, checked) == Ok(checked + rows) <==>
              AreRows(lines, rows) && Follow(checked, rows, files)
    decreases lines
  {
    if lines == [] {
      assert checked + rows == checked <==> rows == [];
    } else if AllOf(lines[0], SPACES) {
      WrittenIs(lines[0]);
      assert Written(lines) == Written(lines[1..]);
      CheckedFrom(lines[1..], files, checked, rows);
    } else {
      FirstRow(lines, rows);
      if rows == [] {
        assert checked + rows == checked;
        LongerChecked(lines, files, checked);
      } else {
        var row := rows[0];
        FollowFirst(checked, rows, files);
        assert checked + [row] + rows[1..] == checked + rows;
        CheckedFrom(lines[1..], files, checked + [row], rows[1..]);
        CheckedOne(lines, files, checked, row, checked + rows);
      }
    }
  }

  /** A written line is taken if it is a row of a file that is there, under a name that is new. */
  lemma CheckedOne(lines: seq<string>, files: map<string, Stamp>, checked: seq<Row>, row: Row, all: seq<Row>)
    requires lines != [] && !AllOf(lines[0], SPACES) && |checked| < |all| && all[|checked|] == row
    ensures CheckRows(lines, files, checked) == Ok(all) <==>
              && IsRowLine(lines[0], row) && IsOfFile(row, files) && !Named(checked, row.name)
              && CheckRows(lines[1..], files, checked + [row]) == Ok(all)
  {
    WrittenIs(lines[0]);
    RowLineIs(lines[0], row);
    ListableIs(row.name);
    if CheckRows(lines, files, checked) == Ok(all) {
      CheckedGrows(lines[1..], files, checked + [RowOf(lines[0]).value]);
      assert all[|checked|] == RowOf(lines[0]).value;
    }
  }

  /** What a pass adds is put after what it had. */
  lemma {:induction false} CheckedGrows(lines: seq<string>, files: map<string, Stamp>, checked: seq<Row>)
    requires CheckRows(lines, files, checked).Ok?
    ensures checked <= CheckRows(lines, files, checked).value
    decreases lines
  {
    if lines != [] {
      if Strip(lines[0]) == "" {
        CheckedGrows(lines[1..], files, checked);
      } else {
        CheckedGrows(lines[1..], files, checked + [RowOf(lines[0]).value]);
      }
    }
  }

  lemma LongerChecked(lines: seq<string>, files: map<string, Stamp>, checked: seq<Row>)
    requires lines != [] && !AllOf(lines[0], SPACES)
    ensures CheckRows(lines, files, checked) != Ok(checked)
  {
    WrittenIs(lines[0]);
    if CheckRows(lines, files, checked).Ok? {
      CheckedGrows(lines[1..], files, checked + [RowOf(lines[0]).value]);
    }
  }

  /** The table is right: rows of the files that are there, none twice, and both indexes among them. */
  predicate IsTableOf(value: string, rows: seq<Row>, files: map<string, Stamp>) {
    && AreRows(Lines(value), rows) && NoNameTwice(rows) && AllOfFiles(rows, files)
    && IsListed(rows, "Packages") && IsListed(rows, "Packages.gz")
  }

  lemma CheckTableIff(value: string, files: map<string, Stamp>, rows: seq<Row>)
    ensures CheckTable(value, files) == Ok(rows) <==> IsTableOf(value, rows, files)
  {
    CheckedFrom(Lines(value), files, [], rows);
    assert [] + rows == rows;
    NamedIs(rows, "Packages");
    NamedIs(rows, "Packages.gz");
    assert INDEXES[0] == "Packages" && INDEXES[1] == "Packages.gz";
    forall name | name in INDEXES ensures name == "Packages" || name == "Packages.gz" {
    }
  }

  // ----- `verify` ---------------------------------------------------------------------------------------

  /** The stanza has the field, with this value. */
  predicate IsValue(entry: Entry, key: string, value: string) {
    exists i :: 0 <= i < |entry| && entry[i].key == key && Join(entry[i].lines, "\n") == value &&
      forall j :: 0 <= j < i ==> entry[j].key != key
  }

  predicate Lacks(entry: Entry, key: string) {
    forall i :: 0 <= i < |entry| ==> entry[i].key != key
  }

  lemma ValueIs(entry: Entry, key: string, value: string)
    ensures ValueOf(entry, key) == Some(value) <==> IsValue(entry, key, value)
    ensures ValueOf(entry, key) == None <==> Lacks(entry, key)
  {
    var k := At(entry, key);
    if IsValue(entry, key, value) {
      var i :| 0 <= i < |entry| && entry[i].key == key && Join(entry[i].lines, "\n") == value &&
               forall j :: 0 <= j < i ==> entry[j].key != key;
      assert k == i;
    }
  }

  /** The value of the field, or nothing if there is none. */
  predicate HasOrNone(entry: Entry, key: string, value: string) {
    IsValue(entry, key, value) || (Lacks(entry, key) && value == "")
  }

  lemma OrEmptyIs(entry: Entry, key: string, value: string)
    ensures OrEmpty(ValueOf(entry, key)) == value <==> HasOrNone(entry, key, value)
  {
    ValueIs(entry, key, value);
    if ValueOf(entry, key).Some? {
      ValueIs(entry, key, ValueOf(entry, key).value);
    }
  }

  /** What one of the four files holds. */
  predicate IsFile(m: Top, name: string, text: string) {
    || (name == "Packages" && text == m.packages) || (name == "Packages.gz" && text == m.gz)
    || (name == "snapshot.json" && text == m.manifest) || (name == "promotion.json" && m.promotion == Some(text))
  }

  /** Every row is of a file that is there, with its length and its digest. */
  predicate ListsFiles(rows: seq<Row>, m: Top, sha: string -> string) {
    forall k :: 0 <= k < |rows| ==>
      exists text :: text in Texts(m) && IsFile(m, rows[k].name, text) && rows[k].size == |text| &&
                     rows[k].digest == sha(text)
  }

  lemma OfFileIs(row: Row, m: Top, sha: string -> string)
    ensures IsOfFile(row, FileStamps(m, sha)) <==>
              exists text :: text in Texts(m) && IsFile(m, row.name, text) && row.size == |text| &&
                             row.digest == sha(text)
  {
    NamesAreDistinct();
    var files := FileStamps(m, sha);
    if IsOfFile(row, files) {
      var text := if row.name == "Packages" then m.packages else if row.name == "Packages.gz" then m.gz
                  else if row.name == "snapshot.json" then m.manifest else m.promotion.value;
      assert text in Texts(m) && IsFile(m, row.name, text);
    }
  }

  lemma OfFilesAre(rows: seq<Row>, m: Top, sha: string -> string)
    ensures AllOfFiles(rows, FileStamps(m, sha)) <==> ListsFiles(rows, m, sha)
  {
    forall k | 0 <= k < |rows|
      ensures IsOfFile(rows[k], FileStamps(m, sha)) <==>
              exists text :: text in Texts(m) && IsFile(m, rows[k].name, text) && rows[k].size == |text| &&
                             rows[k].digest == sha(text)
    {
      OfFileIs(rows[k], m, sha);
    }
  }

  /** The stanza is of this archive, not of another one, and says until when it holds. */
  predicate IsIdentity(release: Entry) {
    && IsValue(release, "Origin", "Rougarou") && IsValue(release, "Codename", "rougarou")
    && !Lacks(release, "Valid-Until")
  }

  /** The table of the Release: rows of the files, none twice, both indexes among them. */
  predicate HasTable(release: Entry, rows: seq<Row>, m: Top, sha: string -> string, value: string) {
    && HasOrNone(release, "SHA256", value) && AreRows(Lines(value), rows) && NoNameTwice(rows)
    && ListsFiles(rows, m, sha)
    && IsListed(rows, "Packages") && IsListed(rows, "Packages.gz")
  }

  /** What the directory is: of the suite that the Release says, and of the snapshot of a manifest that is listed. */
  predicate Describes(v: Verified, release: Entry, rows: seq<Row>, m: Top, tools: Tools) {
    && HasOrNone(release, "Suite", v.suite)
    && v.snapshot == if IsListed(rows, "snapshot.json") then tools.identity(m.manifest) else None
  }

  ghost predicate Passes(m: Top, release: Entry, pool: Files, tools: Tools, v: Verified, rows: seq<Row>, value: string)
  {
    && IsIdentity(release) && HasTable(release, rows, m, tools.sha, value) && Describes(v, release, rows, m, tools)
    && tools.gunzip(m.gz) == Some(m.packages) && Packages.Valid(m.packages, pool, tools.sha)
  }

  lemma IdentityIs(release: Entry)
    ensures GoodRelease(release) <==> IsIdentity(release)
  {
    ValueIs(release, "Origin", "Rougarou");
    ValueIs(release, "Codename", "rougarou");
    ValueIs(release, "Valid-Until", "");
  }

  lemma TableIs(release: Entry, m: Top, sha: string -> string, rows: seq<Row>, value: string)
    ensures HasTable(release, rows, m, sha, value) <==>
              OrEmpty(ValueOf(release, "SHA256")) == value && CheckTable(value, FileStamps(m, sha)) == Ok(rows)
  {
    OrEmptyIs(release, "SHA256", value);
    CheckTableIff(value, FileStamps(m, sha), rows);
    OfFilesAre(rows, m, sha);
  }

  /**
   * A directory verifies exactly if its Release is one stanza of this archive whose table lists files of the directory
   * with their lengths and digests, both indexes among them, and the compressed index is the index, and that is valid.
   */
  lemma VerifyIff(m: Top, text: string, pool: Files, tools: Tools, v: Verified)
    ensures Verify(m, text, pool, tools) == Ok(v) <==>
              Records(text).Ok? && |Records(text).value| == 1 &&
              exists rows: seq<Row>, value :: Passes(m, Records(text).value[0], pool, tools, v, rows, value)
  {
    if Records(text).Ok? && |Records(text).value| == 1 {
      var release := Records(text).value[0];
      IdentityIs(release);
      OrEmptyIs(release, "Suite", v.suite);
      var value := OrEmpty(ValueOf(release, "SHA256"));
      var checked := CheckTable(value, FileStamps(m, tools.sha));
      if checked.Ok? {
        TableIs(release, m, tools.sha, checked.value, value);
        NamedIs(checked.value, "snapshot.json");
        if Verify(m, text, pool, tools) == Ok(v) {
          assert Passes(m, release, pool, tools, v, checked.value, value);
        }
      }
      if rows: seq<Row>, other :| Passes(m, release, pool, tools, v, rows, other) {
        TableIs(release, m, tools.sha, rows, other);
        NamedIs(rows, "snapshot.json");
      }
    }
  }

  // ----- the updater's table ------------------------------------------------------------------------------

  predicate AllDigests(rows: seq<Row>) {
    forall k :: 0 <= k < |rows| ==> IsDigest(rows[k].digest)
  }

  /** The map has each name of the rows, with its size and digest, besides what it had. */
  ghost predicate Extends(result: map<string, Stamp>, rows: seq<Row>, all: map<string, Stamp>) {
    && (forall name :: name in all <==> name in result || IsListed(rows, name))
    && (forall name :: name in result ==> name in all && all[name] == result[name])
    && (forall k :: 0 <= k < |rows| ==>
          rows[k].name in all && all[rows[k].name].size == rows[k].size && all[rows[k].name].digest == rows[k].digest)
  }

  /** The rows are distinct, new and all of digests. */
  predicate AllNew(result: map<string, Stamp>, rows: seq<Row>) {
    NoNameTwice(rows) && AllDigests(rows) && forall k :: 0 <= k < |rows| ==> rows[k].name !in result
  }

  lemma AllNewFirst(result: map<string, Stamp>, rows: seq<Row>, next: map<string, Stamp>)
    requires rows != [] && next == result[rows[0].name := Stamp(rows[0].size, rows[0].digest)]
    ensures AllNew(result, rows) <==>
              IsDigest(rows[0].digest) && rows[0].name !in result && AllNew(next, rows[1..])
  {
    var rest := rows[1..];
    if IsDigest(rows[0].digest) && rows[0].name !in result && AllNew(next, rest) {
      forall k | 0 < k < |rows| ensures IsDigest(rows[k].digest) && rows[k].name !in next {
        assert rest[k - 1] == rows[k];
      }
    }
  }

  lemma ExtendsFirst(result: map<string, Stamp>, rows: seq<Row>, next: map<string, Stamp>, all: map<string, Stamp>)
    requires rows != [] && next == result[rows[0].name := Stamp(rows[0].size, rows[0].digest)]
    requires rows[0].name !in result && Extends(next, rows[1..], all)
    ensures Extends(result, rows, all)
  {
    var rest := rows[1..];
    forall name ensures IsListed(rows, name) <==> IsListed(rest, name) || name == rows[0].name {
      if IsListed(rest, name) {
        var k :| 0 <= k < |rest| && rest[k].name == name;
        assert rows[k + 1].name == name;
      }
      if IsListed(rows, name) && name != rows[0].name {
        var k :| 0 <= k < |rows| && rows[k].name == name;
        assert rest[k - 1].name == name;
      }
    }
    forall k | 0 <= k < |rows|
      ensures rows[k].name in all
      ensures all[rows[k].name].size == rows[k].size && all[rows[k].name].digest == rows[k].digest
    {
      if k == 0 {
        assert rows[0].name in next && all[rows[0].name] == next[rows[0].name];
      } else {
        assert rest[k - 1] == rows[k];
      }
    }
  }

  /** If the table is right, what it gives are its rows. */
  lemma {:induction false} HashedFrom(lines: seq<string>, result: map<string, Stamp>, rows: seq<Row>)
    requires AreRows(lines, rows) && AllNew(result, rows)
    ensures HashRows(lines, result).Ok? && Extends(result, rows, HashRows(lines, result).value)
    decreases lines
  {
    if lines == [] {
    } else if AllOf(lines[0], SPACES) {
      WrittenIs(lines[0]);
      assert Written(lines) == Written(lines[1..]);
      HashedFrom(lines[1..], result, rows);
    } else {
      WrittenIs(lines[0]);
      FirstRow(lines, rows);
      var next := result[rows[0].name := Stamp(rows[0].size, rows[0].digest)];
      RowLineIs(lines[0], rows[0]);
      DigestIs(rows[0].digest);
      AllNewFirst(result, rows, next);
      HashedFrom(lines[1..], next, rows[1..]);
      ExtendsFirst(result, rows, next, HashRows(lines, result).value);
    }
  }

  /** If it gives anything, the table is right. */
  lemma {:induction false} HashedIsRight(lines: seq<string>, result: map<string, Stamp>) returns (rows: seq<Row>)
    requires HashRows(lines, result).Ok?
    ensures AreRows(lines, rows) && AllNew(result, rows)
    decreases lines
  {
    if lines == [] {
      rows := [];
    } else if AllOf(lines[0], SPACES) {
      WrittenIs(lines[0]);
      assert Written(lines) == Written(lines[1..]);
      rows := HashedIsRight(lines[1..], result);
    } else {
      WrittenIs(lines[0]);
      var row := RowOf(lines[0]).value;
      var next := result[row.name := Stamp(row.size, row.digest)];
      var rest := HashedIsRight(lines[1..], next);
      rows := [row] + rest;
      assert rows[1..] == rest;
      RowLineIs(lines[0], row);
      DigestIs(row.digest);
      AllNewFirst(result, rows, next);
      FirstRow(lines, rows);
    }
  }

  /** The updater's digests: of rows, at least one, none of a name twice, each with a digest. */
  ghost predicate IsHashTable(value: string, rows: seq<Row>, all: map<string, Stamp>) {
    && AreRows(Lines(value), rows) && rows != [] && NoNameTwice(rows) && AllDigests(rows)
    && (forall name :: name in all <==> IsListed(rows, name))
    && (forall k :: 0 <= k < |rows| ==>
          rows[k].name in all && all[rows[k].name].size == rows[k].size && all[rows[k].name].digest == rows[k].digest)
  }

  lemma SameHashes(value: string, rows: seq<Row>, a: map<string, Stamp>, b: map<string, Stamp>)
    requires IsHashTable(value, rows, a) && IsHashTable(value, rows, b)
    ensures a == b
  {
    forall name | name in a ensures name in b && a[name] == b[name] {
      assert IsListed(rows, name);
      var k :| 0 <= k < |rows| && rows[k].name == name;
      assert a[rows[k].name].size == b[rows[k].name].size;
    }
    forall name | name in b ensures name in a {
      assert IsListed(rows, name);
    }
  }

  lemma HashTableIs(value: string, rows: seq<Row>)
    requires AreRows(Lines(value), rows) && AllNew(map[], rows)
    ensures if rows == [] then SignedHashes(value) == Err(Empty)
            else SignedHashes(value).Ok? && IsHashTable(value, rows, SignedHashes(value).value)
  {
    HashedFrom(Lines(value), map[], rows);
    var all := HashRows(Lines(value), map[]).value;
    assert Extends(map[], rows, all);
    if rows == [] {
      assert all == map[] by {
        forall name ensures name !in all {
          assert !IsListed(rows, name);
        }
      }
    } else {
      assert rows[0].name in all;
    }
  }

  /** The updater has digests from a table exactly if the table is right, and then those of its rows. */
  lemma SignedHashesIff(value: string, all: map<string, Stamp>)
    ensures SignedHashes(value) == Ok(all) <==> exists rows: seq<Row> :: IsHashTable(value, rows, all)
  {
    if SignedHashes(value) == Ok(all) {
      var rows := HashedIsRight(Lines(value), map[]);
      HashTableIs(value, rows);
      assert IsHashTable(value, rows, all);
    }
    if rows: seq<Row> :| IsHashTable(value, rows, all) {
      assert AllNew(map[], rows);
      HashTableIs(value, rows);
      SameHashes(value, rows, all, SignedHashes(value).value);
    }
  }
}
