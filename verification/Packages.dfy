/** The package index of a repository: its check against the stored files, and what a snapshot makes of it (repo.py). */
module Packages {
  import opened Text
  import opened Stanzas
  import opened Release
  import RestoreTree

  type Path = seq<string>

  /** File contents by path. */
  type Files = map<Path, string>

  /** The checked fields of one stanza. */
  datatype Package = Package(identity: (string, string, string), path: Path, size: nat, digest: string)

  function At(entry: Entry, key: string): (i: nat)
    ensures i <= |entry|
    ensures i < |entry| ==> entry[i].key == key
    ensures forall j :: 0 <= j < i ==> entry[j].key != key
    ensures i == |entry| <==> !HasKey(entry, key)
  {
    if entry == [] || entry[0].key == key then 0
    else
      assert forall j :: 0 <= j < |entry[1..]| ==> entry[1..][j] == entry[j + 1];
      1 + At(entry[1..], key)
  }

  /** The value of a field that must be there and fit on one line. */
  function Single(entry: Entry, key: string): Option<string> {
    var i := At(entry, key);
    if i < |entry| && |entry[i].lines| == 1 then Some(entry[i].lines[0]) else None
  }

  predicate EndsIn(s: string, tail: string) {
    |tail| <= |s| && s[|s| - |tail|..] == tail
  }

  /** A final component whose suffix is `.deb`: the dot is not its first character. */
  predicate DebName(name: string) {
    EndsIn(name, ".deb") && |name| > 4
  }

  /** Where a `Filename` points below the repository, if it points there safely; links are not part of this model. */
  function PackagePath(name: string): Option<Path> {
    var p := RestoreTree.Parse(name);
    if p.slashes > 0 || ".." in p.parts || '\\' in name || p.parts == [] || !DebName(p.parts[|p.parts| - 1]) then None
    else Some(p.parts)
  }

  /** The six fields a package must have, each on one line. */
  datatype Fields = Fields(name: string, version: string, architecture: string, file: string, size: string,
                           digest: string)

  function FieldsOf(entry: Entry): Option<Fields> {
    var name, version, architecture := Single(entry, "Package"), Single(entry, "Version"),
        Single(entry, "Architecture");
    var file, size, digest := Single(entry, "Filename"), Single(entry, "Size"), Single(entry, "SHA256");
    if name.None? || version.None? || architecture.None? || file.None? || size.None? || digest.None? then None
    else Some(Fields(name.value, version.value, architecture.value, file.value, size.value, digest.value))
  }

  function PackageFrom(f: Fields): Option<Package> {
    if PackagePath(f.file).None? || !HexDigest(f.digest) || !Digits(f.size) then None
    else Some(Package((f.name, f.version, f.architecture), PackagePath(f.file).value, Number(f.size), f.digest))
  }

  function PackageOf(entry: Entry): Option<Package> {
    if FieldsOf(entry).None? then None else PackageFrom(FieldsOf(entry).value)
  }

  /** The stored file is there, of that size and digest. */
  predicate Holds(files: Files, p: Package, sha: string -> string) {
    p.path in files && |files[p.path]| == p.size && sha(files[p.path]) == p.digest
  }

  function PackagesOf(entries: seq<Entry>): (ps: seq<Option<Package>>)
    ensures |ps| == |entries| && forall i :: 0 <= i < |entries| ==> ps[i] == PackageOf(entries[i])
  {
    seq(|entries|, i requires 0 <= i < |entries| => PackageOf(entries[i]))
  }

  /** Well-formed stanzas, no package version twice, and every file as listed. */
  predicate ValidList(ps: seq<Option<Package>>, files: Files, sha: string -> string) {
    && (forall i :: 0 <= i < |ps| ==> ps[i].Some? && Holds(files, ps[i].value, sha))
    && (forall i, j :: 0 <= i < j < |ps| ==> ps[i].value.identity != ps[j].value.identity)
  }

  /** What `validate_packages` accepts. */
  predicate Valid(text: string, files: Files, sha: string -> string) {
    Records(text).Ok? && ValidList(PackagesOf(Records(text).value), files, sha)
  }

  /** The packages an index lists. */
  function Listed(text: string): set<Package> {
    if Records(text).Err? then {}
    else
      var ps := PackagesOf(Records(text).value);
      set i | 0 <= i < |ps| && ps[i].Some? :: ps[i].value
  }

  method ValidatePackages(text: string, files: Files, sha: string -> string) returns (out: Result<seq<Entry>, ()>)
    ensures out.Ok? <==> Valid(text, files, sha)
    ensures out.Ok? ==> Ok(out.value) == Records(text)
  {
    var parsed := ParseRecords(text);
    if parsed.Err? {
      return Err(());
    }
    var valid := CheckList(PackagesOf(parsed.value), files, sha);
    out := if valid then Ok(parsed.value) else Err(());
  }

  /** The loop over the stanzas, with the identities seen so far. */
  method CheckList(ps: seq<Option<Package>>, files: Files, sha: string -> string) returns (valid: bool)
    ensures valid <==> ValidList(ps, files, sha)
  {
    var seen := {};
    var k := 0;
    while k < |ps|
      invariant 0 <= k <= |ps| && ValidList(ps[..k], files, sha)
      invariant forall i :: 0 <= i < k ==> ps[i].Some? && ps[i].value.identity in seen
      invariant forall x :: x in seen ==> exists i :: 0 <= i < k && ps[i].Some? && ps[i].value.identity == x
    {
      if ps[k].None? || ps[k].value.identity in seen || !Holds(files, ps[k].value, sha) {
        return false;
      }
      seen := seen + {ps[k].value.identity};
      k := k + 1;
    }
    assert ps[..k] == ps;
    valid := true;
  }

  // ----- the index of a snapshot ---------------------------------------------------

  /** Every digest is 64 hexadecimal digits, and no two of these contents share one. */
  ghost predicate Hashes(sha: string -> string, known: set<string>) {
    (forall a :: HexDigest(sha(a))) && (forall a, b :: a in known && b in known && sha(a) == sha(b) ==> a == b)
  }

  function PoolPath(p: Package): Path
    requires p.path != []
  {
    ["pool", p.digest, p.path[|p.path| - 1]]
  }

  function PoolName(p: Package): string
    requires p.path != []
  {
    "pool/" + p.digest + "/" + p.path[|p.path| - 1]
  }

  function Renamed(entry: Entry, name: string): Entry {
    seq(|entry|, i requires 0 <= i < |entry| => if entry[i].key == "Filename" then Field("Filename", [name])
        else entry[i])
  }

  /** The package as a snapshot lists it. */
  function Moved(p: Package): Package
    requires p.path != []
  {
    p.(path := PoolPath(p))
  }

  predicate Movable(p: Option<Package>) {
    p.Some? && p.value.path != []
  }

  function RewrittenEntry(entry: Entry): Entry {
    if Movable(PackageOf(entry)) then Renamed(entry, PoolName(PackageOf(entry).value)) else entry
  }

  function Rewritten(entries: seq<Entry>): (r: seq<Entry>)
    ensures |r| == |entries| && forall i :: 0 <= i < |entries| ==> r[i] == RewrittenEntry(entries[i])
  {
    seq(|entries|, i requires 0 <= i < |entries| => RewrittenEntry(entries[i]))
  }

  /** The pool a snapshot copies, in the order of the index. */
  function Copied(ps: seq<Option<Package>>, files: Files): Files {
    if ps == [] then map[]
    else
      var rest, p := Copied(ps[..|ps| - 1], files), ps[|ps| - 1];
      if Movable(p) && p.value.path in files then rest[PoolPath(p.value) := files[p.value.path]] else rest
  }

  lemma CopiedThen(ps: seq<Option<Package>>, files: Files, k: nat)
    requires Storable(ps, files) && k < |ps|
    ensures Copied(ps[..k + 1], files) == Copied(ps[..k], files)[PoolPath(ps[k].value) := files[ps[k].value.path]]
  {
    assert ps[..k + 1][..k] == ps[..k];
  }

  lemma MovableIsRenamed(entry: Entry, p: Package)
    requires PackageOf(entry) == Some(p) && p.path != []
    ensures RewrittenEntry(entry) == Renamed(entry, PoolName(p))
  {
  }

  lemma RewrittenThen(entries: seq<Entry>, files: Files, k: nat)
    requires Storable(PackagesOf(entries), files) && k < |entries|
    ensures Rewritten(entries)[..k + 1] == Rewritten(entries)[..k] +
            [Renamed(entries[k], PoolName(PackagesOf(entries)[k].value))]
  {
    var ps := PackagesOf(entries);
    assert ps[k] == PackageOf(entries[k]);
    MovableIsRenamed(entries[k], ps[k].value);
    TakeOneMore(Rewritten(entries), k);
  }

  /** The copying loop of `snapshot`: the index it will write, and the pool beside it. */
  method CopyPackages(entries: seq<Entry>, files: Files) returns (rewritten: seq<Entry>, pool: Files)
    requires Storable(PackagesOf(entries), files)
    ensures rewritten == Rewritten(entries) && pool == Copied(PackagesOf(entries), files)
  {
    var ps := PackagesOf(entries);
    rewritten := [];
    var k := 0;
    while k < |entries|
      invariant 0 <= k <= |entries| && rewritten == Rewritten(entries)[..k]
    {
      RewrittenThen(entries, files, k);
      rewritten := rewritten + [Renamed(entries[k], PoolName(ps[k].value))];
      k := k + 1;
    }
    pool := CopyFiles(ps, files);
  }

  method CopyFiles(ps: seq<Option<Package>>, files: Files) returns (pool: Files)
    requires Storable(ps, files)
    ensures pool == Copied(ps, files)
  {
    pool := map[];
    var k := 0;
    while k < |ps|
      invariant 0 <= k <= |ps| && pool == Copied(ps[..k], files)
    {
      CopiedThen(ps, files, k);
      pool := pool[PoolPath(ps[k].value) := files[ps[k].value.path]];
      k := k + 1;
    }
    assert ps[..k] == ps;
  }

  // ----- paths survive the rewriting ---------------------------------------------------

  lemma {:induction false} SplitParts(s: string)
    ensures forall c :: c in RestoreTree.Split(s) ==> '/' !in c && forall i :: 0 <= i < |c| ==> c[i] in s
    decreases |s|
  {
    var n := RestoreTree.Slash(s);
    if n < |s| {
      SplitParts(s[n + 1..]);
    }
  }

  lemma PathParts(name: string)
    requires PackagePath(name).Some?
    ensures var parts := PackagePath(name).value;
            && parts != [] && DebName(parts[|parts| - 1]) && ".." !in parts
            && forall c :: c in parts ==> '/' !in c && !RestoreTree.Dropped(c) && forall i :: 0 <= i < |c| ==>
               c[i] in name
  {
    SplitParts(name);
    RestoreTree.CleanKeeps(RestoreTree.Split(name));
  }

  lemma SplitStep(a: string, rest: string, s: string)
    requires '/' !in a && s == a + "/" + rest
    ensures RestoreTree.Split(s) == [a] + RestoreTree.Split(rest)
  {
    assert s[|a|] == '/';
    assert forall i :: 0 <= i < |a| ==> s[i] == a[i];
    assert RestoreTree.Slash(s) == |a| && s[..|a|] == a && s[|a| + 1..] == rest;
  }

  lemma CleanThree(a: string, b: string, c: string)
    requires !RestoreTree.Dropped(a) && !RestoreTree.Dropped(b) && !RestoreTree.Dropped(c)
    ensures RestoreTree.Clean([a, b, c]) == [a, b, c]
  {
    assert [a, b, c][1..] == [b, c] && [b, c][1..] == [c] && [c][1..] == [];
    assert RestoreTree.Clean([c]) == [c];
    assert RestoreTree.Clean([b, c]) == [b, c];
  }

  lemma PoolTail(digest: string, base: string, tail: string, name: string)
    requires tail == digest + "/" + base && name == "pool/" + digest + "/" + base
    ensures name == "pool" + "/" + tail
  {
  }

  lemma PoolNameSplits(digest: string, base: string, name: string)
    requires HexDigest(digest) && '/' !in base && !RestoreTree.Dropped(base) && name == "pool/" + digest + "/" + base
    ensures RestoreTree.Clean(RestoreTree.Split(name)) == ["pool", digest, base]
  {
    var tail := digest + "/" + base;
    PoolTail(digest, base, tail, name);
    assert '/' !in digest;
    SplitStep("pool", tail, name);
    RestoreTree.SplitTwo(digest, base, tail);
    CleanThree("pool", digest, base);
  }

  lemma PoolNameParses(digest: string, base: string, name: string)
    requires HexDigest(digest) && DebName(base) && '/' !in base && !RestoreTree.Dropped(base) && base != ".." &&
             '\\' !in base
    requires name == "pool/" + digest + "/" + base
    ensures PackagePath(name) == Some(["pool", digest, base])
  {
    var parts := ["pool", digest, base];
    PoolNameSplits(digest, base, name);
    assert name[0] == 'p';
    assert RestoreTree.Parse(name) == RestoreTree.Path(0, parts);
    assert |digest| == 64 && |".."| == 2 && |"pool"| == 4;
    assert ".." !in parts;
    assert parts[|parts| - 1] == base;
    forall i | 0 <= i < |name| ensures name[i] != '\\' {
      if 5 <= i < 69 {
        assert name[i] == digest[i - 5];
      } else if i >= 70 {
        assert name[i] == base[i - 70];
      }
    }
  }

  lemma {:induction false} AtRenamed(entry: Entry, name: string, key: string)
    ensures At(Renamed(entry, name), key) == At(entry, key)
  {
    if entry != [] {
      assert Renamed(entry, name)[1..] == Renamed(entry[1..], name);
      AtRenamed(entry[1..], name, key);
    }
  }

  lemma SingleRenamed(entry: Entry, name: string, key: string)
    ensures key != "Filename" ==> Single(Renamed(entry, name), key) == Single(entry, key)
    ensures key == "Filename" && HasKey(entry, key) ==> Single(Renamed(entry, name), key) == Some(name)
  {
    AtRenamed(entry, name, key);
  }

  lemma FieldsRenamed(entry: Entry, name: string)
    requires FieldsOf(entry).Some?
    ensures FieldsOf(Renamed(entry, name)) == Some(FieldsOf(entry).value.(file := name))
  {
    assert |"Package"| == |"Version"| == 7 && |"Architecture"| == 12 && |"Filename"| == 8 && |"Size"| == 4 &&
           |"SHA256"| == 6;
    SingleRenamed(entry, name, "Package");
    SingleRenamed(entry, name, "Version");
    SingleRenamed(entry, name, "Architecture");
    SingleRenamed(entry, name, "Filename");
    SingleRenamed(entry, name, "Size");
    SingleRenamed(entry, name, "SHA256");
  }

  lemma PackageMoved(f: Fields, p: Package)
    requires PackageFrom(f) == Some(p)
    ensures p.path != [] && PackageFrom(f.(file := PoolName(p))) == Some(Moved(p))
    ensures OneLine(f.file) ==> OneLineName(PoolName(p))
  {
    PathParts(f.file);
    var base, name := p.path[|p.path| - 1], PoolName(p);
    assert base in p.path;
    assert '\\' !in base;
    PoolNameParses(p.digest, base, name);
    if OneLine(f.file) {
      PoolNameIsOneLine(p.digest, base, name, f.file);
    }
  }

  lemma PackageRenamed(entry: Entry, p: Package)
    requires PackageOf(entry) == Some(p)
    ensures p.path != [] && PackageOf(Renamed(entry, PoolName(p))) == Some(Moved(p))
    ensures CanonicalEntry(entry) ==> CanonicalEntry(Renamed(entry, PoolName(p)))
  {
    var f := FieldsOf(entry).value;
    PackageMoved(f, p);
    FieldsRenamed(entry, PoolName(p));
    if CanonicalEntry(entry) {
      assert CanonicalField(entry[At(entry, "Filename")]);
      RenamedIsCanonical(entry, PoolName(p));
    }
  }

  predicate OneLineName(name: string) {
    OneLine(name) && !Indented(name)
  }

  lemma PoolNameIsOneLine(digest: string, base: string, name: string, file: string)
    requires HexDigest(digest) && OneLine(file) && (forall i :: 0 <= i < |base| ==> base[i] in file)
    requires name == "pool/" + digest + "/" + base
    ensures OneLineName(name)
  {
    forall i | 0 <= i < |name| ensures !IsBreak(name[i]) {
      if 5 <= i < 69 {
        assert name[i] == digest[i - 5];
      } else if i >= 70 {
        assert name[i] == base[i - 70];
      }
    }
  }

  lemma RenamedIsCanonical(entry: Entry, name: string)
    requires CanonicalEntry(entry) && OneLineName(name)
    ensures CanonicalEntry(Renamed(entry, name))
  {
    var r := Renamed(entry, name);
    assert forall i :: 0 <= i < |r| ==> r[i].key == entry[i].key;
    assert CanonicalKey("Filename") ==> CanonicalField(Field("Filename", [name]));
  }

  predicate Storable(ps: seq<Option<Package>>, files: Files) {
    forall i :: 0 <= i < |ps| ==> ps[i].Some? && ps[i].value.path != [] && ps[i].value.path in files
  }

  lemma {:induction false} CopiedHolds(ps: seq<Option<Package>>, files: Files, sha: string -> string, k: nat)
    requires Hashes(sha, files.Values) && Storable(ps, files) && k < |ps|
    requires forall i :: 0 <= i < |ps| ==> sha(files[ps[i].value.path]) == ps[i].value.digest
    ensures PoolPath(ps[k].value) in Copied(ps, files)
    ensures Copied(ps, files)[PoolPath(ps[k].value)] == files[ps[k].value.path]
  {
    var n := |ps| - 1;
    if k < n {
      assert ps[..n][k] == ps[k];
      CopiedHolds(ps[..n], files, sha, k);
      if PoolPath(ps[n].value) == PoolPath(ps[k].value) {
        assert PoolPath(ps[n].value)[1] == ps[n].value.digest && PoolPath(ps[k].value)[1] == ps[k].value.digest;
      }
    }
  }

  lemma MovedPackages(entries: seq<Entry>, ps: seq<Option<Package>>, moved: seq<Option<Package>>)
    requires Canonical(entries) && ps == PackagesOf(entries) && moved == PackagesOf(Rewritten(entries))
    requires forall i :: 0 <= i < |ps| ==> ps[i].Some?
    ensures Canonical(Rewritten(entries)) && |moved| == |ps|
    ensures forall i :: 0 <= i < |ps| ==> ps[i].value.path != [] && moved[i] == Some(Moved(ps[i].value))
  {
    forall i | 0 <= i < |ps|
      ensures ps[i].value.path != [] && moved[i] == Some(Moved(ps[i].value)) && CanonicalEntry(Rewritten(entries)[i])
    {
      PackageRenamed(entries[i], ps[i].value);
    }
  }

  lemma MovedIsValid(ps: seq<Option<Package>>, moved: seq<Option<Package>>, files: Files, sha: string -> string)
    requires Hashes(sha, files.Values) && ValidList(ps, files, sha) && |moved| == |ps|
    requires forall i :: 0 <= i < |ps| ==> ps[i].value.path != [] && moved[i] == Some(Moved(ps[i].value))
    ensures ValidList(moved, Copied(ps, files), sha)
  {
    forall i | 0 <= i < |ps| ensures Holds(Copied(ps, files), moved[i].value, sha) {
      CopiedHolds(ps, files, sha, i);
    }
  }

  /**
   * A snapshot's index read back lists the same packages in the same order, each at its place in the pool, and the
   * copied pool holds every one of them; so the snapshot of a valid repository is valid.
   */
  lemma SnapshotIsFaithful(text: string, files: Files, sha: string -> string)
    requires Hashes(sha, files.Values) && Valid(text, files, sha)
    ensures var entries := Records(text).value;
            Records(Encode(Rewritten(entries))) == Ok(Rewritten(entries)) && Movables(PackagesOf(entries))
    ensures var ps := PackagesOf(Records(text).value);
            PackagesOf(Rewritten(Records(text).value)) == seq(|ps|,
                                                              i requires 0 <= i < |ps| => Some(Moved(ps[i].value)))
    ensures Valid(Encode(Rewritten(Records(text).value)), Copied(PackagesOf(Records(text).value), files), sha)
  {
    ParsedIsCanonical(text);
    RewrittenIsFaithful(Records(text).value, files, sha);
  }

  lemma RewrittenIsFaithful(entries: seq<Entry>, files: Files, sha: string -> string)
    requires Hashes(sha, files.Values) && Canonical(entries) && ValidList(PackagesOf(entries), files, sha)
    ensures Records(Encode(Rewritten(entries))) == Ok(Rewritten(entries)) && Movables(PackagesOf(entries))
    ensures var ps := PackagesOf(entries);
            PackagesOf(Rewritten(entries)) == seq(|ps|, i requires 0 <= i < |ps| => Some(Moved(ps[i].value)))
    ensures ValidList(PackagesOf(Rewritten(entries)), Copied(PackagesOf(entries), files), sha)
  {
    var r, ps, moved := Rewritten(entries), PackagesOf(entries), PackagesOf(Rewritten(entries));
    MovedPackages(entries, ps, moved);
    StanzaRoundTrip(r);
    MovedIsValid(ps, moved, files, sha);
    AllMoved(ps, moved);
  }

  lemma AllMoved(ps: seq<Option<Package>>, moved: seq<Option<Package>>)
    requires |moved| == |ps| && forall i :: 0 <= i < |ps| ==>
               ps[i].Some? && ps[i].value.path != [] && moved[i] == Some(Moved(ps[i].value))
    ensures Movables(ps) && moved == seq(|ps|, i requires 0 <= i < |ps| => Some(Moved(ps[i].value)))
  {
  }

  predicate Movables(ps: seq<Option<Package>>) {
    forall i :: 0 <= i < |ps| ==> ps[i].Some? && ps[i].value.path != []
  }
}
