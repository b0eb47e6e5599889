/** Exactly which package indexes are valid, and what a snapshot makes of one, stanza by stanza. */
module IndexRules {
  import opened Text
  import opened Stanzas
  import opened Release
  import opened Packages
  import Listings

  // ----- one stanza -----------------------------------------------------------------------------------

  /** The stanza's field of this name is this one line. */
  predicate Has(entry: Entry, key: string, value: string) {
    exists i :: 0 <= i < |entry| && entry[i] == Field(key, [value]) &&
      forall j :: 0 <= j < i ==> entry[j].key != key
  }

  lemma SingleIs(entry: Entry, key: string, value: string)
    ensures Single(entry, key) == Some(value) <==> Has(entry, key, value)
  {
    var k := At(entry, key);
    if Has(entry, key, value) {
      var i :| 0 <= i < |entry| && entry[i] == Field(key, [value]) && forall j :: 0 <= j < i ==> entry[j].key != key;
      assert k == i;
    }
    if Single(entry, key) == Some(value) {
      assert entry[k] == Field(key, [value]);
    }
  }

  /** A relative path of a `.deb` file below the repository, without backslashes. */
  ghost predicate IsDebPath(name: string, path: Path) {
    && !("/" <= name) && '\\' !in name && ".." !in path && path != []
    && (exists pieces :: Listings.Pieces(name, pieces) && path == Listings.Kept(pieces))
    && exists stem :: stem != "" && path[|path| - 1] == stem + ".deb"
  }

  lemma DebPathIs(name: string, path: Path)
    ensures PackagePath(name) == Some(path) <==> IsDebPath(name, path)
  {
    var pieces := RestoreTree.Split(name);
    Listings.PiecesAre(name, pieces);
    Listings.KeptIsClean(pieces);
    forall other | Listings.Pieces(name, other) ensures other == pieces {
      Listings.PiecesAre(name, other);
    }
    if path != [] {
      DebNameIs(path[|path| - 1]);
    }
    assert "/" <= name <==> name != "" && name[0] == '/';
  }

  lemma DebNameIs(name: string)
    ensures DebName(name) <==> exists stem :: stem != "" && name == stem + ".deb"
  {
    if DebName(name) {
      assert name == name[..|name| - 4] + ".deb";
    }
    if stem :| stem != "" && name == stem + ".deb" {
      assert name[|name| - 4..] == ".deb";
    }
  }

  /** Sixty-four lower-case hexadecimal digits. */
  predicate IsDigest(s: string) {
    |s| == 64 && forall i :: 0 <= i < 64 ==>
      s[i] in {'0', '1', '2', '3', '4', '5', '6', '7', '8', '9', 'a', 'b', 'c', 'd', 'e', 'f'}
  }

  lemma DigestIs(s: string)
    ensures HexDigest(s) <==> IsDigest(s)
  {
  }

  /** The stanza lists this package: the six fields, each one line, a path, a size and a digest that can be ones. */
  ghost predicate Lists(entry: Entry, p: Package, size: string, file: string) {
    && Has(entry, "Package", p.identity.0) && Has(entry, "Version", p.identity.1)
    && Has(entry, "Architecture", p.identity.2) && Has(entry, "Filename", file) && IsDebPath(file, p.path)
    && Has(entry, "Size", size) && Digits(size) && p.size == Number(size)
    && Has(entry, "SHA256", p.digest) && IsDigest(p.digest)
  }

  ghost predicate ListsPackage(entry: Entry, p: Package) {
    exists size, file :: Lists(entry, p, size, file)
  }

  lemma FieldsAre(entry: Entry, f: Fields)
    ensures FieldsOf(entry) == Some(f) <==>
              && Has(entry, "Package", f.name) && Has(entry, "Version", f.version)
              && Has(entry, "Architecture", f.architecture) && Has(entry, "Filename", f.file)
              && Has(entry, "Size", f.size) && Has(entry, "SHA256", f.digest)
  {
    SingleIs(entry, "Package", f.name);
    SingleIs(entry, "Version", f.version);
    SingleIs(entry, "Architecture", f.architecture);
    SingleIs(entry, "Filename", f.file);
    SingleIs(entry, "Size", f.size);
    SingleIs(entry, "SHA256", f.digest);
  }

  lemma PackageIs(entry: Entry, p: Package)
    ensures PackageOf(entry) == Some(p) <==> ListsPackage(entry, p)
  {
    if PackageOf(entry) == Some(p) {
      var f := FieldsOf(entry).value;
      FieldsAre(entry, f);
      DebPathIs(f.file, p.path);
      DigestIs(f.digest);
      assert Lists(entry, p, f.size, f.file);
    }
    if size, file :| Lists(entry, p, size, file) {
      var f := Fields(p.identity.0, p.identity.1, p.identity.2, file, size, p.digest);
      FieldsAre(entry, f);
      DebPathIs(file, p.path);
      DigestIs(p.digest);
    }
  }

  // ----- the whole index ---------------------------------------------------------------------------------

  /** The file of the package is there, with its size and digest. */
  predicate IsStored(files: Files, p: Package, sha: string -> string) {
    p.path in files && |files[p.path]| == p.size && sha(files[p.path]) == p.digest
  }

  /** No two of the same name, version and architecture. */
  predicate NoneTwice(ps: seq<Package>) {
    forall i, j :: 0 <= i < j < |ps| ==>
      ps[i].identity.0 != ps[j].identity.0 || ps[i].identity.1 != ps[j].identity.1 ||
      ps[i].identity.2 != ps[j].identity.2
  }

  /** The packages of the stanzas, in order. */
  ghost predicate AreListed(entries: seq<Entry>, ps: seq<Package>) {
    |ps| == |entries| && NoneTwice(ps) && forall i :: 0 <= i < |ps| ==> ListsPackage(entries[i], ps[i])
  }

  predicate AllStored(files: Files, ps: seq<Package>, sha: string -> string) {
    forall i :: 0 <= i < |ps| ==> IsStored(files, ps[i], sha)
  }

  predicate AllSome(qs: seq<Option<Package>>, ps: seq<Package>) {
    |qs| == |ps| && forall i :: 0 <= i < |ps| ==> qs[i] == Some(ps[i])
  }

  lemma ListedAre(entries: seq<Entry>, ps: seq<Package>)
    ensures AreListed(entries, ps) <==> AllSome(PackagesOf(entries), ps) && NoneTwice(ps)
  {
    if |ps| == |entries| {
      forall i | 0 <= i < |ps| ensures PackagesOf(entries)[i] == Some(ps[i]) <==> ListsPackage(entries[i], ps[i]) {
        PackageIs(entries[i], ps[i]);
      }
    }
  }

  lemma ValidListIs(qs: seq<Option<Package>>, ps: seq<Package>, files: Files, sha: string -> string)
    requires AllSome(qs, ps)
    ensures ValidList(qs, files, sha) <==> NoneTwice(ps) && AllStored(files, ps, sha)
  {
    if ValidList(qs, files, sha) {
      forall i | 0 <= i < |ps| ensures IsStored(files, ps[i], sha) {
        assert Holds(files, qs[i].value, sha);
      }
      forall i, j | 0 <= i < j < |ps| ensures ps[i].identity != ps[j].identity {
        assert qs[i].value.identity != qs[j].value.identity;
      }
    }
    if NoneTwice(ps) && AllStored(files, ps, sha) {
      forall i | 0 <= i < |qs| ensures qs[i].Some? && Holds(files, qs[i].value, sha) {
        assert IsStored(files, ps[i], sha);
      }
    }
  }

  lemma Unwrapped(qs: seq<Option<Package>>) returns (ps: seq<Package>)
    requires forall i :: 0 <= i < |qs| ==> qs[i].Some?
    ensures AllSome(qs, ps)
  {
    ps := seq(|qs|, i requires 0 <= i < |qs| => qs[i].value);
  }

  /** An index is valid exactly if its stanzas list packages, none twice, each with its file. */
  lemma ValidIff(text: string, files: Files, sha: string -> string)
    ensures Packages.Valid(text, files, sha) <==>
              Records(text).Ok? &&
              exists ps: seq<Package> :: AreListed(Records(text).value, ps) && AllStored(files, ps, sha)
  {
    if Records(text).Ok? {
      var entries := Records(text).value;
      if Packages.Valid(text, files, sha) {
        var ps := Unwrapped(PackagesOf(entries));
        ValidListIs(PackagesOf(entries), ps, files, sha);
        ListedAre(entries, ps);
      }
      if ps: seq<Package> :| AreListed(entries, ps) && AllStored(files, ps, sha) {
        ListedAre(entries, ps);
        ValidListIs(PackagesOf(entries), ps, files, sha);
      }
    }
  }

  // ----- the index of a snapshot ----------------------------------------------------------------------------

  /** The same stanza, but the file is at this path. */
  predicate IsMovedTo(entry: Entry, moved: Entry, file: string) {
    && |moved| == |entry|
    && forall j :: 0 <= j < |entry| ==>
         moved[j] == if entry[j].key == "Filename" then Field("Filename", [file]) else entry[j]
  }

  lemma RenamedIs(entry: Entry, p: Package)
    requires PackageOf(entry) == Some(p) && p.path != []
    ensures IsMovedTo(entry, RewrittenEntry(entry), "pool/" + p.digest + "/" + p.path[|p.path| - 1])
  {
    MovableIsRenamed(entry, p);
  }

  /** The file of the package is in the pool, under its digest and old name, with its old content. */
  predicate IsPooled(p: Package, files: Files, pool: Files) {
    && p.path != [] && p.path in files && ["pool", p.digest, p.path[|p.path| - 1]] in pool
    && pool[["pool", p.digest, p.path[|p.path| - 1]]] == files[p.path]
  }

  lemma PooledAre(qs: seq<Option<Package>>, ps: seq<Package>, files: Files, sha: string -> string, i: nat)
    requires Hashes(sha, files.Values) && AllSome(qs, ps) && AllStored(files, ps, sha) && i < |ps|
    requires forall k :: 0 <= k < |ps| ==> ps[k].path != []
    ensures IsPooled(ps[i], files, Copied(qs, files))
  {
    forall k | 0 <= k < |qs| ensures qs[k].Some? && qs[k].value.path != [] && qs[k].value.path in files &&
                                     sha(files[qs[k].value.path]) == qs[k].value.digest {
      assert IsStored(files, ps[k], sha);
    }
    CopiedHolds(qs, files, sha, i);
    assert PoolPath(qs[i].value) == ["pool", ps[i].digest, ps[i].path[|ps[i].path| - 1]];
  }

  lemma PathsAreSome(entries: seq<Entry>, ps: seq<Package>)
    requires AreListed(entries, ps)
    ensures forall k :: 0 <= k < |ps| ==> ps[k].path != []
  {
    forall k | 0 <= k < |ps| ensures ps[k].path != [] {
      assert ListsPackage(entries[k], ps[k]);
    }
  }

  /**
   * The stanzas of a snapshot are those of its source; only the file of each is at `pool/`, its digest, `/` and its old
   * name, and there the pool has the file's content.
   */
  lemma SnapshotIs(text: string, files: Files, sha: string -> string, ps: seq<Package>, i: nat)
    requires Hashes(sha, files.Values) && Records(text).Ok? && AreListed(Records(text).value, ps)
    requires AllStored(files, ps, sha) && i < |ps|
    ensures ps[i].path != [] && IsPooled(ps[i], files, Copied(PackagesOf(Records(text).value), files))
    ensures IsMovedTo(Records(text).value[i], Rewritten(Records(text).value)[i],
                      "pool/" + ps[i].digest + "/" + ps[i].path[|ps[i].path| - 1])
  {
    var entries := Records(text).value;
    PathsAreSome(entries, ps);
    ListedAre(entries, ps);
    PooledAre(PackagesOf(entries), ps, files, sha, i);
    RenamedIs(entries[i], ps[i]);
  }
}
