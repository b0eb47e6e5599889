/**
 * A repository of one package, from its first snapshot on: the assumptions of the store's theorems can be met, its
 * pointers do get set, and a compressed index does get lost.
 */
module SmallRepository {
  import opened Text
  import opened Packages
  import opened Verification
  import opened Repository
  import opened Availability
  import opened Promotion
  import Release
  import RestoreTree
  import Stanzas

  // ----- a hash and a compressor -----------------------------------------------------------------

  const DEB := "d"

  /** Tells the few contents of the example apart by their last characters. */
  function Mark(s: string): char {
    if s == "" then '0'
    else if s[|s| - 1] == '\n' then '1'
    else if s[|s| - 1] == 'x' then '2'
    else if s[|s| - 1] == 'y' then '3'
    else if s[|s| - 1] == 'z' then '4'
    else '5'
  }

  function Sha(s: string): (d: string)
    ensures Release.HexDigest(d) && d[0] == Mark(s)
  {
    seq(64, i => Mark(s))
  }

  /** Three compressors, each with its own mark behind the text, and what undoes them all. */
  function Gunzip(s: string): Option<string> {
    if s != "" && s[|s| - 1] in {'x', 'y', 'z'} then Some(s[..|s| - 1]) else None
  }

  function Identity(manifest: string): Option<string> {
    Some(manifest)
  }

  const TOOLS := Tools(Sha, Gunzip, Identity)

  function Contents0(index: string): set<string> {
    {"", DEB, index, index + "x", index + "y", index + "z"}
  }

  lemma ContentsAreApart(index: string)
    requires index != "" && index[|index| - 1] == '\n'
    ensures Hashes(TOOLS.sha, Contents0(index))
  {
    forall a: string ensures Release.HexDigest(TOOLS.sha(a)) {
      assert TOOLS.sha(a) == Sha(a);
    }
    forall a, b | a in Contents0(index) && b in Contents0(index) && TOOLS.sha(a) == TOOLS.sha(b) ensures a == b {
      assert Sha(a)[0] == Mark(a) && Sha(b)[0] == Mark(b);
      assert (index + "x")[|index|] == 'x' && (index + "y")[|index|] == 'y' && (index + "z")[|index|] == 'z';
    }
  }

  lemma Compressed(index: string, mark: string)
    requires mark == "x" || mark == "y" || mark == "z"
    ensures TOOLS.gunzip(index + mark) == Some(index)
  {
    assert (index + mark)[|index|] == mark[0] && (index + mark)[..|index|] == index;
    assert TOOLS.gunzip(index + mark) == Gunzip(index + mark);
  }

  // ----- the package -------------------------------------------------------------------------------

  const KEYS: seq<string> := ["Package", "Version", "Architecture", "Filename", "Size", "SHA256"]
  const VALUES: seq<string> := ["a", "1", "all", "a.deb", "1", Sha(DEB)]

  function OneEntry(): (e: Stanzas.Entry)
    ensures |e| == 6 && forall i :: 0 <= i < 6 ==> e[i] == Stanzas.Field(KEYS[i], [VALUES[i]])
  {
    seq(6, i requires 0 <= i < 6 => Stanzas.Field(KEYS[i], [VALUES[i]]))
  }

  lemma KeysAreGood(i: nat)
    requires i < 6
    ensures Stanzas.CanonicalKey(KEYS[i])
  {
    if i == 0 { assert Stanzas.CanonicalKey("Package"); }
    if i == 1 { assert Stanzas.CanonicalKey("Version"); }
    if i == 2 { assert Stanzas.CanonicalKey("Architecture"); }
    if i == 3 { assert Stanzas.CanonicalKey("Filename"); }
    if i == 4 { assert Stanzas.CanonicalKey("Size"); }
    if i == 5 { assert Stanzas.CanonicalKey("SHA256"); }
  }

  lemma KeysDiffer(i: nat, j: nat)
    requires i < j < 6
    ensures KEYS[i] != KEYS[j]
  {
    assert |KEYS[i]| != |KEYS[j]| || KEYS[i][0] != KEYS[j][0];
  }

  lemma ValuesAreGood(i: nat)
    requires i < 6
    ensures OneLine(VALUES[i]) && !Indented(VALUES[i])
  {
    if i == 5 {
      Release.HexIsSolid(Sha(DEB));
    } else {
      assert |VALUES[i]| <= 5;
    }
  }

  lemma EntryIsCanonical()
    ensures Stanzas.Canonical([OneEntry()])
  {
    var e := OneEntry();
    forall i | 0 <= i < 6 ensures Stanzas.CanonicalField(e[i]) {
      KeysAreGood(i);
      ValuesAreGood(i);
    }
    forall i, j | 0 <= i < j < 6 ensures e[i].key != e[j].key {
      KeysDiffer(i, j);
    }
  }

  lemma SingleAt(i: nat)
    requires i < 6
    ensures Single(OneEntry(), KEYS[i]) == Some(VALUES[i])
  {
    var e := OneEntry();
    forall j | 0 <= j < i ensures e[j].key != KEYS[i] {
      KeysDiffer(j, i);
    }
    assert At(e, KEYS[i]) == i;
  }

  function OnePackage(): Package {
    Package(("a", "1", "all"), ["a.deb"], 1, Sha(DEB))
  }

  lemma FileNameIsRead()
    ensures PackagePath("a.deb") == Some(["a.deb"])
  {
    var name := "a.deb";
    assert '/' !in name && '\\' !in name && name[0] == 'a' && |name| == 5;
    RestoreTree.PlainTarget(name);
    assert name[1..] == ".deb";
    assert ".." != name;
  }

  lemma SizeIsRead()
    ensures Digits("1") && Number("1") == 1
  {
    assert "1"[..0] == "" && Number("") == 0;
  }

  lemma FieldsAreRead()
    ensures FieldsOf(OneEntry()) == Some(Fields("a", "1", "all", "a.deb", "1", Sha(DEB)))
  {
    SingleAt(0);
    SingleAt(1);
    SingleAt(2);
    SingleAt(3);
    SingleAt(4);
    SingleAt(5);
  }

  lemma PackageIsRead()
    ensures PackageOf(OneEntry()) == Some(OnePackage())
  {
    FieldsAreRead();
    FileNameIsRead();
    SizeIsRead();
  }

  // ----- the snapshot --------------------------------------------------------------------------------

  function Source(): string {
    Stanzas.Encode([OneEntry()])
  }

  function Debs(): Files {
    map[["a.deb"] := DEB]
  }

  lemma SourceIsRead()
    ensures Stanzas.Records(Source()) == Ok([OneEntry()]) && PackagesOf([OneEntry()]) == [Some(OnePackage())]
  {
    EntryIsCanonical();
    Stanzas.StanzaRoundTrip([OneEntry()]);
    PackageIsRead();
  }

  lemma SourceIsValid()
    ensures Valid(Source(), Debs(), TOOLS.sha)
  {
    SourceIsRead();
    assert TOOLS.sha(DEB) == Sha(DEB);
    assert Holds(Debs(), OnePackage(), TOOLS.sha);
  }

  function Index(): string {
    Stanzas.Encode(Rewritten([OneEntry()]))
  }

  lemma IndexEndsInNewline()
    ensures Index() != "" && Index()[|Index()| - 1] == '\n'
  {
  }

  const HEADING := Heading("today", "later", "all")

  function SnapshotTop(): Top {
    Top(Index(), Index() + "x", "s", None)
  }

  function SnapshotTree(): Tree {
    Tree(SnapshotTop(), Some(Signature("snapshot", HEADING, SnapshotTop())), "s",
         map[PoolPath(OnePackage()) := 0], map[Sha(Index()) := 1, Sha(Index() + "x") := 2])
  }

  function Inodes(): map<Inode, string> {
    map[0 := DEB, 1 := Index(), 2 := Index() + "x"]
  }

  function FirstStep(): Step {
    Snapshot("s", Source(), Debs(), SnapshotTree(), Inodes())
  }

  lemma OneFileCopied(p: Package, files: Files)
    requires p.path != [] && p.path in files
    ensures Packages.Copied([Some(p)], files) == map[PoolPath(p) := files[p.path]]
  {
    assert [Some(p)][..0] == [];
    assert Packages.Copied([Some(p)][..0], files) == map[];
  }

  lemma IndexesDiffer()
    ensures Sha(Index()) != Sha(Index() + "x")
  {
    IndexEndsInNewline();
    assert (Index() + "x")[|Index()|] == 'x';
    assert Mark(Index()) != Mark(Index() + "x");
  }

  lemma LinksAreRight()
    ensures Indexed(SnapshotTree().byHash, Inodes(), Index(), TOOLS.sha)
    ensures Indexed(SnapshotTree().byHash, Inodes(), Index() + "x", TOOLS.sha)
    ensures OwnIndex(SnapshotTree(), TOOLS.sha)
  {
    IndexesDiffer();
    assert TOOLS.sha(Index()) == Sha(Index()) && TOOLS.sha(Index() + "x") == Sha(Index() + "x");
  }

  lemma PoolIsCopied()
    ensures Contents(SnapshotTree().pool, Inodes()) == Packages.Copied([Some(OnePackage())], Debs())
  {
    OneFileCopied(OnePackage(), Debs());
  }

  lemma HeadingIsGood()
    ensures GoodHeading(HEADING)
  {
  }

  lemma FirstStepIsEnabled()
    ensures Enabled(EMPTY, FirstStep(), TOOLS)
  {
    SourceIsRead();
    SourceIsValid();
    Compressed(Index(), "x");
    LinksAreRight();
    PoolIsCopied();
    HeadingIsGood();
    assert TOOLS.identity("s") == Identity("s");
    assert SnapshotSigned(SnapshotTree(), "s", Source(), TOOLS);
  }

  function Known(): set<string> {
    Contents0(Index())
  }

  function First(): Store {
    EMPTY.(bytes := EMPTY.bytes + Inodes(), snapshots := EMPTY.snapshots["s" := SnapshotTree()])
  }

  lemma KnownIsApart()
    ensures Hashes(TOOLS.sha, Known())
  {
    IndexEndsInNewline();
    ContentsAreApart(Index());
  }

  lemma NothingIsReached(known: set<string>)
    ensures Reaches([], EMPTY, TOOLS, known)
  {
  }

  lemma FirstIsNext()
    ensures Enabled(EMPTY, FirstStep(), TOOLS) && Do(EMPTY, FirstStep(), TOOLS) == First()
  {
    FirstStepIsEnabled();
  }

  lemma FirstIsReached()
    ensures Reaches([FirstStep()], First(), TOOLS, Known())
  {
    FirstIsNext();
    FirstBrings();
    NothingIsReached(Known());
    ReachedByOne(EMPTY, FirstStep(), TOOLS, Known());
  }

  lemma ReachedByOne(s: Store, l: Step, tools: Tools, known: set<string>)
    requires Reaches([], s, tools, known) && Enabled(s, l, tools) && Brings(l) <= known
    ensures Reaches([l], Do(s, l, tools), tools, known)
  {
    Onward([], s, tools, known, l);
    assert [] + [l] == [l];
  }

  lemma FirstBrings()
    ensures Brings(FirstStep()) <= Known()
  {
    forall x | x in Debs().Values ensures x in Known() {
      assert Debs()[["a.deb"]] == DEB;
    }
    forall x | x in Inodes().Values ensures x in Known() {
      assert Inodes().Keys == {0, 1, 2};
    }
  }

  // ----- promotions --------------------------------------------------------------------------------------

  function Files3(): seq<Copy> {
    [PoolFile(PoolPath(OnePackage()), 0), IndexFile(Sha(Index()), 1), IndexFile(Sha(Index() + "x"), 2)]
  }

  lemma FilesAreAll()
    ensures Sources(Files3(), SnapshotTree()) && Digests(Files3()) == {Sha(Index()), Sha(Index() + "x")}
  {
    IndexesDiffer();
    var f := Files3();
    assert f[0] in f && f[1] in f && f[2] in f;
    DigestsOfFiles(f, Sha(Index()), Sha(Index() + "x"));
  }

  lemma DigestsOfFiles(f: seq<Copy>, a: string, b: string)
    requires |f| == 3 && f[0].PoolFile? && f[1] == IndexFile(a, 1) && f[2] == IndexFile(b, 2)
    ensures Digests(f) == {a, b}
  {
    assert f[1] in f && f[2] in f;
    forall d ensures d in Digests(f) <==> d in {a, b} {
      assert d == a ==> f[1].digest == d;
      assert d == b ==> f[2].digest == d;
    }
  }

  /** To testing, with the compressor that leaves this mark. */
  function To(id: string, mark: string): Order {
    Order(Testing, "s", Files3(), "why", Index() + mark, HEADING, id)
  }

  lemma FirstCanPromote()
    ensures CanPromote(First(), To("p", "y"), TOOLS)
  {
    FilesAreAll();
    Compressed(Index(), "y");
    HeadingIsGood();
    assert First().snapshots["s"] == SnapshotTree();
  }

  /**
   * The assumptions can be met and the steps lead somewhere: a snapshot of a valid index of one package, promoted file
   * by file until the testing pointer shows it.
   */
  lemma FirstRelease() returns (run: seq<Step>)
    ensures Follows(EMPTY, run, TOOLS) && Hashes(TOOLS.sha, ContentsOf(run))
    ensures var s := After(EMPTY, run, TOOLS);
            && s.pointers == map[Testing := Key(Testing, "p")] && Key(Testing, "p") in s.publications
            && s.publications[Key(Testing, "p")].snapshot == "s" &&
               Listed(s.publications[Key(Testing, "p")].top.packages) != {}
  {
    KnownIsApart();
    FirstIsReached();
    FirstCanPromote();
    var t;
    run, t := PromotionGoesThrough([FirstStep()], First(), To("p", "y"), TOOLS, Known());
    Opened(run, t, TOOLS, Known());
    IndexListsIt();
  }

  lemma IndexListsIt()
    ensures Listed(Index()) != {}
  {
    SourceIsRead();
    SourceIsValid();
    ContentsAreApart2();
    SnapshotIsFaithful(Source(), Debs(), TOOLS.sha);
    var ps := PackagesOf(Rewritten([OneEntry()]));
    assert ps[0] == Some(Moved(OnePackage()));
    assert Moved(OnePackage()) in Listed(Index());
  }

  lemma ContentsAreApart2()
    ensures Hashes(TOOLS.sha, Debs().Values)
  {
    IndexEndsInNewline();
    ContentsAreApart(Index());
    FirstBrings();
  }

  lemma GzsAreNew()
    ensures Sha(Index() + "z") !in {Sha(Index()), Sha(Index() + "x")}
    ensures Sha(Index() + "y") !in {Sha(Index()), Sha(Index() + "x")}
  {
    IndexEndsInNewline();
    MarksDiffer(Index());
  }

  lemma MarksDiffer(index: string)
    requires index != "" && index[|index| - 1] == '\n'
    ensures Sha(index + "z")[0] == '4' && Sha(index + "y")[0] == '3' && Sha(index + "x")[0] == '2' &&
            Sha(index)[0] == '1'
  {
    assert (index + "x")[|index|] == 'x' && (index + "y")[|index|] == 'y' && (index + "z")[|index|] == 'z';
  }

  lemma OwnCompressions()
    ensures IsOwnCompression(First(), To("p", "y"), TOOLS.sha) && IsOwnCompression(First(), To("q", "z"), TOOLS.sha)
    ensures Repeats(To("p", "y"), To("q", "z"))
  {
    FilesAreAll();
    GzsAreNew();
    assert TOOLS.sha(Index() + "y") == Sha(Index() + "y") && TOOLS.sha(Index() + "z") == Sha(Index() + "z");
    assert SnapshotTree().byHash.Keys == {Sha(Index()), Sha(Index() + "x")};
    assert (Index() + "y")[|Index()|] == 'y' && (Index() + "z")[|Index()|] == 'z' && "p"[0] == 'p' && "q"[0] == 'q';
  }

  /**
   * A compressed index that clients were shown is lost: testing shows a publication, is promoted again while the
   * compressor changes, and the new publication has not got the index of the old one under its digest.
   */
  lemma CompressedIndexIsLost() returns (run: seq<Step>)
    ensures Follows(EMPTY, run, TOOLS) && Hashes(TOOLS.sha, ContentsOf(run))
    ensures var s := After(EMPTY, run, TOOLS);
            var p, q := Key(Testing, "p"), Key(Testing, "q");
            s.visible == [p, q] && s.pointers == map[Testing := q] && Lost(s, p, q, TOOLS.sha)
  {
    KnownIsApart();
    FirstIsReached();
    FirstCanPromote();
    OwnCompressions();
    Compressed(Index(), "z");
    var t;
    run, t := RecompressionLoses([FirstStep()], First(), To("p", "y"), To("q", "z"), TOOLS, Known());
    Opened(run, t, TOOLS, Known());
  }
}
