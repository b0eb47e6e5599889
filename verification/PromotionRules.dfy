/** Exactly when a snapshot or a promotion is refused, and as what. */
module PromotionRules {
  import opened Text
  import opened Packages
  import opened Verification
  import opened Repository
  import opened Promotion
  import opened RepositoryRoot

  const CAPITALS := {'A', 'B', 'C', 'D', 'E', 'F', 'G', 'H', 'I', 'J', 'K', 'L', 'M', 'N', 'O', 'P', 'Q', 'R', 'S',
                     'T', 'U', 'V', 'W', 'X', 'Y', 'Z'}

  const SMALLS := {'a', 'b', 'c', 'd', 'e', 'f', 'g', 'h', 'i', 'j', 'k', 'l', 'm', 'n', 'o', 'p', 'q', 'r', 's', 't',
                   'u', 'v', 'w', 'x', 'y', 'z'}

  const FIGURES := {'0', '1', '2', '3', '4', '5', '6', '7', '8', '9'}

  /** One to ninety-six letters, digits, dots, underscores and hyphens, of which the first is a letter or a digit. */
  predicate IsName(sid: Sid) {
    && 0 < |sid| <= 96 && sid[0] in CAPITALS + SMALLS + FIGURES
    && forall i :: 0 <= i < |sid| ==> sid[i] in CAPITALS + SMALLS + FIGURES + {'.', '_', '-'}
  }

  lemma CapitalIs(c: char)
    ensures c in CAPITALS <==> 'A' <= c <= 'Z'
  {
    var n := c as int;
    assert n < 78 ==> (c in CAPITALS <==> 'A' <= c);
    assert n >= 78 ==> (c in CAPITALS <==> c <= 'Z');
  }

  lemma SmallIs(c: char)
    ensures c in SMALLS <==> 'a' <= c <= 'z'
  {
    var n := c as int;
    assert n < 110 ==> (c in SMALLS <==> 'a' <= c);
    assert n >= 110 ==> (c in SMALLS <==> c <= 'z');
  }

  lemma NameCharIs(c: char)
    ensures NameChar(c) <==> c in CAPITALS + SMALLS + FIGURES
  {
    assert c in FIGURES <==> '0' <= c <= '9';
    CapitalIs(c);
    SmallIs(c);
  }

  lemma NameIs(sid: Sid)
    ensures Identifier(sid) <==> IsName(sid)
  {
    forall i | 0 <= i < |sid| ensures NameChar(sid[i]) <==> sid[i] in CAPITALS + SMALLS + FIGURES {
      NameCharIs(sid[i]);
    }
  }

  // ----- `snapshot` -----------------------------------------------------------------------------------

  /** What a new snapshot is refused as, the first thing wrong first. */
  lemma SnapshotRefusalIs(root: Root, sid: Sid, source: string, files: Files, signs: bool)
    ensures var r := root.SnapshotRefusal(sid, source, files, signs);
            && (r == Some(BadName) <==> !IsName(sid))
            && (r == Some(Exists) <==> IsName(sid) && sid in root.snapshots)
            && (r == Some(BadSource) <==>
                  IsName(sid) && sid !in root.snapshots && !Packages.Valid(source, files, root.tools.sha))
            && (r == Some(Unsigned) <==>
                  IsName(sid) && sid !in root.snapshots && Packages.Valid(source, files, root.tools.sha) && !signs)
            && (r == None <==>
                  IsName(sid) && sid !in root.snapshots && Packages.Valid(source, files, root.tools.sha) && signs)
  {
    NameIs(sid);
  }

  // ----- `promote` ------------------------------------------------------------------------------------

  /** The testing channel points at a publication of this snapshot. */
  predicate IsInTesting(root: Root, sid: Sid)
    reads root
  {
    exists key :: key in root.publications && Testing in root.pointers && root.pointers[Testing] == key &&
                  root.publications[key].snapshot == sid
  }

  /** Something else has the name of this file. */
  predicate IsInTheWay(root: Root, c: Copy)
    reads root
  {
    match c
    case PoolFile(path, from) =>
      path in root.pool && !(root.pool[path] in root.bytes && from in root.bytes &&
                             root.tools.sha(root.bytes[root.pool[path]]) == root.tools.sha(root.bytes[from]))
    case IndexFile(digest, from) =>
      digest in root.index && !(root.index[digest] in root.bytes && from in root.bytes &&
                                root.tools.sha(root.bytes[root.index[digest]]) == root.tools.sha(root.bytes[from]))
  }

  /** The shared file under the digest of this text does not have that digest. */
  predicate IsSpoilt(root: Root, text: string)
    reads root
  {
    var d := root.tools.sha(text);
    d in root.index && !(root.index[d] in root.bytes && root.tools.sha(root.bytes[root.index[d]]) == d)
  }

  /** The snapshot is there; for stable, testing shows it and the operator approves. */
  predicate MayBegin(root: Root, o: Order, approved: bool)
    reads root
  {
    && IsName(o.sid) && o.sid in root.snapshots
    && (o.channel == Stable ==> IsInTesting(root, o.sid) && approved)
  }

  /** A shared file that is to be added, or linked, is there as something else. */
  predicate Differs(root: Root, o: Order)
    reads root
  {
    (exists i :: 0 <= i < |o.files| && IsInTheWay(root, o.files[i])) || IsSpoilt(root, o.gz)
  }

  lemma DiffersIs(root: Root, o: Order)
    ensures Differs(root, o) <==>
              !AllFit(root.View(), o.files, 0, root.tools.sha) ||
              !Unclashed(root.index, root.bytes, o.gz, root.tools.sha)
  {
    forall i | 0 <= i < |o.files|
      ensures IsInTheWay(root, o.files[i]) <==> !Fits(root.View(), o.files[i], root.tools.sha)
    {
    }
  }

  lemma MayBeginIs(root: Root, o: Order, approved: bool)
    requires root.Valid() && root.Apart()
    ensures root.Objection(o.channel, o.sid, approved).None? <==> MayBegin(root, o, approved)
    ensures root.SnapshotVerifiesAs(o.sid) <==> o.sid in root.snapshots
    ensures root.TestingIs(o.sid) <==> IsInTesting(root, o.sid)
  {
    NameIs(o.sid);
    root.SnapshotsAreReal(o.sid);
    root.TestingIsReal(o.sid);
    root.ObjectionIsReal(o.channel, o.sid, approved);
  }

  /** What a promotion is refused as before anything is written, the first thing wrong first. */
  lemma ObjectionIs(root: Root, o: Order, approved: bool)
    requires root.Valid() && root.Apart()
    ensures var r := root.Objection(o.channel, o.sid, approved);
            && (r == Some(BadName) <==> !IsName(o.sid))
            && (r == Some(BadSnapshot) <==> IsName(o.sid) && o.sid !in root.snapshots)
            && (r == Some(Untested) <==>
                  IsName(o.sid) && o.sid in root.snapshots && o.channel == Stable && !IsInTesting(root, o.sid))
            && (r == Some(Unapproved) <==>
                  && IsName(o.sid) && o.sid in root.snapshots && o.channel == Stable && IsInTesting(root, o.sid)
                  && !approved)
            && (r == None <==> MayBegin(root, o, approved))
  {
    NameIs(o.sid);
    MayBeginIs(root, o, approved);
  }

  /** What becomes of a promotion: its objection; or something differs, signing fails, its name is taken; or nothing. */
  lemma PromotionRefusalIs(root: Root, o: Order, approved: bool, signs: bool)
    requires root.Valid() && root.Apart()
    ensures var r := root.Refuses(o, approved, signs);
            && (r == Some(Modified) <==> MayBegin(root, o, approved) && Differs(root, o))
            && (r == Some(Unsigned) <==> MayBegin(root, o, approved) && !Differs(root, o) && !signs)
            && (r == Some(Exists) <==>
                  && MayBegin(root, o, approved) && !Differs(root, o) && signs
                  && Key(o.channel, o.id) in root.publications)
            && (r == None <==>
                  && MayBegin(root, o, approved) && !Differs(root, o) && signs
                  && Key(o.channel, o.id) !in root.publications)
            && (!MayBegin(root, o, approved) ==> r == root.Objection(o.channel, o.sid, approved))
  {
    ObjectionIs(root, o, approved);
    DiffersIs(root, o);
  }
}
