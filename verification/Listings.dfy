/** The check of a listing before a staged restore, and exactly which listings it lets through. */
module Listings {
  import opened Text
  import opened RestoreTree

  // ----- what a listing may hold, in its own terms ------------------------------------------------

  /** The text spells an absolute path of these names, in the one way the path is written. */
  predicate Spells(raw: string, slashes: nat, names: seq<string>) {
    && ((slashes == 1 && raw == "/" + Join(names, "/")) || (slashes == 2 && raw == "//" + Join(names, "/")))
    && forall c :: c in names ==> c != "" && c != "." && c != ".." && '/' !in c
  }

  /** At or below one of the roots. */
  predicate UnderRoot(slashes: nat, names: seq<string>, roots: seq<Path>) {
    exists r :: r in roots && r.slashes == slashes && r.parts <= names
  }

  /** One of the directories on the way to a root. */
  predicate OnTheWay(slashes: nat, names: seq<string>, roots: seq<Path>) {
    exists r :: r in roots && r.slashes == slashes && names <= r.parts
  }

  /** The pieces of a text between its slashes. */
  predicate Pieces(text: string, pieces: seq<string>) {
    pieces != [] && text == Join(pieces, "/") && forall c :: c in pieces ==> '/' !in c
  }

  /** What is left of them as names. */
  function Kept(pieces: seq<string>): seq<string> {
    if pieces == [] then []
    else (if pieces[0] == "" || pieces[0] == "." then [] else [pieces[0]]) + Kept(pieces[1..])
  }

  /** The directory's metadata has one item of this name, a symlink with this target. */
  predicate Records(items: seq<Item>, name: string, target: string) {
    exists i :: 0 <= i < |items| && items[i] == Item(name, Symlink, target) &&
      forall j :: 0 <= j < |items| && items[j].name == name ==> j == i
  }

  /** A target that is relative, never goes up, and from this directory on stays at or below one root. */
  ghost predicate SafeFrom(target: string, slashes: nat, dir: seq<string>, roots: seq<Path>) {
    && target != "" && '\0' !in target && target[0] != '/'
    && exists pieces :: Pieces(target, pieces) && ".." !in pieces && UnderRoot(slashes, dir + Kept(pieces), roots)
  }

  /** The symlink at this path is on record, with such a target. */
  ghost predicate LeadsInside(slashes: nat, names: seq<string>, roots: seq<Path>, trees: Trees) {
    var (dir, name) := if names == [] then ([], "") else (names[..|names| - 1], names[|names| - 1]);
    && Path(slashes, dir) in trees
    && exists target :: Records(trees[Path(slashes, dir)], name, target) && SafeFrom(target, slashes, dir, roots)
  }

  /** One node of a listing, at this path. */
  ghost predicate Allowed(node: Node, slashes: nat, names: seq<string>, roots: seq<Path>, trees: Trees) {
    && Spells(node.raw, slashes, names)
    && (names != [] ==> names[0] != "prepared" && names[0] != "RECOVERY.json" && names[0] != "RESTORE_INCOMPLETE")
    && match node.kind
       case File => UnderRoot(slashes, names, roots)
       case Dir => UnderRoot(slashes, names, roots) || OnTheWay(slashes, names, roots)
       case Symlink => UnderRoot(slashes, names, roots) && LeadsInside(slashes, names, roots, trees)
       case Special => false
  }

  ghost predicate IsAllowed(node: Node, roots: seq<Path>, trees: Trees) {
    exists slashes: nat, names :: Allowed(node, slashes, names, roots, trees)
  }

  /** The first path is that of the second, or below it. */
  ghost predicate AtOrBelow(a: string, b: string) {
    exists slashes: nat, p, q :: Spells(a, slashes, p) && Spells(b, slashes, q) && q <= p
  }

  /** The first has not the path of the second, and is not below it if that is a symlink. */
  ghost predicate Apart(a: Node, b: Node) {
    a.raw != b.raw && !(b.kind == Symlink && AtOrBelow(a.raw, b.raw))
  }

  /** The whole listing: every node is allowed, no path twice, and none at or below a symlink of another node. */
  ghost predicate InOrder(roots: seq<Path>, nodes: seq<Node>, trees: Trees) {
    && (forall i :: 0 <= i < |nodes| ==> IsAllowed(nodes[i], roots, trees))
    && (forall i, j :: 0 <= i < |nodes| && 0 <= j < |nodes| && i != j ==>
          Apart(nodes[i], nodes[j]))
  }

  // ----- the code's conditions are these ------------------------------------------------------------

  lemma SpellsReads(raw: string, slashes: nat, names: seq<string>)
    requires Spells(raw, slashes, names)
    ensures Parse(raw) == Path(slashes, names) && Format(Path(slashes, names)) == raw && ".." !in names
  {
    if names == [] {
      ParseRoot(raw);
    } else {
      ParseFormat(Path(slashes, names));
    }
  }

  lemma SafeIsSpelled(node: Node)
    ensures SafePath(node) <==> Spells(node.raw, PathOf(node).slashes, PathOf(node).parts)
    ensures SafePath(node) <==> exists slashes: nat, names :: Spells(node.raw, slashes, names)
  {
    var p := PathOf(node);
    if SafePath(node) {
      CleanKeeps(Split(node.raw));
      SplitHasNoSlash(node.raw);
      assert Spells(node.raw, p.slashes, p.parts);
    }
    if slashes: nat, names :| Spells(node.raw, slashes, names) {
      SpellsReads(node.raw, slashes, names);
    }
  }

  lemma {:induction false} SplitHasNoSlash(s: string)
    ensures forall c :: c in Split(s) ==> '/' !in c
    decreases |s|
  {
    var n := Slash(s);
    if n < |s| {
      SplitHasNoSlash(s[n + 1..]);
    }
  }

  lemma JoinCons(first: string, more: seq<string>)
    requires more != []
    ensures Join([first] + more, "/") == first + "/" + Join(more, "/")
  {
    assert ([first] + more)[1..] == more;
  }

  lemma Divided(s: string, n: nat)
    requires n < |s| && s[n] == '/'
    ensures s[..n] + "/" + s[n + 1..] == s
  {
  }

  lemma {:induction false} JoinOfSplit(s: string)
    ensures Split(s) != [] && Join(Split(s), "/") == s
    decreases |s|
  {
    var n := Slash(s);
    if n == |s| {
      assert Split(s) == [s];
    } else {
      var head, tail := s[..n], s[n + 1..];
      JoinOfSplit(tail);
      Divided(s, n);
      assert Split(s) == [head] + Split(tail);
      JoinCons(head, Split(tail));
    }
  }

  /** The pieces of a text are what splitting it gives, and no other. */
  lemma PiecesAre(text: string, pieces: seq<string>)
    ensures Pieces(text, pieces) <==> pieces == Split(text)
  {
    JoinOfSplit(text);
    SplitHasNoSlash(text);
    if Pieces(text, pieces) {
      SplitJoin(pieces);
    }
  }

  lemma {:induction false} KeptIsClean(pieces: seq<string>)
    ensures Kept(pieces) == Clean(pieces)
  {
    if pieces != [] {
      KeptIsClean(pieces[1..]);
    }
  }

  lemma UnderIs(p: Path, roots: seq<Path>)
    ensures Inside(p, roots) <==> UnderRoot(p.slashes, p.parts, roots)
    ensures Above(p, roots) <==> OnTheWay(p.slashes, p.parts, roots)
  {
    if k :| 0 <= k < |roots| && IsRelativeTo(p, roots[k]) {
      assert roots[k] in roots;
    }
    if k :| 0 <= k < |roots| && IsRelativeTo(roots[k], p) {
      assert roots[k] in roots;
    }
    if r :| r in roots && r.slashes == p.slashes && r.parts <= p.parts {
      var k :| 0 <= k < |roots| && roots[k] == r;
      assert IsRelativeTo(p, roots[k]);
    }
    if r :| r in roots && r.slashes == p.slashes && p.parts <= r.parts {
      var k :| 0 <= k < |roots| && roots[k] == r;
      assert IsRelativeTo(roots[k], p);
    }
  }

  lemma {:induction false} NoneMatch(items: seq<Item>, name: string)
    ensures Matching(items, name) == [] <==> forall i :: 0 <= i < |items| ==> items[i].name != name
  {
    if items != [] {
      NoneMatch(items[1..], name);
      assert items == [items[0]] + items[1..];
    }
  }

  lemma RecordedFirst(items: seq<Item>, name: string, target: string)
    requires items != [] && items[0].name == name
    ensures RecordedTarget(items, name) == Some(target) <==> Records(items, name, target)
  {
    var more := items[1..];
    NoneMatch(more, name);
    assert Matching(items, name) == [items[0]] + Matching(more, name);
    if RecordedTarget(items, name) == Some(target) {
      assert items[0] == Item(name, Symlink, target);
      assert forall j :: 0 <= j < |more| ==> items[j + 1] == more[j];
    }
    if Records(items, name, target) {
      forall j | 0 <= j < |more| ensures more[j].name != name {
        assert items[j + 1] == more[j];
      }
    }
  }

  lemma RecordedLater(items: seq<Item>, name: string, target: string)
    requires items != [] && items[0].name != name
    ensures Records(items, name, target) <==> Records(items[1..], name, target)
  {
    var more := items[1..];
    if Records(items, name, target) {
      var i :| 0 <= i < |items| && items[i] == Item(name, Symlink, target) &&
        forall j :: 0 <= j < |items| && items[j].name == name ==> j == i;
      assert more[i - 1] == Item(name, Symlink, target);
      forall j | 0 <= j < |more| && more[j].name == name ensures j == i - 1 {
        assert items[j + 1].name == name;
      }
    }
    if Records(more, name, target) {
      var i :| 0 <= i < |more| && more[i] == Item(name, Symlink, target) &&
        forall j :: 0 <= j < |more| && more[j].name == name ==> j == i;
      assert items[i + 1] == Item(name, Symlink, target);
      forall j | 0 <= j < |items| && items[j].name == name ensures j == i + 1 {
        assert more[j - 1].name == name;
      }
    }
  }

  lemma {:induction false} RecordedIs(items: seq<Item>, name: string, target: string)
    ensures RecordedTarget(items, name) == Some(target) <==> Records(items, name, target)
  {
    if items != [] {
      if items[0].name == name {
        RecordedFirst(items, name, target);
      } else {
        RecordedLater(items, name, target);
        RecordedIs(items[1..], name, target);
      }
    }
  }

  lemma SafeFromIs(p: Path, target: string, roots: seq<Path>)
    ensures SafeTarget(target) && Inside(LinkDestination(p, target), roots) <==>
            SafeFrom(target, p.slashes, Parent(p).parts, roots)
  {
    var pieces := Split(target);
    KeptIsClean(pieces);
    CleanKeeps(pieces);
    UnderIs(LinkDestination(p, target), roots);
    PiecesAre(target, pieces);
    if other :| Pieces(target, other) {
      PiecesAre(target, other);
    }
    forall other | Pieces(target, other) ensures other == pieces {
      PiecesAre(target, other);
    }
  }

  lemma LinkIs(p: Path, roots: seq<Path>, trees: Trees)
    ensures GoodLink(p, roots, trees) <==> LeadsInside(p.slashes, p.parts, roots, trees)
  {
    if Parent(p) in trees {
      var items := trees[Parent(p)];
      forall target ensures RecordedTarget(items, Name(p)) == Some(target) <==> Records(items, Name(p), target) {
        RecordedIs(items, Name(p), target);
      }
      forall target ensures SafeTarget(target) && Inside(LinkDestination(p, target), roots) <==>
                            SafeFrom(target, p.slashes, Parent(p).parts, roots) {
        SafeFromIs(p, target, roots);
      }
    }
  }

  lemma AllowedIs(node: Node, roots: seq<Path>, trees: Trees)
    ensures GoodNode(node, roots, trees) <==> Allowed(node, PathOf(node).slashes, PathOf(node).parts, roots, trees)
    ensures GoodNode(node, roots, trees) <==> IsAllowed(node, roots, trees)
  {
    var p := PathOf(node);
    SafeIsSpelled(node);
    UnderIs(p, roots);
    LinkIs(p, roots, trees);
    if slashes: nat, names :| Allowed(node, slashes, names, roots, trees) {
      SpellsReads(node.raw, slashes, names);
    }
  }

  lemma BelowIs(a: Node, b: Node)
    requires SafePath(a) && SafePath(b)
    ensures IsRelativeTo(PathOf(a), PathOf(b)) <==> AtOrBelow(a.raw, b.raw)
    ensures PathOf(a) == PathOf(b) <==> a.raw == b.raw
  {
    SafeIsSpelled(a);
    SafeIsSpelled(b);
    if slashes: nat, p, q :| Spells(a.raw, slashes, p) && Spells(b.raw, slashes, q) && q <= p {
      SpellsReads(a.raw, slashes, p);
      SpellsReads(b.raw, slashes, q);
    }
  }

  lemma ApartIs(a: Node, b: Node, roots: seq<Path>, trees: Trees)
    requires GoodNode(a, roots, trees) && GoodNode(b, roots, trees)
    ensures Apart(a, b) <==> PathOf(a) != PathOf(b) && !Below(a, b)
  {
    BelowIs(a, b);
  }

  /** Exactly the listings in order are accepted. */
  lemma InOrderIff(roots: seq<Path>, nodes: seq<Node>, trees: Trees)
    ensures Accepted(roots, nodes, trees) <==> InOrder(roots, nodes, trees)
  {
    forall i | 0 <= i < |nodes| ensures GoodNode(nodes[i], roots, trees) <==> IsAllowed(nodes[i], roots, trees) {
      AllowedIs(nodes[i], roots, trees);
    }
    if forall i :: 0 <= i < |nodes| ==> GoodNode(nodes[i], roots, trees) {
      forall i, j | 0 <= i < |nodes| && 0 <= j < |nodes|
        ensures Apart(nodes[i], nodes[j]) <==> PathOf(nodes[i]) != PathOf(nodes[j]) && !Below(nodes[i], nodes[j])
      {
        ApartIs(nodes[i], nodes[j], roots, trees);
      }
    }
  }

  /**
   * An honest listing of files and directories is accepted: distinct paths of plain names, none of them reserved, each
   * at or below a root or a directory on the way to one.
   */
  lemma HonestListingIsAccepted(roots: seq<Path>, nodes: seq<Node>, trees: Trees, slashes: seq<nat>,
                                names: seq<seq<string>>)
    requires |slashes| == |names| == |nodes|
    requires forall i :: 0 <= i < |nodes| ==> Spells(nodes[i].raw, slashes[i], names[i])
    requires forall i :: 0 <= i < |nodes| && names[i] != [] ==>
               names[i][0] !in {"prepared", "RECOVERY.json", "RESTORE_INCOMPLETE"}
    requires forall i :: 0 <= i < |nodes| ==>
               || (nodes[i].kind in {File, Dir} && UnderRoot(slashes[i], names[i], roots))
               || (nodes[i].kind == Dir && OnTheWay(slashes[i], names[i], roots))
    requires forall i, j :: 0 <= i < j < |nodes| ==> nodes[i].raw != nodes[j].raw
    ensures Accepted(roots, nodes, trees)
  {
    forall i | 0 <= i < |nodes| ensures IsAllowed(nodes[i], roots, trees) {
      assert Allowed(nodes[i], slashes[i], names[i], roots, trees);
    }
    assert forall i, j :: 0 <= i < |nodes| && 0 <= j < |nodes| && i != j ==> Apart(nodes[i], nodes[j]);
    InOrderIff(roots, nodes, trees);
  }

  /**
   * One node is enough to refuse the whole listing: a special file, a reserved name, a path beside the roots, or a file
   * or symlink above them.
   */
  lemma OneBadNodeRefuses(roots: seq<Path>, nodes: seq<Node>, trees: Trees, node: Node, slashes: nat,
                          names: seq<string>)
    requires node in nodes && Spells(node.raw, slashes, names)
    requires || node.kind == Special
             || (names != [] && names[0] in {"prepared", "RECOVERY.json", "RESTORE_INCOMPLETE"})
             || (!UnderRoot(slashes, names, roots) && (node.kind != Dir || !OnTheWay(slashes, names, roots)))
    ensures !Accepted(roots, nodes, trees)
  {
    SpellsReads(node.raw, slashes, names);
    InOrderIff(roots, nodes, trees);
    var i :| 0 <= i < |nodes| && nodes[i] == node;
    if Accepted(roots, nodes, trees) {
      assert IsAllowed(nodes[i], roots, trees);
      var s: nat, p :| Allowed(nodes[i], s, p, roots, trees);
      SpellsReads(node.raw, s, p);
    }
  }

  /** So does a text that does not spell an absolute path as it is written: relative, doubled or final slashes, `..`. */
  lemma NoPathRefuses(roots: seq<Path>, nodes: seq<Node>, trees: Trees, node: Node)
    requires node in nodes && forall slashes: nat, names :: !Spells(node.raw, slashes, names)
    ensures !Accepted(roots, nodes, trees)
  {
    InOrderIff(roots, nodes, trees);
    var i :| 0 <= i < |nodes| && nodes[i] == node;
  }

  // ----- the loop ------------------------------------------------------------------------------

  /** The checks on one symlink, filling the cache of directory metadata. */
  method CheckLink(p: Path, roots: seq<Path>, trees: Trees, cache: Trees) returns (fault: Option<Fault>, filled: Trees)
    requires forall d :: d in cache ==> d in trees && cache[d] == trees[d]
    ensures forall d :: d in filled ==> d in trees && filled[d] == trees[d]
    ensures fault.None? <==> GoodLink(p, roots, trees)
    ensures fault.None? <==> LeadsInside(p.slashes, p.parts, roots, trees)
  {
    LinkIs(p, roots, trees);
    filled := cache;
    if Parent(p) !in filled {
      if Parent(p) !in trees {
        return Some(NoMetadata), filled;
      }
      filled := filled[Parent(p) := trees[Parent(p)]];
    }
    var matching := Matching(filled[Parent(p)], Name(p));
    if |matching| != 1 || matching[0].kind != Symlink {
      return Some(BadLink), filled;
    }
    var target := matching[0].target;
    if !SafeTarget(target) {
      return Some(UpwardLink), filled;
    }
    fault := if Inside(LinkDestination(p, target), roots) then None else Some(EscapingLink);
  }

  /** The checks on one node's coverage and kind. */
  method CheckKind(node: Node, roots: seq<Path>, trees: Trees, cache: Trees)
    returns (fault: Option<Fault>, filled: Trees)
    requires forall d :: d in cache ==> d in trees && cache[d] == trees[d]
    ensures forall d :: d in filled ==> d in trees && filled[d] == trees[d]
    ensures SafePath(node) && FreeName(PathOf(node)) ==> (fault.None? <==> GoodNode(node, roots, trees))
  {
    filled := cache;
    if !Covered(node, roots) {
      return Some(Outside), filled;
    }
    match node.kind
    case Symlink => fault, filled := CheckLink(PathOf(node), roots, trees, filled);
    case Special => fault := Some(SpecialFile);
    case _ => fault := None;
  }

  /** All checks on one node, with the paths seen before it. */
  method CheckNode(node: Node, paths: set<Path>, roots: seq<Path>, trees: Trees, cache: Trees)
    returns (fault: Option<Fault>, filled: Trees)
    requires forall d :: d in cache ==> d in trees && cache[d] == trees[d]
    ensures forall d :: d in filled ==> d in trees && filled[d] == trees[d]
    ensures fault.None? <==> PathOf(node) !in paths && GoodNode(node, roots, trees)
  {
    filled := cache;
    if !SafePath(node) {
      return Some(UnsafePath), filled;
    }
    if !FreeName(PathOf(node)) {
      return Some(Reserved), filled;
    }
    if PathOf(node) in paths {
      return Some(Conflict), filled;
    }
    fault, filled := CheckKind(node, roots, trees, filled);
  }

  /**
   * The loop of the check, adding to `paths`, `links` and the cache of directory metadata as it goes.
   * `trees` answers each `restic cat tree`.
   */
  method CheckAll(roots: seq<Path>, nodes: seq<Node>, trees: Trees) returns (fault: Option<Fault>)
    ensures fault.None? <==> Accepted(roots, nodes, trees)
  {
    var paths: set<Path>, links: set<Path>, cache: Trees := {}, {}, map[];
    var k := 0;
    while k < |nodes|
      invariant 0 <= k <= |nodes|
      invariant paths == PathsOf(nodes[..k]) && links == LinkPaths(nodes[..k])
      invariant AllGood(nodes, k, roots, trees) && Distinct(nodes[..k])
      invariant forall d :: d in cache ==> d in trees && cache[d] == trees[d]
    {
      var node := nodes[k];
      fault, cache := CheckNode(node, paths, roots, trees, cache);
      if fault.Some? {
        Refused(nodes, k, roots, trees);
        return;
      }
      OneMore(nodes, k);
      paths := paths + {PathOf(node)};
      if node.kind == Symlink {
        links := links + {PathOf(node)};
      }
      k := k + 1;
    }
    assert nodes[..k] == nodes;
    fault := if exists p, l :: p in paths && l in links && p != l && IsRelativeTo(p, l) then Some(ThroughLink)
        else None;
    AcceptedParts(nodes, roots, trees);
    ThroughLinks(nodes, paths, links);
  }

  /** `validate_tree`: exactly the listings in order pass. */
  method ValidateTree(roots: seq<Path>, nodes: seq<Node>, trees: Trees) returns (fault: Option<Fault>)
    ensures fault.None? <==> Accepted(roots, nodes, trees)
    ensures fault.None? <==> InOrder(roots, nodes, trees)
  {
    InOrderIff(roots, nodes, trees);
    fault := CheckAll(roots, nodes, trees);
  }

  predicate AllGood(nodes: seq<Node>, k: nat, roots: seq<Path>, trees: Trees)
    requires k <= |nodes|
  {
    forall i :: 0 <= i < k ==> GoodNode(nodes[i], roots, trees)
  }

  lemma Refused(nodes: seq<Node>, k: nat, roots: seq<Path>, trees: Trees)
    requires k < |nodes| && (PathOf(nodes[k]) in PathsOf(nodes[..k]) || !GoodNode(nodes[k], roots, trees))
    ensures !Accepted(roots, nodes, trees)
  {
    if PathOf(nodes[k]) in PathsOf(nodes[..k]) {
      RepeatedPath(nodes, k, roots, trees);
    }
  }

  lemma AcceptedParts(nodes: seq<Node>, roots: seq<Path>, trees: Trees)
    ensures Accepted(roots, nodes, trees) <==>
              AllGood(nodes, |nodes|, roots, trees) && Distinct(nodes) &&
              !exists i, j :: 0 <= i < |nodes| && 0 <= j < |nodes| && i != j && Below(nodes[i], nodes[j])
  {
  }

  lemma OneMore(nodes: seq<Node>, k: nat)
    requires k < |nodes|
    ensures PathsOf(nodes[..k + 1]) == PathsOf(nodes[..k]) + {PathOf(nodes[k])}
    ensures LinkPaths(nodes[..k + 1]) == LinkPaths(nodes[..k]) +
            if nodes[k].kind == Symlink then {PathOf(nodes[k])} else {}
    ensures Distinct(nodes[..k]) && PathOf(nodes[k]) !in PathsOf(nodes[..k]) ==> Distinct(nodes[..k + 1])
  {
    assert nodes[..k + 1] == nodes[..k] + [nodes[k]];
    forall i | 0 <= i < k ensures PathOf(nodes[i]) in PathsOf(nodes[..k]) {
      assert nodes[..k][i] == nodes[i];
    }
  }

  function PathsOf(nodes: seq<Node>): set<Path> {
    set node | node in nodes :: PathOf(node)
  }

  function LinkPaths(nodes: seq<Node>): set<Path> {
    set node | node in nodes && node.kind == Symlink :: PathOf(node)
  }

  predicate Distinct(nodes: seq<Node>) {
    forall i, j :: 0 <= i < |nodes| && 0 <= j < |nodes| && i != j ==> PathOf(nodes[i]) != PathOf(nodes[j])
  }

  lemma RepeatedPath(nodes: seq<Node>, k: nat, roots: seq<Path>, trees: Trees)
    requires k < |nodes| && PathOf(nodes[k]) in PathsOf(nodes[..k])
    ensures !Accepted(roots, nodes, trees)
  {
    var node :| node in nodes[..k] && PathOf(node) == PathOf(nodes[k]);
    var i :| 0 <= i < k && nodes[i] == node;
  }

  lemma ThroughLinks(nodes: seq<Node>, paths: set<Path>, links: set<Path>)
    requires paths == PathsOf(nodes) && links == LinkPaths(nodes) && Distinct(nodes)
    ensures (exists p, l :: p in paths && l in links && p != l && IsRelativeTo(p, l)) <==>
            (exists i, j :: 0 <= i < |nodes| && 0 <= j < |nodes| && i != j && Below(nodes[i], nodes[j]))
  {
    if p, l :| p in paths && l in links && p != l && IsRelativeTo(p, l) {
      var a :| a in nodes && PathOf(a) == p;
      var b :| b in nodes && b.kind == Symlink && PathOf(b) == l;
      var i :| 0 <= i < |nodes| && nodes[i] == a;
      var j :| 0 <= j < |nodes| && nodes[j] == b;
      assert Below(nodes[i], nodes[j]);
    }
    if i, j :| 0 <= i < |nodes| && 0 <= j < |nodes| && i != j && Below(nodes[i], nodes[j]) {
      assert PathOf(nodes[i]) in paths && PathOf(nodes[j]) in links;
    }
  }
}
