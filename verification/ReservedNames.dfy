/** Exactly which roots keep the three reserved names free in every restore (`RESTORE_RESERVED` in backup.py). */
module ReservedNames {
  import opened Text
  import opened RestoreTree
  import opened Listings

  predicate FreeLocation(l: Location) {
    l != [] ==> l[0] !in RESERVED
  }

  ghost predicate KeepsFree(order: seq<Node>, trees: Trees, fuel: nat) {
    forall l :: l in Materialise(map[], order, trees, fuel) ==> FreeLocation(l)
  }

  /** Whatever is listed and accepted under these roots, in whatever order it is created: the names stay free. */
  ghost predicate AlwaysFree(roots: seq<Path>) {
    forall nodes, trees, order, fuel :: Accepted(roots, nodes, trees) && Permutes(order, nodes) ==>
        KeepsFree(order, trees, fuel)
  }

  // ----- the condition -------------------------------------------------------------------------

  /** A root under these slashes admits a symlink of this name at the top. */
  predicate AdmitsLink(r: Path, kind: nat, name: string) {
    r.slashes == kind && (r.parts == [] || r.parts == [name])
  }

  /** One admits something below this name. */
  predicate AdmitsBelow(r: Path, kind: nat, name: string) {
    r.slashes == kind && (r.parts == [] || r.parts[0] == name)
  }

  /** One admits a symlink target at or below a reserved name. */
  predicate AdmitsReserved(r: Path, kind: nat) {
    r.slashes == kind && (r.parts == [] || r.parts[0] in RESERVED)
  }

  predicate HasLink(roots: seq<Path>, kind: nat, name: string) {
    exists r :: r in roots && AdmitsLink(r, kind, name)
  }

  predicate HasBelow(roots: seq<Path>, kind: nat, name: string) {
    exists r :: r in roots && AdmitsBelow(r, kind, name)
  }

  predicate HasReserved(roots: seq<Path>, kind: nat) {
    exists r :: r in roots && AdmitsReserved(r, kind)
  }

  /**
   * Roots under one kind of slashes admit a link from this name to a reserved one; under the other, something below it.
   */
  predicate LeadsAway(roots: seq<Path>, x: nat, y: nat, name: string) {
    x != y && name !in RESERVED && PathName(name) && HasLink(roots, x, name) && HasReserved(roots, x) &&
        HasBelow(roots, y, name)
  }

  ghost predicate Treacherous(roots: seq<Path>) {
    exists x, y, name :: LeadsAway(roots, x, y, name)
  }

  /** Roots as a manifest can declare them: absolute paths without upward or control components. */
  predicate Declared(roots: seq<Path>) {
    forall r :: r in roots ==> (r.slashes == 1 || r.slashes == 2) && forall c :: c in r.parts ==>
        PathName(c) && '\0' !in c
  }

  // ----- otherwise the names stay free ---------------------------------------------------------------

  /** What has been created: nothing at a reserved name, symlinks at the top at their own paths, none leads up. */
  ghost predicate Tame(placed: Placed, nodes: seq<Node>, trees: Trees) {
    forall l :: l in placed ==> TameAt(l, placed[l], nodes, trees)
  }

  predicate TameAt(l: Location, node: Node, nodes: seq<Node>, trees: Trees) {
    && FreeLocation(l) && node in nodes && (|l| == 1 ==> PathOf(node).parts == l)
    && (l != [] && node.kind == Symlink ==> !LinkOf(node, trees).absolute && ".." !in LinkOf(node, trees).components)
  }

  /** No symlink of these slashes stands at the top under this name. */
  predicate NoLinkOf(placed: Placed, kind: nat, name: string) {
    [name] in placed && placed[[name]].kind == Symlink ==> PathOf(placed[[name]]).slashes != kind
  }

  /**
   * A lookup on its way: bound for a name that is not reserved, one that roots of this kind reach into; and either
   * those roots admit no reserved target, or no link of this kind is ahead.
   */
  ghost predicate Bound(w: Walk, kind: nat, placed: Placed, roots: seq<Path>) {
    && ".." !in w.rest && Ahead(w) != [] && FreeLocation(Ahead(w)) && HasBelow(roots, kind, Ahead(w)[0])
    && (HasReserved(roots, kind) ==> NoLinkOf(placed, kind, Ahead(w)[0]))
  }

  lemma AcceptedLink(node: Node, nodes: seq<Node>, roots: seq<Path>, trees: Trees)
    requires Accepted(roots, nodes, trees) && node in nodes && node.kind == Symlink && |PathOf(node).parts| == 1
    ensures HasLink(roots, PathOf(node).slashes, PathOf(node).parts[0]) && PathName(PathOf(node).parts[0])
    ensures var t := Clean(LinkOf(node, trees).components);
            exists r :: r in roots && r.slashes == PathOf(node).slashes && r.parts <= t
  {
    var i :| 0 <= i < |nodes| && nodes[i] == node;
    assert GoodNode(nodes[i], roots, trees);
    var p := PathOf(node);
    PartsAreClean(roots, node, trees);
    SplitHasNoSlash(node.raw);
    CleanKeeps(Split(node.raw));
    assert p.parts[0] in p.parts;
    var k :| 0 <= k < |roots| && IsRelativeTo(p, roots[k]);
    assert roots[k] in roots && AdmitsLink(roots[k], p.slashes, p.parts[0]);
    var t := Target(p, trees).value;
    var m :| 0 <= m < |roots| && IsRelativeTo(LinkDestination(p, t), roots[m]);
    assert roots[m] in roots && LinkDestination(p, t).parts == Clean(Split(t));
  }

  /** Following a symlink at the top: its kind of roots admits no reserved target, so it leads to a free name. */
  lemma ThroughTopLink(w: Walk, kind: nat, placed: Placed, nodes: seq<Node>, roots: seq<Path>, trees: Trees)
    returns (x: nat)
    requires Accepted(roots, nodes, trees) && Tame(placed, nodes, trees) && Bound(w, kind, placed, roots) &&
             !Treacherous(roots)
    requires w.at == [] && w.rest != [] && !Dropped(w.rest[0]) && [w.rest[0]] in PlacedLinks(placed, trees)
    ensures Bound(Advance(w, PlacedLinks(placed, trees)), x, placed, roots)
  {
    var c, more := w.rest[0], w.rest[1..];
    var node := placed[[c]];
    var t := Clean(LinkOf(node, trees).components);
    assert TameAt([c], node, nodes, trees) && Ahead(w)[0] == c;
    x := PathOf(node).slashes;
    AcceptedLink(node, nodes, roots, trees);
    assert !LeadsAway(roots, x, kind, c) && (x == kind ==> !NoLinkOf(placed, kind, c));
    assert !HasReserved(roots, x);
    var r :| r in roots && r.slashes == x && r.parts <= t;
    assert !AdmitsReserved(r, x);
    assert AdmitsBelow(r, x, t[0]);
    CleanAppend(LinkOf(node, trees).components, more);
    assert [] + [c] == [c];
    assert Ahead(Advance(w, PlacedLinks(placed, trees)))[0] == t[0];
  }

  lemma AdvanceStaysBound(w: Walk, kind: nat, placed: Placed, nodes: seq<Node>, roots: seq<Path>, trees: Trees)
    returns (x: nat)
    requires Accepted(roots, nodes, trees) && Tame(placed, nodes, trees) && Bound(w, kind, placed, roots) &&
             !Treacherous(roots)
    requires w.rest != []
    ensures Bound(Advance(w, PlacedLinks(placed, trees)), x, placed, roots)
  {
    var c, more, links := w.rest[0], w.rest[1..], PlacedLinks(placed, trees);
    var here := w.at + [c];
    x := kind;
    if !Dropped(c) && here in links {
      if w.at == [] {
        assert here == [c];
        x := ThroughTopLink(w, kind, placed, nodes, roots, trees);
      } else {
        assert TameAt(here, placed[here], nodes, trees);
        CleanAppend(links[here].components, more);
      }
    } else if !Dropped(c) {
      Regroup(w.at, [c], Clean(more), Clean(w.rest));
    }
  }

  lemma {:induction false} ResolutionStaysBound(w: Walk, kind: nat, placed: Placed, nodes: seq<Node>, roots: seq<Path>,
                                                trees: Trees, fuel: nat)
    requires Accepted(roots, nodes, trees) && Tame(placed, nodes, trees) && Bound(w, kind, placed, roots) &&
             !Treacherous(roots)
    ensures exists x :: Bound(Resolve(w, PlacedLinks(placed, trees), fuel), x, placed, roots)
    decreases fuel
  {
    if fuel > 0 && w.rest != [] {
      var x := AdvanceStaysBound(w, kind, placed, nodes, roots, trees);
      var next, links := Advance(w, PlacedLinks(placed, trees)), PlacedLinks(placed, trees);
      ResolutionStaysBound(next, x, placed, nodes, roots, trees, fuel - 1);
      assert Resolve(w, links, fuel) == Resolve(next, links, fuel - 1);
    } else {
      assert Bound(Resolve(w, PlacedLinks(placed, trees), fuel), kind, placed, roots);
    }
  }

  lemma CoveredReaches(node: Node, roots: seq<Path>)
    requires Covered(node, roots) && PathOf(node).parts != []
    ensures HasBelow(roots, PathOf(node).slashes, PathOf(node).parts[0])
  {
    var p := PathOf(node);
    if Inside(p, roots) {
      var k :| 0 <= k < |roots| && IsRelativeTo(p, roots[k]);
      assert roots[k] in roots && AdmitsBelow(roots[k], p.slashes, p.parts[0]);
    } else {
      var k :| 0 <= k < |roots| && IsRelativeTo(roots[k], p);
      assert roots[k] in roots && AdmitsBelow(roots[k], p.slashes, p.parts[0]);
    }
  }

  /** A listed node has no symlink of its own kind of slashes above it. */
  lemma NoLinkAbove(node: Node, nodes: seq<Node>, placed: Placed, roots: seq<Path>, trees: Trees)
    requires Accepted(roots, nodes, trees) && Tame(placed, nodes, trees) && node in nodes && |PathOf(node).parts| >= 2
    ensures NoLinkOf(placed, PathOf(node).slashes, PathOf(node).parts[0])
  {
    var p := PathOf(node);
    var l := [p.parts[0]];
    if l in placed && placed[l].kind == Symlink {
      assert TameAt(l, placed[l], nodes, trees);
      var i :| 0 <= i < |nodes| && nodes[i] == node;
      var j :| 0 <= j < |nodes| && nodes[j] == placed[l];
      assert i != j && !Below(nodes[i], nodes[j]) && PathOf(nodes[j]).parts <= p.parts;
    }
  }

  lemma LandsFree(node: Node, nodes: seq<Node>, placed: Placed, roots: seq<Path>, trees: Trees, fuel: nat)
    requires Accepted(roots, nodes, trees) && Tame(placed, nodes, trees) && !Treacherous(roots)
    requires node in nodes && |PathOf(node).parts| >= 2
    ensures var at := Landing(placed, node, trees, fuel);
            at.Some? ==> |at.value| >= 2 && FreeLocation(at.value)
  {
    var p, up := PathOf(node), Parent(PathOf(node)).parts;
    var i :| 0 <= i < |nodes| && nodes[i] == node;
    assert GoodNode(nodes[i], roots, trees);
    PartsAreClean(roots, node, trees);
    CleanOfClean(up);
    assert Ahead(Walk([], up)) == up;
    CoveredReaches(node, roots);
    NoLinkAbove(node, nodes, placed, roots, trees);
    ResolutionStaysBound(Walk([], up), p.slashes, placed, nodes, roots, trees, fuel);
    var w := Resolve(Walk([], up), PlacedLinks(placed, trees), fuel);
    assert w.rest == [] ==> Ahead(w) == w.at;
  }

  lemma CreateStaysTame(node: Node, nodes: seq<Node>, placed: Placed, roots: seq<Path>, trees: Trees, fuel: nat)
    requires Accepted(roots, nodes, trees) && Tame(placed, nodes, trees) && !Treacherous(roots) && node in nodes
    ensures Tame(Create(placed, node, trees, fuel), nodes, trees)
  {
    var at, p := Landing(placed, node, trees, fuel), PathOf(node);
    if at.Some? {
      var i :| 0 <= i < |nodes| && nodes[i] == node;
      assert GoodNode(nodes[i], roots, trees);
      if |p.parts| >= 2 {
        LandsFree(node, nodes, placed, roots, trees, fuel);
      } else if p.parts != [] {
        assert p.parts[..0] == [] && [] + [Name(p)] == p.parts;
      }
      GoodLinkIsRelative(node, roots, trees);
      assert TameAt(at.value, node, nodes, trees);
    }
  }

  lemma GoodLinkIsRelative(node: Node, roots: seq<Path>, trees: Trees)
    requires GoodNode(node, roots, trees)
    ensures node.kind == Symlink ==> !LinkOf(node, trees).absolute && ".." !in LinkOf(node, trees).components
  {
    if node.kind == Symlink {
      CleanKeeps(Split(Target(PathOf(node), trees).value));
    }
  }

  lemma {:induction false} MaterialiseStaysTame(order: seq<Node>, nodes: seq<Node>, placed: Placed, roots: seq<Path>,
                                                trees: Trees, fuel: nat)
    requires Accepted(roots, nodes, trees) && Tame(placed, nodes, trees) && !Treacherous(roots)
    requires forall i :: 0 <= i < |order| ==> order[i] in nodes
    ensures Tame(Materialise(placed, order, trees, fuel), nodes, trees)
    decreases order
  {
    if order != [] {
      CreateStaysTame(order[0], nodes, placed, roots, trees, fuel);
      MaterialiseStaysTame(order[1..], nodes, Create(placed, order[0], trees, fuel), roots, trees, fuel);
    }
  }

  lemma HarmlessRootsKeepFree(roots: seq<Path>, nodes: seq<Node>, trees: Trees, order: seq<Node>, fuel: nat)
    requires Accepted(roots, nodes, trees) && Permutes(order, nodes) && !Treacherous(roots)
    ensures KeepsFree(order, trees, fuel)
  {
    assert forall i :: 0 <= i < |order| ==> order[i] in order;
    MaterialiseStaysTame(order, nodes, map[], roots, trees, fuel);
    var final := Materialise(map[], order, trees, fuel);
    forall l | l in final ensures FreeLocation(l) {
      assert TameAt(l, final[l], nodes, trees);
    }
  }

  // ----- and then they do not ---------------------------------------------------------------------------

  /** A symlink `name` at the top, to a reserved name or below. */
  function TopLink(x: nat, name: string): Node {
    Node(Format(Path(x, [name])), Symlink)
  }

  function TopTrees(x: nat, name: string, target: seq<string>): Trees {
    map[Path(x, []) := [Item(name, Symlink, JoinParts(target))]]
  }

  lemma {:induction false} JoinHasNoNul(parts: seq<string>)
    requires forall c :: c in parts ==> '\0' !in c
    ensures '\0' !in JoinParts(parts)
  {
    if |parts| > 1 {
      JoinHasNoNul(parts[1..]);
    }
  }

  lemma TopLinkIsGood(x: nat, name: string, target: seq<string>, a: Path, b: Path, roots: seq<Path>)
    requires (x == 1 || x == 2) && PathName(name) && name !in RESERVED && a in roots && AdmitsLink(a, x, name)
    requires target != [] && (forall c :: c in target ==> PathName(c) && '\0' !in c)
    requires b in roots && b.slashes == x && b.parts <= target
    ensures PathOf(TopLink(x, name)) == Path(x, [name]) && GoodNode(TopLink(x, name), roots, TopTrees(x, name, target))
    ensures LinkOf(TopLink(x, name), TopTrees(x, name, target)) == Link(false, target)
  {
    var p, items := Path(x, [name]), [Item(name, Symlink, JoinParts(target))];
    ParseFormat(p);
    ParseRelative(target);
    JoinHasNoNul(target);
    JoinStartsSome(target);
    assert items[1..] == [] && Matching(items, name) == items;
    assert [name][..0] == [] && Parent(p) == Path(x, []);
    assert RecordedTarget(items, Name(p)) == Some(JoinParts(target));
    assert IsRelativeTo(p, a);
    assert [] + target == target && IsRelativeTo(LinkDestination(p, JoinParts(target)), b);
  }

  lemma JoinStartsSome(parts: seq<string>)
    requires parts != [] && forall c :: c in parts ==> PathName(c)
    ensures JoinParts(parts) != ""
  {
    assert parts[0] in parts;
    JoinStarts(parts);
  }

  /** A directory below it, under the other kind of slashes. */
  function Under(y: nat, name: string, last: string): Node {
    Node(Format(Path(y, [name, last])), Dir)
  }

  lemma UnderIsGood(y: nat, name: string, last: string, r: Path, roots: seq<Path>, trees: Trees)
    requires (y == 1 || y == 2) && PathName(name) && PathName(last) && name !in RESERVED && r in roots &&
             AdmitsBelow(r, y, name)
    requires |r.parts| >= 2 ==> r.parts[1] == last
    ensures PathOf(Under(y, name, last)) == Path(y, [name, last]) && GoodNode(Under(y, name, last), roots, trees)
  {
    var p := Path(y, [name, last]);
    ParseFormat(p);
    if |r.parts| >= 2 {
      assert p.parts <= r.parts && IsRelativeTo(r, p);
    } else {
      assert r.parts <= p.parts && IsRelativeTo(p, r);
    }
  }

  lemma PairAccepted(roots: seq<Path>, link: Node, dir: Node, trees: Trees)
    requires GoodNode(link, roots, trees) && GoodNode(dir, roots, trees) && dir.kind == Dir
    requires PathOf(link).slashes != PathOf(dir).slashes
    ensures Accepted(roots, [link, dir], trees) && Permutes([link, dir], [link, dir])
  {
    assert !Below(dir, link) && !Below(link, dir) && PathOf(link) != PathOf(dir);
    assert link != dir;
  }

  /** From the link on, the lookup goes down to the target. */
  lemma WalkThrough(links: Links, name: string, target: seq<string>)
    requires PathName(name) && target != [] && target[0] != name && (forall c :: c in target ==> PathName(c))
    requires links == map[[name] := Link(false, target)]
    ensures Resolve(Walk([], [name]), links, |target| + 1) == Walk(target, [])
  {
    forall k | 0 < k <= |target| ensures [] + target[..k] !in links {
      assert ([] + target[..k])[0] == target[0];
    }
    PlainWalk([], target, links, |target|);
    assert [] + [name] == [name] && [name][1..] == [] && target + [] == target && [] + target == target;
    assert Advance(Walk([], [name]), links) == Walk([], target);
    Step(Walk([], [name]), links, Walk([], target), |target|, Walk(target, []));
  }

  lemma LedAway(link: Node, dir: Node, name: string, last: string, target: seq<string>, trees: Trees, fuel: nat)
    requires PathOf(link).parts == [name] && PathOf(dir).parts == [name, last] && link.kind == Symlink
    requires PathName(name) && target != [] && target[0] != name && (forall c :: c in target ==> PathName(c))
    requires LinkOf(link, trees) == Link(false, target)
    requires fuel == |target| + 1
    ensures target + [last] in Materialise(map[], [link, dir], trees, fuel)
  {
    var first := map[[name] := link];
    LandsBelow(first, link, dir, name, last, target, trees);
    CreatedAtTop(link, name, trees, fuel);
    TwoCreated(link, dir, first, target + [last], trees, fuel);
  }

  lemma TwoCreated(link: Node, dir: Node, first: Placed, l: Location, trees: Trees, fuel: nat)
    requires Create(map[], link, trees, fuel) == first && Landing(first, dir, trees, fuel) == Some(l)
    ensures l in Materialise(map[], [link, dir], trees, fuel)
  {
    MaterialiseTwo(map[], link, dir, [], trees, fuel);
    assert [link, dir] + [] == [link, dir];
  }

  lemma LandsBelow(first: Placed, link: Node, dir: Node, name: string, last: string, target: seq<string>, trees: Trees)
    requires first == map[[name] := link] && PathOf(dir).parts == [name, last] && link.kind == Symlink
    requires PathName(name) && target != [] && target[0] != name && (forall c :: c in target ==> PathName(c))
    requires LinkOf(link, trees) == Link(false, target)
    ensures Landing(first, dir, trees, |target| + 1) == Some(target + [last])
  {
    WalkThrough(PlacedLinks(first, trees), name, target);
    assert [name, last][..1] == [name];
  }

  lemma CreatedAtTop(node: Node, name: string, trees: Trees, fuel: nat)
    requires PathOf(node).parts == [name]
    ensures Create(map[], node, trees, fuel) == map[[name] := node]
  {
    assert [name][..0] == [] && [] + [name] == [name];
  }

  lemma ReservedIsName(name: string)
    requires name in RESERVED
    ensures PathName(name) && '\0' !in name
  {
    assert |"prepared"| == 8 && |"RECOVERY.json"| == 13 && |"RESTORE_INCOMPLETE"| == 18 && |".."| == 2;
  }

  /** The target: the reserved root itself, or under the filesystem root any reserved name. */
  function TargetIn(b: Path): seq<string> {
    if b.parts == [] then ["prepared"] else b.parts
  }

  lemma TargetIsReserved(b: Path, x: nat)
    requires AdmitsReserved(b, x) && forall c :: c in b.parts ==> PathName(c) && '\0' !in c
    ensures TargetIn(b) != [] && TargetIn(b)[0] in RESERVED && b.parts <= TargetIn(b)
    ensures forall c :: c in TargetIn(b) ==> PathName(c) && '\0' !in c
  {
    ReservedIsName("prepared");
  }

  lemma OtherName()
    ensures PathName("b")
  {
    assert |"b"| == 1 && "b"[0] == 'b';
  }

  /** Two nodes suffice: the link, and a directory below it under the other kind of slashes. */
  lemma PairFails(roots: seq<Path>, a: Path, b: Path, r: Path, x: nat, y: nat, name: string, last: string,
                  target: seq<string>)
    requires (x == 1 || x == 2) && (y == 1 || y == 2) && x != y && PathName(name) && name !in RESERVED && PathName(last)
    requires a in roots && AdmitsLink(a, x, name) && b in roots && b.slashes == x && b.parts <= target
    requires r in roots && AdmitsBelow(r, y, name) && (|r.parts| >= 2 ==> r.parts[1] == last)
    requires target != [] && target[0] in RESERVED && forall c :: c in target ==> PathName(c) && '\0' !in c
    ensures Fails(roots, [TopLink(x, name), Under(y, name, last)], TopTrees(x, name, target), |target| + 1)
  {
    var link, dir, trees := TopLink(x, name), Under(y, name, last), TopTrees(x, name, target);
    TopLinkIsGood(x, name, target, a, b, roots);
    UnderIsGood(y, name, last, r, roots, trees);
    PairOf(roots, link, dir, name, last, target, trees);
  }

  lemma PairOf(roots: seq<Path>, link: Node, dir: Node, name: string, last: string, target: seq<string>, trees: Trees)
    requires GoodNode(link, roots, trees) && GoodNode(dir, roots, trees) && link.kind == Symlink && dir.kind == Dir
    requires PathOf(link).slashes != PathOf(dir).slashes && PathOf(link).parts == [name] &&
             PathOf(dir).parts == [name, last]
    requires PathName(name) && name !in RESERVED && target != [] && target[0] in RESERVED &&
             forall c :: c in target ==> PathName(c)
    requires LinkOf(link, trees) == Link(false, target)
    ensures Fails(roots, [link, dir], trees, |target| + 1)
  {
    PairAccepted(roots, link, dir, trees);
    LedAway(link, dir, name, last, target, trees, |target| + 1);
    assert (target + [last])[0] == target[0];
    NotFree([link, dir], trees, |target| + 1, target + [last]);
  }

  /** An accepted listing that gets to a reserved name. */
  ghost predicate Fails(roots: seq<Path>, nodes: seq<Node>, trees: Trees, fuel: nat) {
    Accepted(roots, nodes, trees) && Permutes(nodes, nodes) && !KeepsFree(nodes, trees, fuel)
  }

  lemma TreacherousRootsFail(roots: seq<Path>, x: nat, y: nat, name: string)
    returns (nodes: seq<Node>, trees: Trees, fuel: nat)
    requires Declared(roots) && LeadsAway(roots, x, y, name)
    ensures Fails(roots, nodes, trees, fuel)
  {
    var a :| a in roots && AdmitsLink(a, x, name);
    var b :| b in roots && AdmitsReserved(b, x);
    var r :| r in roots && AdmitsBelow(r, y, name);
    var target := TargetIn(b);
    OtherName();
    TargetIsReserved(b, x);
    var last := if |r.parts| >= 2 then r.parts[1] else "b";
    PairFails(roots, a, b, r, x, y, name, last, target);
    nodes, trees, fuel := [TopLink(x, name), Under(y, name, last)], TopTrees(x, name, target), |target| + 1;
  }

  lemma NotFree(order: seq<Node>, trees: Trees, fuel: nat, l: Location)
    requires l in Materialise(map[], order, trees, fuel) && !FreeLocation(l)
    ensures !KeepsFree(order, trees, fuel)
  {
  }

  /**
   * Exactly which roots keep the reserved names free for the prepared queue and the recovery notes, for every accepted
   * listing in every order: those without a pair of slash kinds of which one admits a symlink at the top and a reserved
   * target, and the other something below that symlink.
   */
  lemma ReservedNamesStayFreeIff(roots: seq<Path>)
    requires Declared(roots)
    ensures AlwaysFree(roots) <==> !Treacherous(roots)
  {
    if Treacherous(roots) {
      var x, y, name :| LeadsAway(roots, x, y, name);
      var nodes, trees, fuel := TreacherousRootsFail(roots, x, y, name);
      assert Accepted(roots, nodes, trees) && Permutes(nodes, nodes);
    } else {
      forall nodes, trees, order, fuel | Accepted(roots, nodes, trees) && Permutes(order, nodes)
          ensures KeepsFree(order, trees, fuel) {
        HarmlessRootsKeepFree(roots, nodes, trees, order, fuel);
      }
    }
  }

  /** Roots that a configuration can hold: neither the filesystem root nor at or below a reserved name. */
  predicate Selectable(roots: seq<Path>) {
    forall r :: r in roots ==> r.parts != [] && r.parts[0] !in RESERVED
  }

  lemma SelectableIsHarmless(roots: seq<Path>)
    requires Selectable(roots)
    ensures !Treacherous(roots)
  {
    forall x, y, name ensures !LeadsAway(roots, x, y, name) {
      assert forall r :: r in roots ==> !AdmitsReserved(r, x);
    }
  }

  /** Roots all of one kind of slashes are harmless too. */
  lemma OneKindIsHarmless(roots: seq<Path>, kind: nat)
    requires forall r :: r in roots ==> r.slashes == kind
    ensures !Treacherous(roots)
  {
  }

  /** The capsule, the filesystem root and `//a`: an accepted listing gets below a reserved name. */
  lemma ReservedNameReached() returns (nodes: seq<Node>, trees: Trees, fuel: nat)
    ensures var roots := [CAPSULE, Path(1, []), Path(2, ["a"])];
            Declared(roots) && Fails(roots, nodes, trees, fuel)
  {
    var roots := [CAPSULE, Path(1, []), Path(2, ["a"])];
    RootNames();
    assert roots[1] in roots && roots[2] in roots;
    assert AdmitsLink(roots[1], 1, "a") && AdmitsReserved(roots[1], 1) && AdmitsBelow(roots[2], 2, "a");
    nodes, trees, fuel := TreacherousRootsFail(roots, 1, 2, "a");
  }

  lemma RootNames()
    ensures PathName("a") && "a" !in RESERVED && '\0' !in "a" && PathName(CAPSULE.parts[0]) && '\0' !in CAPSULE.parts[0]
  {
    assert |"a"| == 1 && "a"[0] == 'a' && |"prepared"| == 8 && |"RECOVERY.json"| == 13 && |"RESTORE_INCOMPLETE"| == 18;
    assert |CAPSULE.parts[0]| == 23;
  }
}
