/**
 * The listing check before a staged restore (`validate_tree` in backup.py), and what it guarantees about real
 * pathname resolution and about where the listed nodes land.
 */
module RestoreTree {
  import opened Text

  // ----- PurePosixPath ---------------------------------------------------------

  /** `slashes` is 0 for a relative path and 2 for one that begins with exactly two slashes. */
  datatype Path = Path(slashes: nat, parts: seq<string>)

  function Slash(s: string): (n: nat)
    ensures n <= |s|
    ensures forall i :: 0 <= i < n ==> s[i] != '/'
    ensures n < |s| ==> s[n] == '/'
  {
    if s == "" || s[0] == '/' then 0 else 1 + Slash(s[1..])
  }

  /** `s.split("/")`. */
  function Split(s: string): seq<string>
    decreases |s|
  {
    var n := Slash(s);
    if n == |s| then [s] else [s[..n]] + Split(s[n + 1..])
  }

  predicate Dropped(part: string) {
    part == "" || part == "."
  }

  function Clean(parts: seq<string>): seq<string> {
    if parts == [] then []
    else if Dropped(parts[0]) then Clean(parts[1..])
    else [parts[0]] + Clean(parts[1..])
  }

  function Parse(s: string): Path {
    var slashes := if s == "" || s[0] != '/' then 0
                   else if |s| >= 2 && s[1] == '/' && (|s| == 2 || s[2] != '/') then 2
                   else 1;
    Path(slashes, Clean(Split(s)))
  }

  function JoinParts(parts: seq<string>): string {
    Join(parts, "/")
  }

  function Format(p: Path): string {
    if p.slashes == 0 && p.parts == [] then "."
    else if p.slashes == 2 then "//" + JoinParts(p.parts)
    else if p.slashes == 1 then "/" + JoinParts(p.parts)
    else JoinParts(p.parts)
  }

  predicate IsRelativeTo(p: Path, root: Path) {
    p.slashes == root.slashes && root.parts <= p.parts
  }

  function Parent(p: Path): Path {
    if p.parts == [] then p else p.(parts := p.parts[..|p.parts| - 1])
  }

  function Name(p: Path): string {
    if p.parts == [] then "" else p.parts[|p.parts| - 1]
  }

  // ----- the listing -------------------------------------------------------------

  datatype Kind = File | Dir | Symlink | Special

  /** One line of `restic ls --json`. */
  datatype Node = Node(raw: string, kind: Kind)

  /** One entry of `restic cat tree`. */
  datatype Item = Item(name: string, kind: Kind, target: string)

  /** Directory metadata by parent path; a missing key is metadata that could not be validated. */
  type Trees = map<Path, seq<Item>>

  datatype Fault =
    | UnsafePath | Reserved | Conflict | Outside | NoMetadata | BadLink | UpwardLink | EscapingLink | SpecialFile
    | ThroughLink

  const RESERVED := {"prepared", "RECOVERY.json", "RESTORE_INCOMPLETE"}

  function Matching(items: seq<Item>, name: string): seq<Item> {
    if items == [] then []
    else if items[0].name == name then [items[0]] + Matching(items[1..], name)
    else Matching(items[1..], name)
  }

  predicate Inside(p: Path, roots: seq<Path>) {
    exists k :: 0 <= k < |roots| && IsRelativeTo(p, roots[k])
  }

  predicate Above(p: Path, roots: seq<Path>) {
    exists k :: 0 <= k < |roots| && IsRelativeTo(roots[k], p)
  }

  function PathOf(node: Node): Path {
    Parse(node.raw)
  }

  /** The target recorded for a symlink, if its directory lists it exactly once and as a symlink. */
  function Target(p: Path, trees: Trees): Option<string> {
    if Parent(p) in trees then RecordedTarget(trees[Parent(p)], Name(p)) else None
  }

  function RecordedTarget(items: seq<Item>, name: string): Option<string> {
    var matching := Matching(items, name);
    if |matching| == 1 && matching[0].kind == Symlink then Some(matching[0].target) else None
  }

  predicate SafeTarget(target: string) {
    target != "" && '\0' !in target && target[0] != '/' && ".." !in Parse(target).parts
  }

  function LinkDestination(p: Path, target: string): Path {
    Path(p.slashes, Parent(p).parts + Parse(target).parts)
  }

  predicate SafePath(node: Node) {
    var p := PathOf(node);
    p.slashes > 0 && ".." !in p.parts && Format(p) == node.raw
  }

  predicate FreeName(p: Path) {
    p.parts != [] ==> p.parts[0] !in RESERVED
  }

  predicate Covered(node: Node, roots: seq<Path>) {
    Inside(PathOf(node), roots) || (Above(PathOf(node), roots) && node.kind == Dir)
  }

  predicate GoodLink(p: Path, roots: seq<Path>, trees: Trees) {
    match Target(p, trees)
    case None => false
    case Some(target) => SafeTarget(target) && Inside(LinkDestination(p, target), roots)
  }

  /** What the check says of one node by itself. */
  predicate GoodNode(node: Node, roots: seq<Path>, trees: Trees) {
    && SafePath(node) && FreeName(PathOf(node)) && Covered(node, roots)
    && node.kind != Special && (node.kind == Symlink ==> GoodLink(PathOf(node), roots, trees))
  }

  /** `node` would be restored through the symlink `link`. */
  predicate Below(node: Node, link: Node) {
    link.kind == Symlink && IsRelativeTo(PathOf(node), PathOf(link))
  }

  /** The accepted listings, with no order and no cache: every node good, no path twice, nothing below a symlink. */
  predicate Accepted(roots: seq<Path>, nodes: seq<Node>, trees: Trees) {
    && (forall i :: 0 <= i < |nodes| ==> GoodNode(nodes[i], roots, trees))
    && (forall i, j :: 0 <= i < |nodes| && 0 <= j < |nodes| && i != j ==>
          PathOf(nodes[i]) != PathOf(nodes[j]) && !Below(nodes[i], nodes[j]))
  }

  // ----- resolution (POSIX.1-2017 XBD section 4.13) --------------------------------

  /** A location below the restore directory. */
  type Location = seq<string>

  /** The symlinks of the restored tree: the components of each target, and whether it starts with a slash. */
  datatype Link = Link(absolute: bool, components: seq<string>)

  type Links = map<Location, Link>

  /** Where resolution stands, and the components still to be looked up. */
  datatype Walk = Walk(at: Location, rest: seq<string>)

  /** One component: `.` stays, `..` goes up but not above the root, a symlink is replaced by its target. */
  function Advance(w: Walk, links: Links): Walk
    requires w.rest != []
  {
    var c, more := w.rest[0], w.rest[1..];
    if Dropped(c) then Walk(w.at, more)
    else if c == ".." then Walk(if w.at == [] then [] else w.at[..|w.at| - 1], more)
    else if w.at + [c] in links then
      var link := links[w.at + [c]];
      Walk(if link.absolute then [] else w.at, link.components + more)
    else Walk(w.at + [c], more)
  }

  /** At most `fuel` components; cyclic links run out of it. */
  function Resolve(w: Walk, links: Links, fuel: nat): Walk
    decreases fuel
  {
    if fuel == 0 || w.rest == [] then w else Resolve(Advance(w, links), links, fuel - 1)
  }

  /** Where the walk would end if nothing ahead were a symlink. */
  function Ahead(w: Walk): Location {
    w.at + Clean(w.rest)
  }

  predicate Within(l: Location, roots: seq<Path>) {
    exists k :: 0 <= k < |roots| && roots[k].parts <= l
  }

  function LinkOf(node: Node, trees: Trees): Link {
    match Target(PathOf(node), trees)
    case None => Link(false, [])
    case Some(t) => Link(t != "" && t[0] == '/', Split(t))
  }

  /** Symlinks of the listing, at their own locations. */
  predicate LinksOf(links: Links, nodes: seq<Node>, trees: Trees) {
    forall l :: l in links ==> exists i :: 0 <= i < |nodes| && IsLink(nodes[i], l, links[l], trees)
  }

  predicate IsLink(node: Node, l: Location, link: Link, trees: Trees) {
    node.kind == Symlink && PathOf(node).parts == l && link == LinkOf(node, trees)
  }

  predicate SafeLink(l: Location, link: Link, roots: seq<Path>) {
    l != [] ==> !link.absolute && ".." !in link.components && Within(l[..|l| - 1] + Clean(link.components), roots)
  }

  predicate Contained(links: Links, roots: seq<Path>) {
    forall l :: l in links ==> SafeLink(l, links[l], roots)
  }

  lemma {:induction false} CleanKeeps(parts: seq<string>)
    ensures forall c :: c in Clean(parts) <==> c in parts && !Dropped(c)
  {
    if parts != [] {
      CleanKeeps(parts[1..]);
    }
  }

  lemma {:induction false} CleanAppend(a: seq<string>, b: seq<string>)
    ensures Clean(a + b) == Clean(a) + Clean(b)
  {
    if a == [] {
      assert a + b == b;
    } else {
      assert (a + b)[1..] == a[1..] + b;
      CleanAppend(a[1..], b);
    }
  }

  lemma GoodLinkIsSafe(node: Node, roots: seq<Path>, trees: Trees)
    requires GoodNode(node, roots, trees) && node.kind == Symlink
    ensures SafeLink(PathOf(node).parts, LinkOf(node, trees), roots)
  {
    var p := PathOf(node);
    var t := Target(p, trees).value;
    CleanKeeps(Split(t));
    var k :| 0 <= k < |roots| && IsRelativeTo(LinkDestination(p, t), roots[k]);
    assert roots[k].parts <= Parent(p).parts + Clean(Split(t));
  }

  /** The accepted links are what resolution needs: relative, never upward, and lexically contained. */
  lemma AcceptedLinks(links: Links, roots: seq<Path>, nodes: seq<Node>, trees: Trees)
    requires Accepted(roots, nodes, trees) && LinksOf(links, nodes, trees)
    ensures Contained(links, roots)
  {
    forall l | l in links ensures SafeLink(l, links[l], roots) {
      var i :| 0 <= i < |nodes| && IsLink(nodes[i], l, links[l], trees);
      GoodLinkIsSafe(nodes[i], roots, trees);
    }
  }

  lemma ThroughLinkStaysInside(at: Location, c: string, more: seq<string>, link: Link, roots: seq<Path>)
    requires SafeLink(at + [c], link, roots)
    ensures !link.absolute && ".." !in link.components && Within(at + Clean(link.components + more), roots)
  {
    var here, t := at + [c], link.components;
    assert here[..|here| - 1] == at;
    CleanAppend(t, more);
    var k :| 0 <= k < |roots| && roots[k].parts <= at + Clean(t);
    Regroup(at, Clean(t), Clean(more), Clean(t + more));
    assert roots[k].parts <= at + Clean(t + more);
  }

  /** One step keeps "location plus what lies ahead" inside some root. */
  lemma AdvanceStaysInside(w: Walk, links: Links, roots: seq<Path>)
    requires Contained(links, roots) && w.rest != [] && ".." !in w.rest && Within(Ahead(w), roots)
    ensures ".." !in Advance(w, links).rest && Within(Ahead(Advance(w, links)), roots)
  {
    var c, more := w.rest[0], w.rest[1..];
    if !Dropped(c) {
      var here := w.at + [c];
      if here in links {
        ThroughLinkStaysInside(w.at, c, more, links[here], roots);
      } else {
        Regroup(w.at, [c], Clean(more), Clean(w.rest));
      }
    }
  }

  /**
   * Symlink containment: in a tree restored from an accepted listing, looking up any path without `..` that lies
   * inside a declared root stays inside some declared root after every number of steps, through chains of links,
   * links inside targets, dangling links and cycles; when the walk ends, so does its result.
   */
  lemma {:induction false} ResolutionStaysInside(w: Walk, links: Links, roots: seq<Path>, fuel: nat)
    requires Contained(links, roots) && ".." !in w.rest && Within(Ahead(w), roots)
    ensures Within(Ahead(Resolve(w, links, fuel)), roots)
    ensures Resolve(w, links, fuel).rest == [] ==> Within(Resolve(w, links, fuel).at, roots)
    decreases fuel
  {
    if fuel == 0 || w.rest == [] {
      if w.rest == [] {
        assert w.at + Clean(w.rest) == w.at;
      }
    } else {
      AdvanceStaysInside(w, links, roots);
      ResolutionStaysInside(Advance(w, links), links, roots, fuel - 1);
    }
  }

  lemma RestoredTreeIsContained(roots: seq<Path>, nodes: seq<Node>, trees: Trees, links: Links, path: string, fuel: nat)
    requires Accepted(roots, nodes, trees) && LinksOf(links, nodes, trees)
    requires ".." !in Split(path) && Within(Clean(Split(path)), roots)
    ensures var w := Resolve(Walk([], Split(path)), links, fuel);
            Within(Ahead(w), roots) && (w.rest == [] ==> Within(w.at, roots))
  {
    AcceptedLinks(links, roots, nodes, trees);
    assert Ahead(Walk([], Split(path))) == Clean(Split(path));
    ResolutionStaysInside(Walk([], Split(path)), links, roots, fuel);
  }

  lemma Step(w: Walk, links: Links, next: Walk, fuel: nat, end: Walk)
    requires w.rest != [] && Advance(w, links) == next && Resolve(next, links, fuel) == end
    ensures Resolve(w, links, fuel + 1) == end
  {
  }

  /**
   * The refusal of upward targets carries the guarantee: this link lies inside its root, and so does its target
   * read lexically, yet following it leaves the root.
   */
  lemma UpwardTargetEscapes()
    ensures var links := map[["data", "link"] := Link(false, ["..", "etc"])];
            && ["data"] <= ["data"] + Clean(["..", "etc"])
            && Resolve(Walk([], ["data", "link"]), links, 4) == Walk(["etc"], [])
            && !Within(["etc"], [Path(1, ["data"])])
  {
    var links := map[["data", "link"] := Link(false, ["..", "etc"])];
    var w1, w2 := Walk(["data"], ["link"]), Walk(["data"], ["..", "etc"]);
    var w3, w4 := Walk([], ["etc"]), Walk(["etc"], []);
    var w0 := Walk([], ["data", "link"]);
    assert "data"[0] == 'd' && "link"[0] == 'l' && "etc"[0] == 'e' && ".."[0] == '.';
    assert Advance(w3, links) == w4 by {
      assert w3.rest[1..] == [] && w3.at + ["etc"] == ["etc"] && |["etc"]| != |["data", "link"]|;
    }
    assert Advance(w2, links) == w3 by {
      assert w2.rest[1..] == ["etc"] && w2.at[..0] == [];
    }
    assert Advance(w1, links) == w2 by {
      assert w1.at + ["link"] == ["data", "link"] && ["..", "etc"] + w1.rest[1..] == ["..", "etc"];
    }
    assert Advance(w0, links) == w1 by {
      assert w0.rest[1..] == ["link"] && w0.at + ["data"] == ["data"] && |["data"]| != |["data", "link"]|;
    }
    Step(w3, links, w4, 0, w4);
    Step(w2, links, w3, 1, w4);
    Step(w1, links, w2, 2, w4);
    Step(w0, links, w1, 3, w4);
    assert !(["data"] <= ["etc"]) by {
      assert ["data"][0] != ["etc"][0];
    }
  }

  // ----- materialisation -----------------------------------------------------------

  /** What creating nodes has put where. */
  type Placed = map<Location, Node>

  function PlacedLinks(placed: Placed, trees: Trees): Links {
    map l | l in placed && placed[l].kind == Symlink :: LinkOf(placed[l], trees)
  }

  /** Creating `node` looks its parent directory up through the symlinks already there; none if it never ends. */
  function Landing(placed: Placed, node: Node, trees: Trees, fuel: nat): Option<Location> {
    var p := PathOf(node);
    if p.parts == [] then Some([])
    else
      var w := Resolve(Walk([], Parent(p).parts), PlacedLinks(placed, trees), fuel);
      if w.rest == [] then Some(w.at + [Name(p)]) else None
  }

  function Create(placed: Placed, node: Node, trees: Trees, fuel: nat): Placed {
    match Landing(placed, node, trees, fuel)
    case None => placed
    case Some(l) => placed[l := node]
  }

  /** Creating nodes one after another; a node whose parent cannot be resolved is not created. */
  function Materialise(placed: Placed, order: seq<Node>, trees: Trees, fuel: nat): Placed
    decreases order
  {
    if order == [] then placed else Materialise(Create(placed, order[0], trees, fuel), order[1..], trees, fuel)
  }

  predicate AtHome(placed: Placed, node: Node) {
    PathOf(node).parts in placed && placed[PathOf(node).parts] == node
  }

  /** Each node at its own path and nothing anywhere else. */
  predicate Faithful(placed: Placed, nodes: seq<Node>) {
    && (forall node :: node in nodes ==> AtHome(placed, node))
    && NothingElse(placed, nodes)
  }

  predicate NothingElse(placed: Placed, nodes: seq<Node>) {
    forall l :: l in placed ==> placed[l] in nodes && PathOf(placed[l]).parts == l
  }

  /**
   * The listing check with the two kinds of leading slashes taken as one, as the kernel takes them: no location
   * listed twice, nothing below a symlink.
   */
  predicate NoOverlap(nodes: seq<Node>) {
    forall i, j :: 0 <= i < |nodes| && 0 <= j < |nodes| && i != j ==>
      PathOf(nodes[i]).parts != PathOf(nodes[j]).parts &&
      !UnderLink(nodes[i], nodes[j])
  }

  predicate UnderLink(node: Node, link: Node) {
    link.kind == Symlink && PathOf(link).parts != [] && PathOf(link).parts <= PathOf(node).parts
  }

  predicate Shallow(nodes: seq<Node>, fuel: nat) {
    forall i :: 0 <= i < |nodes| ==> |PathOf(nodes[i]).parts| <= fuel
  }

  /** `order` is the listing in some order. */
  ghost predicate Permutes(order: seq<Node>, nodes: seq<Node>) {
    && (forall node :: node in order <==> node in nodes)
    && (forall i, j :: 0 <= i < j < |order| ==> order[i] != order[j])
  }

  /** A walk that meets no symlink ends where it says. */
  lemma {:induction false} PlainWalk(at: Location, rest: seq<string>, links: Links, fuel: nat)
    requires fuel >= |rest|
    requires forall c :: c in rest ==> !Dropped(c) && c != ".."
    requires forall k :: 0 < k <= |rest| ==> at + rest[..k] !in links
    ensures Resolve(Walk(at, rest), links, fuel) == Walk(at + rest, [])
    decreases rest
  {
    if rest == [] {
      assert at + rest == at;
    } else {
      assert rest[..1] == [rest[0]];
      var next := at + [rest[0]];
      forall k | 0 < k <= |rest[1..]| ensures next + rest[1..][..k] !in links {
        assert next + rest[1..][..k] == at + rest[..k + 1];
      }
      PlainWalk(next, rest[1..], links, fuel - 1);
      assert next + rest[1..] == at + rest;
    }
  }

  /** One step never arrives at or below a symlink. */
  lemma AdvanceAvoids(w: Walk, links: Links, l: Location)
    requires w.rest != [] && l in links && l != [] && !(l <= w.at)
    ensures !(l <= Advance(w, links).at)
  {
    var here := w.at + [w.rest[0]];
    assert l <= here <==> l == here;
  }

  /** No walk ends at or below a symlink. */
  lemma {:induction false} NeverThroughLink(w: Walk, links: Links, fuel: nat, l: Location)
    requires l in links && l != [] && !(l <= w.at)
    ensures !(l <= Resolve(w, links, fuel).at)
    decreases fuel
  {
    if fuel > 0 && w.rest != [] {
      AdvanceAvoids(w, links, l);
      NeverThroughLink(Advance(w, links), links, fuel - 1, l);
    }
  }

  lemma NothingAbove(nodes: seq<Node>, n: nat, placed: Placed, l: Location)
    requires NoOverlap(nodes) && n < |nodes| && l != [] && l < PathOf(nodes[n]).parts
    requires l in placed && placed[l] in nodes && PathOf(placed[l]).parts == l
    ensures placed[l].kind != Symlink
  {
    var i :| 0 <= i < |nodes| && nodes[i] == placed[l];
    assert i != n ==> !UnderLink(nodes[n], nodes[i]);
  }

  lemma NoLinkOnTheWay(nodes: seq<Node>, trees: Trees, placed: Placed, n: nat, k: nat)
    requires NoOverlap(nodes) && n < |nodes| && NothingElse(placed, nodes) && 0 < k < |PathOf(nodes[n]).parts|
    ensures PathOf(nodes[n]).parts[..k] !in PlacedLinks(placed, trees)
  {
    var l := PathOf(nodes[n]).parts[..k];
    if l in placed {
      NothingAbove(nodes, n, placed, l);
    }
  }

  lemma PartsAreClean(roots: seq<Path>, node: Node, trees: Trees)
    requires GoodNode(node, roots, trees)
    ensures ".." !in PathOf(node).parts && forall c :: c in PathOf(node).parts ==> !Dropped(c)
  {
    CleanKeeps(Split(node.raw));
  }

  /** With no symlink above it, a node lands at its own path. */
  lemma LandsAtEnd(placed: Placed, node: Node, trees: Trees, fuel: nat)
    requires PathOf(node).parts != [] && |PathOf(node).parts| <= fuel
    requires ".." !in PathOf(node).parts && forall c :: c in PathOf(node).parts ==> !Dropped(c)
    requires forall k :: 0 < k < |PathOf(node).parts| ==> PathOf(node).parts[..k] !in PlacedLinks(placed, trees)
    ensures Landing(placed, node, trees, fuel) == Some(PathOf(node).parts)
  {
    var p, links := PathOf(node), PlacedLinks(placed, trees);
    var up := Parent(p).parts;
    forall k | 0 < k <= |up| ensures [] + up[..k] !in links {
      assert [] + up[..k] == p.parts[..k];
    }
    PlainWalk([], up, links, fuel);
    assert [] + up == up && up + [Name(p)] == p.parts;
  }

  lemma LandsAtHome(roots: seq<Path>, nodes: seq<Node>, trees: Trees, placed: Placed, n: nat, fuel: nat)
    requires Accepted(roots, nodes, trees) && NoOverlap(nodes) && Shallow(nodes, fuel) && n < |nodes|
    requires NothingElse(placed, nodes)
    ensures Landing(placed, nodes[n], trees, fuel) == Some(PathOf(nodes[n]).parts)
  {
    var p := PathOf(nodes[n]);
    PartsAreClean(roots, nodes[n], trees);
    if p.parts != [] {
      forall k | 0 < k < |p.parts| ensures p.parts[..k] !in PlacedLinks(placed, trees) {
        NoLinkOnTheWay(nodes, trees, placed, n, k);
      }
      LandsAtEnd(placed, nodes[n], trees, fuel);
    }
  }

  lemma CreateKeeps(roots: seq<Path>, nodes: seq<Node>, trees: Trees, placed: Placed, n: nat, fuel: nat)
    requires Accepted(roots, nodes, trees) && NoOverlap(nodes) && Shallow(nodes, fuel) && n < |nodes|
    requires NothingElse(placed, nodes)
    ensures var next := Create(placed, nodes[n], trees, fuel);
            NothingElse(next, nodes) && forall i :: 0 <= i < |nodes| && (i == n || AtHome(placed, nodes[i])) ==>
                AtHome(next, nodes[i])
  {
    LandsAtHome(roots, nodes, trees, placed, n, fuel);
  }

  lemma {:induction false} MaterialiseKeeps(roots: seq<Path>, nodes: seq<Node>, trees: Trees, placed: Placed,
                                            order: seq<Node>, final: Placed, fuel: nat)
    requires Accepted(roots, nodes, trees) && NoOverlap(nodes) && Shallow(nodes, fuel)
    requires forall i :: 0 <= i < |order| ==> order[i] in nodes
    requires NothingElse(placed, nodes) && final == Materialise(placed, order, trees, fuel)
    ensures NothingElse(final, nodes)
    ensures forall i :: 0 <= i < |nodes| && (nodes[i] in order || AtHome(placed, nodes[i])) ==> AtHome(final, nodes[i])
    decreases order
  {
    if order != [] {
      var n :| 0 <= n < |nodes| && nodes[n] == order[0];
      CreateKeeps(roots, nodes, trees, placed, n, fuel);
      MaterialiseKeeps(roots, nodes, trees, Create(placed, order[0], trees, fuel), order[1..], final, fuel);
      assert forall node :: node in order ==> node == nodes[n] || node in order[1..];
    }
  }

  /** Where one node ended up does not change while others are created. */
  lemma {:induction false} OnlyLanding(placed: Placed, order: seq<Node>, trees: Trees, fuel: nat, node: Node,
                                       at: Option<Location>)
    requires node !in order && forall l :: l in placed && placed[l] == node ==> at == Some(l)
    ensures var final := Materialise(placed, order, trees, fuel);
            forall l :: l in final && final[l] == node ==> at == Some(l)
    decreases order
  {
    if order != [] {
      OnlyLanding(Create(placed, order[0], trees, fuel), order[1..], trees, fuel, node, at);
    }
  }

  function Without(nodes: seq<Node>, a: Node, b: Node): (rest: seq<Node>)
    ensures forall node :: node in rest <==> node in nodes && node != a && node != b
  {
    if nodes == [] then []
    else if nodes[0] == a || nodes[0] == b then Without(nodes[1..], a, b)
    else [nodes[0]] + Without(nodes[1..], a, b)
  }

  lemma {:induction false} WithoutIsDistinct(nodes: seq<Node>, a: Node, b: Node)
    requires forall i, j :: 0 <= i < j < |nodes| ==> nodes[i] != nodes[j]
    ensures forall i, j :: 0 <= i < j < |Without(nodes, a, b)| ==> Without(nodes, a, b)[i] != Without(nodes, a, b)[j]
  {
    if nodes != [] {
      WithoutIsDistinct(nodes[1..], a, b);
      var rest := Without(nodes[1..], a, b);
      assert nodes[0] !in nodes[1..];
      assert forall j :: 0 <= j < |rest| ==> rest[j] in rest;
    }
  }

  lemma TwoThenRest(nodes: seq<Node>, a: Node, b: Node, order: seq<Node>)
    requires a in nodes && b in nodes && a != b && order == [a, b] + Without(nodes, b, a)
    requires forall i, j :: 0 <= i < j < |nodes| ==> nodes[i] != nodes[j]
    ensures Permutes(order, nodes)
  {
    var rest := Without(nodes, b, a);
    WithoutIsDistinct(nodes, b, a);
    forall i, j | 0 <= i < j < |order| ensures order[i] != order[j] {
      if j >= 2 {
        assert order[j] == rest[j - 2] && order[j] in rest;
        if i >= 2 {
          assert order[i] == rest[i - 2];
        }
      }
    }
  }

  lemma LinkFirst(nodes: seq<Node>, trees: Trees, node: Node, link: Node, fuel: nat) returns (order: seq<Node>)
    requires node in nodes && link in nodes && node != link
    requires forall i, j :: 0 <= i < j < |nodes| ==> nodes[i] != nodes[j]
    requires UnderLink(node, link) && PathOf(link).parts != PathOf(node).parts
    requires Landing(map[], link, trees, fuel) == Some(PathOf(link).parts)
    ensures Permutes(order, nodes) && !Faithful(Materialise(map[], order, trees, fuel), nodes)
  {
    var rest := Without(nodes, node, link);
    order := [link, node] + rest;
    LinkThenNode(link, node, rest, trees, fuel);
    TwoThenRest(nodes, link, node, order);
  }

  lemma MaterialiseTwo(placed: Placed, a: Node, b: Node, rest: seq<Node>, trees: Trees, fuel: nat)
    ensures Materialise(placed, [a, b] + rest, trees, fuel) ==
            Materialise(Create(Create(placed, a, trees, fuel), b, trees, fuel), rest, trees, fuel)
  {
    var order := [a, b] + rest;
    assert order[1..] == [b] + rest && order[1..][1..] == rest;
  }

  lemma LinkThenNode(link: Node, node: Node, rest: seq<Node>, trees: Trees, fuel: nat)
    requires node != link && node !in rest
    requires UnderLink(node, link) && PathOf(link).parts != PathOf(node).parts
    requires Landing(map[], link, trees, fuel) == Some(PathOf(link).parts)
    ensures !AtHome(Materialise(map[], [link, node] + rest, trees, fuel), node)
  {
    var first := Create(map[], link, trees, fuel);
    assert first == map[PathOf(link).parts := link];
    MaterialiseTwo(map[], link, node, rest, trees, fuel);
    NodeDiverted(first, link, node, rest, trees, fuel);
  }

  lemma NodeDiverted(first: Placed, link: Node, node: Node, rest: seq<Node>, trees: Trees, fuel: nat)
    requires node != link && node !in rest && first == map[PathOf(link).parts := link]
    requires UnderLink(node, link) && PathOf(link).parts != PathOf(node).parts
    ensures !AtHome(Materialise(Create(first, node, trees, fuel), rest, trees, fuel), node)
  {
    var second, at := Create(first, node, trees, fuel), Landing(first, node, trees, fuel);
    Diverted(first, node, link, trees, fuel);
    assert forall l :: l in second && second[l] == node ==> at == Some(l);
    OnlyLanding(second, rest, trees, fuel, node, at);
  }

  /** With the symlink already there, a node below it lands elsewhere or nowhere. */
  lemma Diverted(placed: Placed, node: Node, link: Node, trees: Trees, fuel: nat)
    requires UnderLink(node, link) && PathOf(link).parts != PathOf(node).parts && AtHome(placed, link)
    ensures Landing(placed, node, trees, fuel) != Some(PathOf(node).parts)
  {
    var l, p := PathOf(link).parts, PathOf(node);
    var w := Resolve(Walk([], Parent(p).parts), PlacedLinks(placed, trees), fuel);
    NeverThroughLink(Walk([], Parent(p).parts), PlacedLinks(placed, trees), fuel, l);
    assert l <= p.parts[..|p.parts| - 1];
    assert (w.at + [Name(p)])[..|w.at|] == w.at;
  }

  lemma FirstLandsAtHome(roots: seq<Path>, node: Node, trees: Trees, fuel: nat)
    requires GoodNode(node, roots, trees) && |PathOf(node).parts| <= fuel
    ensures Landing(map[], node, trees, fuel) == Some(PathOf(node).parts)
  {
    if PathOf(node).parts != [] {
      PartsAreClean(roots, node, trees);
      LandsAtEnd(map[], node, trees, fuel);
    }
  }

  lemma AcceptedAreDistinct(roots: seq<Path>, nodes: seq<Node>, trees: Trees)
    requires Accepted(roots, nodes, trees)
    ensures forall i, j :: 0 <= i < j < |nodes| ==> nodes[i] != nodes[j]
  {
    forall i, j | 0 <= i < j < |nodes| ensures nodes[i] != nodes[j] {
      assert PathOf(nodes[i]) != PathOf(nodes[j]);
    }
  }

  lemma OverlapBreaks(roots: seq<Path>, nodes: seq<Node>, trees: Trees, fuel: nat) returns (order: seq<Node>)
    requires Accepted(roots, nodes, trees) && Shallow(nodes, fuel) && !NoOverlap(nodes)
    ensures Permutes(order, nodes) && !Faithful(Materialise(map[], order, trees, fuel), nodes)
  {
    AcceptedAreDistinct(roots, nodes, trees);
    var i, j :| 0 <= i < |nodes| && 0 <= j < |nodes| && i != j &&
      !(PathOf(nodes[i]).parts != PathOf(nodes[j]).parts && !UnderLink(nodes[i], nodes[j]));
    if PathOf(nodes[i]).parts == PathOf(nodes[j]).parts {
      order := nodes;
      var final := Materialise(map[], order, trees, fuel);
      assert !(AtHome(final, nodes[i]) && AtHome(final, nodes[j]));
    } else {
      FirstLandsAtHome(roots, nodes[j], trees, fuel);
      order := LinkFirst(nodes, trees, nodes[i], nodes[j], fuel);
    }
  }

  /**
   * Creating an accepted listing puts every node at exactly its own path, in whatever order the nodes are created,
   * exactly when the check also holds with `//` read as `/`.
   */
  lemma MaterialisationIsExact(roots: seq<Path>, nodes: seq<Node>, trees: Trees, fuel: nat)
    requires Accepted(roots, nodes, trees) && Shallow(nodes, fuel)
    ensures (forall order :: Permutes(order, nodes) ==> Faithful(Materialise(map[], order, trees, fuel), nodes)) <==>
            NoOverlap(nodes)
  {
    if NoOverlap(nodes) {
      forall order | Permutes(order, nodes) ensures Faithful(Materialise(map[], order, trees, fuel), nodes) {
        var final := Materialise(map[], order, trees, fuel);
        MaterialiseKeeps(roots, nodes, trees, map[], order, final, fuel);
        forall node | node in nodes ensures AtHome(final, node) {
          var i :| 0 <= i < |nodes| && nodes[i] == node;
        }
      }
    } else {
      var order := OverlapBreaks(roots, nodes, trees, fuel);
    }
  }

  /** No declared root under a double slash: then nothing overlaps, and every node lands at its own path. */
  lemma SingleSlashRootsAreFaithful(roots: seq<Path>, nodes: seq<Node>, trees: Trees, order: seq<Node>, fuel: nat)
    requires Accepted(roots, nodes, trees) && Shallow(nodes, fuel) && Permutes(order, nodes)
    requires forall k :: 0 <= k < |roots| ==> roots[k].slashes == 1
    ensures Faithful(Materialise(map[], order, trees, fuel), nodes)
  {
    forall i | 0 <= i < |nodes| ensures PathOf(nodes[i]).slashes == 1 {
      assert GoodNode(nodes[i], roots, trees);
    }
    forall i, j | 0 <= i < |nodes| && 0 <= j < |nodes| && i != j
      ensures PathOf(nodes[i]).parts != PathOf(nodes[j]).parts && !UnderLink(nodes[i], nodes[j])
    {
      assert PathOf(nodes[i]) != PathOf(nodes[j]) && !Below(nodes[i], nodes[j]);
    }
    MaterialisationIsExact(roots, nodes, trees, fuel);
  }

  // ----- printing and reading paths ------------------------------------------------

  /** A component a path can have as it stands. */
  predicate PathName(name: string) {
    '/' !in name && !Dropped(name) && name != ".."
  }

  lemma SplitTwo(a: string, b: string, s: string)
    requires '/' !in a && '/' !in b && s == a + "/" + b
    ensures Split(s) == [a, b]
  {
    assert s[|a|] == '/';
    assert forall i :: 0 <= i < |a| ==> s[i] == a[i];
    assert Slash(s) == |a| && s[..|a|] == a && s[|a| + 1..] == b;
    assert Slash(b) == |b|;
  }

  lemma SplitOnce(a: string, more: string, s: string)
    requires '/' !in a && s == a + "/" + more
    ensures Split(s) == [a] + Split(more)
  {
    assert s[|a|] == '/';
    assert forall i :: 0 <= i < |a| ==> s[i] == a[i];
    assert Slash(s) == |a| && s[..|a|] == a && s[|a| + 1..] == more;
  }

  lemma CleanOne(part: string, more: seq<string>)
    ensures Clean([part] + more) == (if Dropped(part) then [] else [part]) + Clean(more)
  {
    assert ([part] + more)[1..] == more;
  }

  lemma {:induction false} CleanOfClean(parts: seq<string>)
    requires forall c :: c in parts ==> !Dropped(c)
    ensures Clean(parts) == parts
  {
    if parts != [] {
      CleanOfClean(parts[1..]);
    }
  }

  lemma {:induction false} SplitJoin(parts: seq<string>)
    requires parts != [] && forall c :: c in parts ==> '/' !in c
    ensures Split(JoinParts(parts)) == parts
  {
    if |parts| == 1 {
      assert Slash(parts[0]) == |parts[0]|;
    } else {
      SplitJoin(parts[1..]);
      SplitOnce(parts[0], JoinParts(parts[1..]), JoinParts(parts));
    }
  }

  lemma JoinStarts(parts: seq<string>)
    requires parts != [] && parts[0] != ""
    ensures JoinParts(parts) != "" && JoinParts(parts)[0] == parts[0][0]
  {
  }

  /** A relative path of plain components reads back. */
  lemma ParseRelative(parts: seq<string>)
    requires parts != [] && forall c :: c in parts ==> PathName(c)
    ensures Parse(JoinParts(parts)) == Path(0, parts) && Split(JoinParts(parts)) == parts
    ensures JoinParts(parts) != "" && JoinParts(parts)[0] != '/'
  {
    assert parts[0] in parts;
    JoinStarts(parts);
    SplitJoin(parts);
    CleanOfClean(parts);
  }

  /** So does an absolute one, under either kind of leading slashes. */
  lemma ParseFormat(p: Path)
    requires (p.slashes == 1 || p.slashes == 2) && p.parts != [] && forall c :: c in p.parts ==> PathName(c)
    ensures Parse(Format(p)) == p
  {
    var s := JoinParts(p.parts);
    ParseRelative(p.parts);
    SplitOnce("", s, "/" + s);
    CleanOne("", p.parts);
    if p.slashes == 1 {
      assert ("/" + s)[1] == s[0];
    } else {
      SplitOnce("", "/" + s, "/" + ("/" + s));
      CleanOne("", [""] + p.parts);
      assert "//" + s == "/" + ("/" + s);
      assert ("//" + s)[1] == '/' && ("//" + s)[2] == s[0];
    }
  }

  lemma ParseRoot(raw: string)
    requires raw == "/" || raw == "//"
    ensures Parse(raw) == Path(|raw|, []) && Format(Path(|raw|, [])) == raw
  {
    SplitTwo("", "", "/");
    assert ["", ""][1..] == [""] && [""][1..] == [] && Clean([""]) == [] && Clean(["", ""]) == [];
    if raw == "//" {
      SplitOnce("", "/", "//");
      CleanOne("", ["", ""]);
    }
  }

  // ----- which roots keep every listing faithful ------------------------------------------------

  /** The directory every snapshot has beside the declared roots (`CAPSULE` in backup.py). */
  const CAPSULE := Path(1, ["rougarou-backup-capsule"])

  /** The directories above all roots, under either kind of slashes. */
  function TopDirectories(): seq<Node> {
    [Node("/", Dir), Node("//", Dir)]
  }

  lemma TopIsGood(node: Node, root: Path, roots: seq<Path>)
    requires node == Node("/", Dir) || node == Node("//", Dir)
    requires root in roots && root.slashes == |node.raw|
    ensures PathOf(node) == Path(|node.raw|, []) && GoodNode(node, roots, map[])
  {
    ParseRoot(node.raw);
    assert IsRelativeTo(root, PathOf(node));
  }

  /** With roots of both kinds, the two names of the top directory make an accepted listing that overlaps. */
  lemma BothKindsOverlap(roots: seq<Path>, a: Path, b: Path)
    requires a in roots && b in roots && a.slashes == 1 && b.slashes == 2
    ensures Accepted(roots, TopDirectories(), map[]) && !NoOverlap(TopDirectories()) && Shallow(TopDirectories(), 0)
  {
    var nodes := TopDirectories();
    TopIsGood(nodes[0], a, roots);
    TopIsGood(nodes[1], b, roots);
    assert PathOf(nodes[0]).parts == PathOf(nodes[1]).parts;
  }

  ghost predicate AlwaysFaithful(roots: seq<Path>) {
    forall nodes, trees, order, fuel ::
      Accepted(roots, nodes, trees) && Shallow(nodes, fuel) && Permutes(order, nodes) ==>
      Faithful(Materialise(map[], order, trees, fuel), nodes)
  }

  /**
   * Exactly which roots make materialisation faithful for every accepted listing, in every order: with the capsule
   * among them, those without a leading double slash.
   */
  lemma AlwaysFaithfulIff(roots: seq<Path>)
    requires CAPSULE in roots && forall k :: 0 <= k < |roots| ==> roots[k].slashes == 1 || roots[k].slashes == 2
    ensures AlwaysFaithful(roots) <==> forall k :: 0 <= k < |roots| ==> roots[k].slashes == 1
  {
    if forall k :: 0 <= k < |roots| ==> roots[k].slashes == 1 {
      forall nodes, trees, order, fuel | Accepted(roots, nodes, trees) && Shallow(nodes, fuel) && Permutes(order, nodes)
        ensures Faithful(Materialise(map[], order, trees, fuel), nodes)
      {
        SingleSlashRootsAreFaithful(roots, nodes, trees, order, fuel);
      }
    } else {
      var k :| 0 <= k < |roots| && roots[k].slashes != 1;
      BothKindsOverlap(roots, CAPSULE, roots[k]);
      var order := OverlapBreaks(roots, TopDirectories(), map[], 0);
      assert Accepted(roots, TopDirectories(), map[]) && Shallow(TopDirectories(), 0) &&
             Permutes(order, TopDirectories());
    }
  }

  lemma PlainFile(node: Node, p: Path, roots: seq<Path>)
    requires p.slashes == 1 || p.slashes == 2
    requires p.parts == ["a"] && node == Node(Format(p), File) && p in roots
    ensures PathOf(node) == p && GoodNode(node, roots, map[])
  {
    assert "a"[0] == 'a' && ".."[0] == '.';
    assert |"a"| == 1 && |"prepared"| == 8 && |"RECOVERY.json"| == 13 && |"RESTORE_INCOMPLETE"| == 18;
    ParseFormat(p);
    assert IsRelativeTo(p, p);
  }

  lemma OneLocationTwice(roots: seq<Path>, a: Node, b: Node)
    requires GoodNode(a, roots, map[]) && GoodNode(b, roots, map[]) && a.kind == File && b.kind == File
    requires PathOf(a) != PathOf(b) && PathOf(a).parts == PathOf(b).parts
    ensures Accepted(roots, [a, b], map[]) && !NoOverlap([a, b])
  {
    var nodes := [a, b];
    assert PathOf(nodes[0]).parts == PathOf(nodes[1]).parts;
  }

  /** One file listed under both kinds of slashes: accepted, though its two nodes share one location. */
  lemma DoubleSlashOverlaps()
    ensures var roots := [CAPSULE, Path(1, ["a"]), Path(2, ["a"])];
            var nodes := [Node(Format(roots[1]), File), Node(Format(roots[2]), File)];
            Accepted(roots, nodes, map[]) && !NoOverlap(nodes)
  {
    var roots := [CAPSULE, Path(1, ["a"]), Path(2, ["a"])];
    var a, b := Node(Format(roots[1]), File), Node(Format(roots[2]), File);
    assert roots[1] in roots && roots[2] in roots;
    PlainFile(a, roots[1], roots);
    PlainFile(b, roots[2], roots);
    OneLocationTwice(roots, a, b);
  }

  /** A name by itself, as a relative path. */
  lemma PlainTarget(name: string)
    requires '/' !in name && !Dropped(name)
    ensures Split(name) == [name] && Parse(name) == Path(0, [name])
  {
    assert Slash(name) == |name|;
    CleanOfClean([name]);
  }
}
