/** What clients of the package store see over whole runs of its steps. */
module Availability {
  import opened Text
  import opened Packages
  import opened Verification
  import opened Repository
  import Stanzas

  // ----- what clients see ----------------------------------------------------------------------------

  /**
   * `p` offers every file of `q`: all of its pool, and its index under its own digest; compressed too if `gz` says so.
   */
  predicate Offers(p: Tree, q: Tree, gz: bool, tools: Tools) {
    && Within(q.pool, p.pool) && Shares(p, q, q.top.packages, tools) && (gz ==> Shares(p, q, q.top.gz, tools))
  }

  predicate Shares(p: Tree, q: Tree, text: string, tools: Tools) {
    tools.sha(text) in q.byHash && tools.sha(text) in p.byHash && p.byHash[tools.sha(text)] == q.byHash[tools.sha(text)]
  }

  /** Pointers are the latest switches; each publication offers everything that was visible before it. */
  ghost predicate VisibleSound(s: Store, tools: Tools) {
    && (forall key :: key in s.visible ==> key in s.publications && key.channel in s.pointers)
    && (forall c :: c in s.pointers ==> s.pointers[c].channel == c && Latest(s.visible, |s.visible|, s.pointers[c]))
    && (forall i, j :: 0 <= i <= j < |s.visible| ==> KeyOffers(s, s.visible[j], s.visible[i], tools))
  }

  predicate KeyOffers(s: Store, p: Key, q: Key, tools: Tools) {
    && p in s.publications && q in s.publications
    && Offers(s.publications[p], s.publications[q], SameCompression(s.publications[q], s), tools)
  }

  /** `key` is the last of its channel among the first n switches. */
  predicate Latest(visible: seq<Key>, n: nat, key: Key) {
    exists i :: 0 <= i < n && i < |visible| && visible[i] == key &&
      forall j :: i < j < n && j < |visible| ==> visible[j].channel != key.channel
  }

  /** Each stable publication is of the snapshot that testing showed at that moment. */
  ghost predicate StableFollows(s: Store) {
    && (forall n :: 0 <= n < |s.visible| && s.visible[n].channel == Stable ==> Tested(s, n, s.visible[n]))
    && (Promoting(s) == Some(Stable) ==> TestingShows(s, Promoted(s)))
  }

  /** What testing showed when the first n switches had been made is of the same snapshot as `key`. */
  ghost predicate Tested(s: Store, n: nat, key: Key) {
    key in s.publications && exists tested: Key :: SameSnapshot(s, tested, key) && Latest(s.visible, n, tested)
  }

  predicate SameSnapshot(s: Store, tested: Key, key: Key) {
    && tested.channel == Testing && tested in s.publications && key in s.publications
    && s.publications[tested].snapshot == s.publications[key].snapshot
  }

  function Promoting(s: Store): Option<Channel> {
    match s.phase
    case Idle => None
    case Adding(channel, _, _, _, _) => Some(channel)
    case Staged(channel, _, _) => Some(channel)
    case Signed(channel, _, _) => Some(channel)
    case Published(key) => Some(key.channel)
    case Audited(key) => Some(key.channel)
  }

  ghost function Promoted(s: Store): Sid {
    match s.phase
    case Idle => ""
    case Adding(_, sid, _, _, _) => sid
    case Staged(_, sid, _) => sid
    case Signed(_, sid, _) => sid
    case Published(key) => if key in s.publications then s.publications[key].snapshot else ""
    case Audited(key) => if key in s.publications then s.publications[key].snapshot else ""
  }

  ghost predicate Inv(s: Store, tools: Tools) {
    FilesSound(s, tools) && VisibleSound(s, tools) && StableFollows(s) && ShelvesSound(s, tools)
  }

  lemma InitiallySound(tools: Tools)
    ensures Inv(EMPTY, tools)
  {
  }

  lemma OffersKept(p: Tree, q: Tree, suite: string, s: Store, tools: Tools)
    requires Kept(q, suite, s, tools) && LinksAll(p, s)
    ensures Offers(p, q, SameCompression(q, s), tools)
  {
  }

  lemma KeyOffersStays(s: Store, t: Store, p: Key, q: Key, tools: Tools)
    requires KeyOffers(s, p, q, tools) && Grows(s, t) && s.publications[q].snapshot in s.snapshots
    ensures KeyOffers(t, p, q, tools)
  {
  }

  /** Steps that switch nothing keep what clients see. */
  lemma VisibleStays(s: Store, t: Store, tools: Tools)
    requires VisibleSound(s, tools) && PublicationsSound(s, tools) && Grows(s, t) && t.visible == s.visible &&
             t.pointers == s.pointers
    ensures VisibleSound(t, tools)
  {
    forall i, j | 0 <= i <= j < |t.visible| ensures KeyOffers(t, t.visible[j], t.visible[i], tools) {
      assert KeyOffers(s, s.visible[j], s.visible[i], tools) &&
             Kept(s.publications[s.visible[i]], SuiteOf(s.visible[i].channel), s, tools);
      KeyOffersStays(s, t, s.visible[j], s.visible[i], tools);
    }
  }

  lemma LatestThen(visible: seq<Key>, key: Key, c: Key)
    ensures Latest(visible + [key], |visible| + 1, key)
    ensures c.channel != key.channel && Latest(visible, |visible|, c) ==> Latest(visible + [key], |visible| + 1, c)
  {
    var more := visible + [key];
    assert more[|visible|] == key;
    if c.channel != key.channel && Latest(visible, |visible|, c) {
      var i :| 0 <= i < |visible| && visible[i] == c &&
          forall j :: i < j < |visible| ==> visible[j].channel != c.channel;
      assert more[i] == c;
    }
  }

  /** The publication about to be switched to offers everything visible, and itself. */
  lemma NewestOffers(s: Store, q: Key, tools: Tools)
    requires PublicationsSound(s, tools) && s.phase.Audited? && s.phase.key in s.publications && q in s.publications
    requires LinksAll(s.publications[s.phase.key], s)
    ensures KeyOffers(Switched(s), s.phase.key, q, tools)
  {
    OffersKept(s.publications[s.phase.key], s.publications[q], SuiteOf(q.channel), s, tools);
  }

  /** The new switch comes last and offers everything; what was switched to before still does. */
  lemma SwitchOffers(s: Store, tools: Tools, i: nat, j: nat)
    requires PublicationsSound(s, tools) && VisibleSound(s, tools) && s.phase.Audited? && s.phase.key in s.publications
    requires LinksAll(s.publications[s.phase.key], s) && i <= j <= |s.visible|
    ensures KeyOffers(Switched(s), Switched(s).visible[j], Switched(s).visible[i], tools)
  {
    var t, key, n := Switched(s), s.phase.key, |s.visible|;
    if j == n {
      assert t.visible[i] == key || t.visible[i] in s.visible;
      NewestOffers(s, t.visible[i], tools);
    } else {
      OlderStillOffers(s, tools, i, j);
    }
  }

  lemma OlderStillOffers(s: Store, tools: Tools, i: nat, j: nat)
    requires VisibleSound(s, tools) && s.phase.Audited? && i <= j < |s.visible|
    ensures KeyOffers(Switched(s), Switched(s).visible[j], Switched(s).visible[i], tools)
  {
    EarlierIsOffered(s, i, j, tools);
  }

  lemma SwitchIsSeen(s: Store, tools: Tools)
    requires PublicationsSound(s, tools) && VisibleSound(s, tools) && s.phase.Audited? && s.phase.key in s.publications
    requires LinksAll(s.publications[s.phase.key], s)
    ensures VisibleSound(Switched(s), tools)
  {
    var t := Switched(s);
    forall i, j | 0 <= i <= j < |t.visible| ensures KeyOffers(t, t.visible[j], t.visible[i], tools) {
      SwitchOffers(s, tools, i, j);
    }
    PointersStayLatest(s, tools);
  }

  lemma PointersStayLatest(s: Store, tools: Tools)
    requires VisibleSound(s, tools) && s.phase.Audited? && s.phase.key in s.publications
    ensures var t := Switched(s);
            && (forall key :: key in t.visible ==> key in t.publications && key.channel in t.pointers)
            && (forall c :: c in t.pointers ==>
                  t.pointers[c].channel == c && Latest(t.visible, |t.visible|, t.pointers[c]))
  {
    var t := Switched(s);
    forall c | c in t.pointers ensures t.pointers[c].channel == c && Latest(t.visible, |t.visible|, t.pointers[c]) {
      LatestThen(s.visible, s.phase.key, t.pointers[c]);
    }
  }

  lemma TestedStays(s: Store, t: Store, n: nat, key: Key)
    requires Tested(s, n, key) && Within(s.publications, t.publications) && s.visible <= t.visible && n <= |s.visible|
    ensures Tested(t, n, key)
  {
    var tested: Key :| SameSnapshot(s, tested, key) && Latest(s.visible, n, tested);
    assert SameSnapshot(t, tested, key);
    var i :| 0 <= i < n && s.visible[i] == tested && forall j :: i < j < n ==> s.visible[j].channel != tested.channel;
    assert t.visible[i] == tested;
  }

  lemma SwitchFollows(s: Store)
    requires s.phase.Audited? && s.phase.key in s.publications && TestingShows(s, s.publications[s.phase.key].snapshot)
    requires s.pointers[Testing].channel == Testing && Latest(s.visible, |s.visible|, s.pointers[Testing])
    ensures Tested(Switched(s), |s.visible|, s.phase.key)
  {
    var tested, t, n := s.pointers[Testing], Switched(s), |s.visible|;
    assert SameSnapshot(t, tested, s.phase.key);
    var i :| 0 <= i < n && s.visible[i] == tested && forall j :: i < j < n ==> s.visible[j].channel != tested.channel;
    assert t.visible[i] == tested;
  }

  /** Between its beginning and its switch a promotion stays that of its snapshot. */
  lemma PromotionStays(s: Store, l: Step, tools: Tools)
    requires PhaseSound(s, tools) && Enabled(s, l, tools) && !l.Begin? && !l.Switch? && !l.Stop? && !l.Snapshot?
    ensures Promoting(Do(s, l, tools)) == Promoting(s) && Promoted(Do(s, l, tools)) == Promoted(s)
  {
  }

  lemma PromotionFollows(s: Store, l: Step, tools: Tools)
    requires PhaseSound(s, tools) && Enabled(s, l, tools)
    requires Promoting(s) == Some(Stable) ==> TestingShows(s, Promoted(s))
    ensures Promoting(Do(s, l, tools)) == Some(Stable) ==> TestingShows(Do(s, l, tools), Promoted(Do(s, l, tools)))
  {
    if !l.Begin? && !l.Switch? && !l.Stop? && !l.Snapshot? {
      PromotionStays(s, l, tools);
      StepGrows(s, l, tools);
    }
  }

  lemma HistoryFollows(s: Store, t: Store)
    requires StableFollows(s) && Within(s.publications, t.publications) && s.visible <= t.visible
    ensures forall n :: 0 <= n < |s.visible| && t.visible[n].channel == Stable ==> Tested(t, n, t.visible[n])
  {
    forall n | 0 <= n < |s.visible| && t.visible[n].channel == Stable ensures Tested(t, n, t.visible[n]) {
      TestedStays(s, t, n, s.visible[n]);
    }
  }

  lemma StepKeepsFollowing(s: Store, l: Step, tools: Tools)
    requires PhaseSound(s, tools) && VisibleSound(s, tools) && StableFollows(s) && Enabled(s, l, tools)
    ensures StableFollows(Do(s, l, tools))
  {
    var t := Do(s, l, tools);
    StepGrows(s, l, tools);
    HistoryFollows(s, t);
    PromotionFollows(s, l, tools);
    if l.Switch? && s.phase.key.channel == Stable {
      SwitchFollows(s);
    }
  }

  /** Only a switch changes what clients see. */
  lemma OnlySwitchesSwitch(s: Store, l: Step, tools: Tools)
    requires Enabled(s, l, tools) && !l.Switch?
    ensures Do(s, l, tools).pointers == s.pointers && Do(s, l, tools).visible == s.visible
  {
    match l
    case StartCopy(inode, part) => assert Do(s, l, tools) == Started(s, inode, part);
    case EndCopy => assert Do(s, l, tools) == Completed(s);
    case _ =>
  }

  lemma StepKeepsVisible(s: Store, l: Step, t: Store, tools: Tools)
    requires PublicationsSound(s, tools) && PhaseSound(s, tools) && VisibleSound(s, tools) && Enabled(s, l, tools)
    requires t == Do(s, l, tools)
    ensures VisibleSound(t, tools)
  {
    StepGrows(s, l, tools);
    if l.Switch? {
      SwitchIsSeen(s, tools);
    } else {
      OnlySwitchesSwitch(s, l, tools);
      VisibleStays(s, t, tools);
    }
  }

  // ----- what the by-hash directories hold ------------------------------------------------------------

  /** The digests among these files. */
  function Digests(order: seq<Copy>): set<string> {
    set c | c in order && c.IndexFile? :: c.digest
  }

  /** What the shared index holds rightly, apart from a file being written. */
  function Settled(s: Store, sha: string -> string): set<string> {
    set d | d in s.index && s.index[d] in s.bytes && Half(s) != Some(s.index[d]) && sha(s.bytes[s.index[d]]) == d
  }

  /** The file being written is in the index at most under the name of the one being added. */
  ghost predicate HalfIsNamed(s: Store)
    requires s.phase.Adding?
  {
    s.phase.half.Some? ==>
      (s.phase.k < |s.phase.order| && forall d :: d in s.index && s.index[d] == s.phase.half.value ==>
       Names(s.phase.order[s.phase.k], d))
  }

  predicate Names(c: Copy, digest: string) {
    c.IndexFile? && c.digest == digest
  }

  ghost predicate AddingShelf(s: Store, sha: string -> string)
    requires s.phase.Adding?
  {
    s.phase.k <= |s.phase.order| && Settled(s, sha) == s.shelf + Digests(s.phase.order[..s.phase.k]) && HalfIsNamed(s)
  }

  /** The digests a publication of this snapshot with this compressed index has, on top of what was on the shelf. */
  function Served(s: Store, t: Tree, shelf: set<string>, sha: string -> string): set<string>
    requires t.snapshot in s.snapshots
  {
    shelf + s.snapshots[t.snapshot].byHash.Keys + {sha(t.top.gz)}
  }

  ghost predicate PhaseShelf(s: Store, sha: string -> string) {
    match s.phase
    case Adding(_, _, _, _, _) => AddingShelf(s, sha)
    case Staged(_, sid, tree) => sid in s.snapshots &&
        Right(s.index, s.bytes, sha) == s.shelf + s.snapshots[sid].byHash.Keys
    case Signed(_, sid, tree) =>
      tree.snapshot in s.snapshots && Right(tree.byHash, s.bytes, sha) == Served(s, tree, s.shelf, sha)
    case _ => true
  }

  ghost predicate ShelfSound(s: Store, key: Key, sha: string -> string)
    requires key in s.publications
  {
    && key in s.shelves && s.publications[key].snapshot in s.snapshots
    && Right(s.publications[key].byHash, s.bytes, sha) == Served(s, s.publications[key], s.shelves[key], sha)
  }

  ghost predicate ShelvesSound(s: Store, tools: Tools) {
    PhaseShelf(s, tools.sha) && forall key :: key in s.publications ==> ShelfSound(s, key, tools.sha)
  }

  lemma RightStays(links: map<string, Inode>, a: Store, b: Store, sha: string -> string)
    requires Grows(a, b) && forall d :: d in links ==> links[d] in a.bytes && Half(a) != Some(links[d])
    ensures Right(links, b.bytes, sha) == Right(links, a.bytes, sha)
  {
  }

  lemma ShelfStays(a: Store, b: Store, key: Key, tools: Tools)
    requires FilesSound(a, tools) && Grows(a, b) && key in a.publications && ShelfSound(a, key, tools.sha)
    requires key in b.shelves && b.shelves[key] == a.shelves[key]
    ensures ShelfSound(b, key, tools.sha)
  {
    var t := a.publications[key];
    assert Kept(t, SuiteOf(key.channel), a, tools) && Avoids(t, Half(a));
    RightStays(t.byHash, a, b, tools.sha);
  }

  /** The snapshot's by-hash files are what their names say. */
  lemma SourceIsRight(s: Store, c: Copy, tools: Tools)
    requires FilesSound(s, tools) && s.phase.Adding? && c in s.phase.order && c.IndexFile?
    ensures c.from in s.bytes && tools.sha(s.bytes[c.from]) == c.digest
  {
    var t := s.snapshots[s.phase.sid];
    assert SnapshotSound(t, s.phase.sid, s.bytes, tools);
  }

  lemma OneMoreDigest(order: seq<Copy>, k: nat)
    requires k < |order|
    ensures Digests(order[..k + 1]) == Digests(order[..k]) + if order[k].IndexFile? then {order[k].digest} else {}
  {
    assert order[..k + 1] == order[..k] + [order[k]];
  }

  /** The next file of the snapshot is, if it is a by-hash file, what its name says. */
  predicate SourceRight(s: Store, sha: string -> string) {
    Current(s) && (s.phase.order[s.phase.k].IndexFile? ==>
                   sha(s.bytes[s.phase.order[s.phase.k].from]) == s.phase.order[s.phase.k].digest)
  }

  lemma PresentShelf(s: Store, t: Store, sha: string -> string)
    requires IsPresent(s, sha) && SourceRight(s, sha) && AddingShelf(s, sha) && t == Skipped(s)
    ensures AddingShelf(t, sha)
  {
    var c := s.phase.order[s.phase.k];
    OneMoreDigest(s.phase.order, s.phase.k);
    if c.IndexFile? {
      assert c.digest in Settled(s, sha);
    }
    assert Settled(t, sha) == Settled(s, sha);
  }

  lemma StartSettles(s: Store, t: Store, inode: Inode, sha: string -> string)
    requires Half(s).None? && Half(t) == Some(inode) && inode !in s.bytes &&
             (forall d :: d in s.index ==> s.index[d] in s.bytes)
    requires forall n :: n in s.bytes ==> n in t.bytes && t.bytes[n] == s.bytes[n]
    requires forall d :: d in t.index ==> (if d in s.index then t.index[d] == s.index[d] else t.index[d] == inode)
    requires forall d :: d in s.index ==> d in t.index
    ensures Settled(t, sha) == Settled(s, sha)
  {
  }

  lemma StartNames(s: Store, t: Store, inode: Inode, part: string)
    requires CanStart(s, inode, part) && t == Started(s, inode, part)
    ensures t.phase == s.phase.(half := Some(inode)) && t.shelf == s.shelf && t.bytes == s.bytes[inode := part]
    ensures forall d :: d in s.index ==> d in t.index && t.index[d] == s.index[d]
    ensures forall d :: d in t.index && d !in s.index ==> t.index[d] == inode && Names(s.phase.order[s.phase.k], d)
  {
    var c := s.phase.order[s.phase.k];
    assert t.index == IndexWith(s.index, c, inode);
    assert c.IndexFile? ==> c.digest !in s.index;
  }

  lemma StartShelf(s: Store, t: Store, inode: Inode, part: string, sha: string -> string)
    requires CanStart(s, inode, part) && AddingShelf(s, sha) && t == Started(s, inode, part)
    requires forall d :: d in s.index ==> s.index[d] in s.bytes
    ensures AddingShelf(t, sha)
  {
    StartNames(s, t, inode, part);
    StartSettles(s, t, inode, sha);
  }

  lemma EndSettles(s: Store, t: Store, c: Copy, n: Inode, sha: string -> string)
    requires CanEnd(s) && SourceRight(s, sha) && HalfIsNamed(s) && t == Completed(s) && c == s.phase.order[s.phase.k]
    requires s.phase.half == Some(n) && Target(s, c) == Some(n)
    ensures Settled(t, sha) == Settled(s, sha) + if c.IndexFile? then {c.digest} else {}
  {
    forall d ensures d in Settled(t, sha) <==> d in Settled(s, sha) || Names(c, d) {
      if d in s.index && s.index[d] == n {
        assert t.bytes[n] == s.bytes[c.from];
      } else if d in s.index {
        assert s.index[d] in s.bytes ==> t.bytes[s.index[d]] == s.bytes[s.index[d]];
      }
    }
  }

  lemma EndShelf(s: Store, t: Store, sha: string -> string)
    requires CanEnd(s) && SourceRight(s, sha) && AddingShelf(s, sha) && t == Completed(s)
    requires Target(s, s.phase.order[s.phase.k]) == s.phase.half
    ensures AddingShelf(t, sha)
  {
    OneMoreDigest(s.phase.order, s.phase.k);
    EndSettles(s, t, s.phase.order[s.phase.k], s.phase.half.value, sha);
  }

  lemma AllDigests(order: seq<Copy>, t: Tree)
    requires Sources(order, t)
    ensures Digests(order) == t.byHash.Keys
  {
    forall d | d in t.byHash ensures d in Digests(order) {
      assert IndexFile(d, t.byHash[d]) in order;
    }
  }

  lemma StageShelf(s: Store, l: Step, t: Store, tools: Tools)
    requires PhaseSound(s, tools) && PhaseShelf(s, tools.sha) && Enabled(s, l, tools) && l.Stage? &&
             t == Do(s, l, tools)
    ensures PhaseShelf(t, tools.sha)
  {
    assert s.phase.order[..s.phase.k] == s.phase.order;
    AllDigests(s.phase.order, s.snapshots[s.phase.sid]);
    AllSettled(s, tools.sha);
  }

  lemma AllSettled(s: Store, sha: string -> string)
    requires Half(s).None?
    ensures Settled(s, sha) == Right(s.index, s.bytes, sha)
  {
  }

  /** What signing adds to the by-hash files. */
  lemma RightOfSigned(links: map<string, Inode>, bytes: map<Inode, string>, t: Tree, gz: string,
                      made: map<Inode, string>,
                      added: map<string, Inode>, sha: string -> string)
    requires t.byHash == links && Adds(t, gz, made, added, sha) && (forall d :: d in links ==> links[d] in bytes)
    requires (forall n :: n in made ==> n !in bytes) && Unclashed(links, bytes, t.top.packages, sha) &&
             Unclashed(links, bytes, gz, sha)
    ensures Right(links + added, bytes + made, sha) == Right(links, bytes, sha) + {sha(t.top.packages), sha(gz)}
  {
    var all, both := Right(links + added, bytes + made, sha), {sha(t.top.packages), sha(gz)};
    forall d ensures d in all <==> d in Right(links, bytes, sha) || d in both {
      if d in links {
        assert d !in added && (bytes + made)[links[d]] == bytes[links[d]];
      } else if d in both {
        assert d in added && (bytes + made)[added[d]] == made[added[d]];
      }
    }
  }

  lemma SignShelf(s: Store, l: Step, t: Store, tools: Tools)
    requires PhaseSound(s, tools) && StoreAllocated(s) && SnapshotsSound(s, tools)
    requires PhaseShelf(s, tools.sha) && Enabled(s, l, tools) && l.Sign? && t == Do(s, l, tools)
    ensures PhaseShelf(t, tools.sha)
  {
    SnapshotHasItsIndex(s, s.phase.sid, tools);
    SignedServes(s, l, t, tools);
  }

  lemma SignedServes(s: Store, l: Step, t: Store, tools: Tools)
    requires s.phase.Staged? && PhaseShelf(s, tools.sha) && Enabled(s, l, tools) && l.Sign? && t == Do(s, l, tools)
    requires s.phase.sid in s.snapshots && s.phase.tree.byHash == s.index && s.phase.tree.snapshot == s.phase.sid
    requires tools.sha(s.phase.tree.top.packages) in s.snapshots[s.phase.sid].byHash.Keys
    requires forall d :: d in s.index ==> s.index[d] in s.bytes
    ensures PhaseShelf(t, tools.sha)
  {
    var tree, source := s.phase.tree, s.snapshots[s.phase.sid];
    RightOfSigned(s.index, s.bytes, tree, l.gz, l.made, l.added, tools.sha);
    SignServes(s.shelf, source.byHash.Keys, tools.sha(tree.top.packages), tools.sha(l.gz));
  }

  lemma SignServes(shelf: set<string>, own: set<string>, index: string, gz: string)
    requires index in own
    ensures (shelf + own) + {index, gz} == shelf + own + {gz}
  {
  }

  lemma SnapshotHasItsIndex(s: Store, sid: Sid, tools: Tools)
    requires SnapshotsSound(s, tools) && sid in s.snapshots
    ensures s.snapshots[sid].snapshot == sid && tools.sha(s.snapshots[sid].top.packages) in s.snapshots[sid].byHash.Keys
  {
    assert SnapshotSound(s.snapshots[sid], sid, s.bytes, tools);
  }

  lemma SourceIsNext(s: Store, tools: Tools)
    requires FilesSound(s, tools) && Current(s)
    ensures SourceRight(s, tools.sha)
  {
    var c := s.phase.order[s.phase.k];
    assert c in s.phase.order;
    if c.IndexFile? {
      SourceIsRight(s, c, tools);
    }
  }

  lemma AddingStepShelf(s: Store, l: Step, t: Store, tools: Tools)
    requires FilesSound(s, tools) && PhaseShelf(s, tools.sha) && Enabled(s, l, tools) && t == Do(s, l, tools)
    requires l.Present? || l.StartCopy? || l.EndCopy?
    ensures PhaseShelf(t, tools.sha)
  {
    SourceIsNext(s, tools);
    if l.Present? {
      PresentShelf(s, t, tools.sha);
    } else if l.StartCopy? {
      StartShelf(s, t, l.inode, l.part, tools.sha);
    } else {
      EndShelf(s, t, tools.sha);
    }
  }

  lemma BeginShelf(s: Store, l: Step, t: Store, tools: Tools)
    requires Enabled(s, l, tools) && l.Begin? && t == Do(s, l, tools)
    ensures PhaseShelf(t, tools.sha)
  {
    assert l.order[..0] == [];
    AllSettled(t, tools.sha);
  }

  lemma StepKeepsPhaseShelf(s: Store, l: Step, t: Store, tools: Tools)
    requires FilesSound(s, tools) && PhaseShelf(s, tools.sha) && Enabled(s, l, tools) && t == Do(s, l, tools)
    ensures PhaseShelf(t, tools.sha)
  {
    if l.Begin? {
      BeginShelf(s, l, t, tools);
    } else if l.Present? || l.StartCopy? || l.EndCopy? {
      AddingStepShelf(s, l, t, tools);
    } else if l.Stage? {
      StageShelf(s, l, t, tools);
    } else if l.Sign? {
      SignShelf(s, l, t, tools);
    }
  }

  lemma OldShelvesStay(s: Store, l: Step, t: Store, tools: Tools)
    requires Enabled(s, l, tools) && t == Do(s, l, tools)
    ensures forall key :: key in s.shelves && key in s.publications ==>
            key in t.shelves && t.shelves[key] == s.shelves[key]
    ensures !l.Publish? ==> t.publications == s.publications
  {
    if l.Publish? {
      assert t == Placed(s, Key(s.phase.channel, l.id));
    } else {
      assert t.shelves == s.shelves && t.publications == s.publications;
    }
  }

  lemma PlacedShelf(s: Store, l: Step, t: Store, tools: Tools)
    requires PhaseShelf(s, tools.sha) && Enabled(s, l, tools) && l.Publish? && t == Do(s, l, tools)
    ensures ShelfSound(t, Key(s.phase.channel, l.id), tools.sha)
    ensures t.publications.Keys == s.publications.Keys + {Key(s.phase.channel, l.id)}
  {
  }

  lemma StepKeepsShelves(s: Store, l: Step, t: Store, tools: Tools)
    requires FilesSound(s, tools) && ShelvesSound(s, tools) && Enabled(s, l, tools) && t == Do(s, l, tools)
    ensures ShelvesSound(t, tools)
  {
    StepKeepsPhaseShelf(s, l, t, tools);
    ShelvesOfOld(s, l, t, tools);
    if l.Publish? {
      PlacedShelf(s, l, t, tools);
    }
  }

  lemma ShelvesOfOld(s: Store, l: Step, t: Store, tools: Tools)
    requires FilesSound(s, tools) && ShelvesSound(s, tools) && Enabled(s, l, tools) && t == Do(s, l, tools)
    ensures forall key :: key in s.publications ==> key in t.publications && ShelfSound(t, key, tools.sha)
    ensures !l.Publish? ==> t.publications == s.publications
  {
    StepGrows(s, l, tools);
    OldShelvesStay(s, l, t, tools);
    forall key | key in s.publications ensures ShelfSound(t, key, tools.sha) {
      ShelfStays(s, t, key, tools);
    }
  }

  lemma StepKeeps(s: Store, l: Step, tools: Tools, known: set<string>)
    requires Inv(s, tools) && Enabled(s, l, tools) && Hashes(tools.sha, known) && Knows(known, s) && Brings(l) <= known
    ensures Inv(Do(s, l, tools), tools) && Knows(known, Do(s, l, tools))
  {
    StepKnows(known, s, l, tools);
    StepKeepsFiles(s, l, tools, known);
    StepKeepsVisible(s, l, Do(s, l, tools), tools);
    StepKeepsFollowing(s, l, tools);
    StepKeepsShelves(s, l, Do(s, l, tools), tools);
  }

  // ----- whole runs -----------------------------------------------------------------------------------

  ghost predicate Follows(s: Store, run: seq<Step>, tools: Tools)
    decreases |run|, 0
  {
    run == [] || (Follows(s, run[..|run| - 1], tools) &&
                  Enabled(After(s, run[..|run| - 1], tools), run[|run| - 1], tools))
  }

  ghost function After(s: Store, run: seq<Step>, tools: Tools): Store
    requires Follows(s, run, tools)
    decreases |run|, 1
  {
    if run == [] then s else Do(After(s, run[..|run| - 1], tools), run[|run| - 1], tools)
  }

  /** These steps lead from `s` to `end`. */
  ghost predicate Leads(s: Store, run: seq<Step>, end: Store, tools: Tools) {
    Follows(s, run, tools) && After(s, run, tools) == end
  }

  lemma NoStep(s: Store, tools: Tools)
    ensures Leads(s, [], s, tools)
  {
  }

  lemma Then(s: Store, run: seq<Step>, now: Store, tools: Tools, l: Step)
    requires Leads(s, run, now, tools) && Enabled(now, l, tools)
    ensures Leads(s, run + [l], Do(now, l, tools), tools)
  {
    var longer := run + [l];
    assert longer[..|longer| - 1] == run && longer[|longer| - 1] == l;
    assert Follows(s, longer, tools);
  }

  /** All contents that a run brings along. */
  function ContentsOf(run: seq<Step>): set<string> {
    if run == [] then {} else ContentsOf(run[..|run| - 1]) + Brings(run[|run| - 1])
  }

  lemma {:induction false} RunKeeps(s: Store, run: seq<Step>, tools: Tools, known: set<string>)
    requires Inv(s, tools) && Knows(known, s) && Follows(s, run, tools) && Hashes(tools.sha, known) &&
             ContentsOf(run) <= known
    ensures Inv(After(s, run, tools), tools) && Knows(known, After(s, run, tools))
    decreases run
  {
    if run != [] {
      RunKeeps(s, run[..|run| - 1], tools, known);
      StepKeeps(After(s, run[..|run| - 1], tools), run[|run| - 1], tools, known);
    }
  }

  /** The directory holds, right to the byte, each package a text lists. */
  ghost predicate Serves(p: Tree, text: string, bytes: map<Inode, string>, sha: string -> string) {
    forall package :: package in Listed(text) ==> Holds(Contents(p.pool, bytes), package, sha)
  }

  lemma OffersServes(p: Tree, q: Tree, suite: string, gz: bool, bytes: map<Inode, string>, tools: Tools)
    requires Sound(q, suite, bytes, tools) && Allocated(p, bytes) && Offers(p, q, gz, tools)
    ensures Serves(p, q.top.packages, bytes, tools.sha) && Indexed(p.byHash, bytes, q.top.packages, tools.sha)
    ensures gz ==> Indexed(p.byHash, bytes, q.top.gz, tools.sha)
  {
    forall package | package in Listed(q.top.packages) ensures Holds(Contents(p.pool, bytes), package, tools.sha) {
      ListedHolds(q.top.packages, Contents(q.pool, bytes), package, tools.sha);
      assert q.pool[package.path] == p.pool[package.path];
    }
  }

  lemma ListedHolds(text: string, files: Files, package: Package, sha: string -> string)
    requires Valid(text, files, sha) && package in Listed(text)
    ensures Holds(files, package, sha)
  {
    var ps := PackagesOf(Stanzas.Records(text).value);
    var i :| 0 <= i < |ps| && ps[i].Some? && ps[i].value == package;
  }

  /** The by-hash files of `p` have this text exactly if the shelf or its snapshot had it, or it was made for `p`. */
  ghost predicate HasTextIff(s: Store, p: Key, text: string, sha: string -> string)
    requires p in s.publications && p in s.shelves && s.publications[p].snapshot in s.snapshots
  {
    Indexed(s.publications[p].byHash, s.bytes, text, sha) <==>
      || sha(text) in s.shelves[p] || sha(text) in s.snapshots[s.publications[p].snapshot].byHash
      || text == s.publications[p].top.gz
  }

  /**
   * Everything a client of `q` may still ask for is in `p`, to the byte; but the compressed index of `q` only under the
   * exact condition above, which holds if `q` was compressed as its snapshot was.
   */
  ghost predicate Replaces(s: Store, p: Key, q: Key, tools: Tools) {
    && p in s.publications && q in s.publications && p in s.shelves && s.publications[p].snapshot in s.snapshots
    && Serves(s.publications[p], s.publications[q].top.packages, s.bytes, tools.sha)
    && Indexed(s.publications[p].byHash, s.bytes, s.publications[q].top.packages, tools.sha)
    && HasTextIff(s, p, s.publications[q].top.gz, tools.sha)
    && (SameCompression(s.publications[q], s) ==>
          Indexed(s.publications[p].byHash, s.bytes, s.publications[q].top.gz, tools.sha))
  }

  /** Among contents without collisions, a text is there exactly if its digest is held rightly. */
  lemma IndexedIsRight(links: map<string, Inode>, bytes: map<Inode, string>, text: string, sha: string -> string,
                       known: set<string>)
    requires Hashes(sha, known) && text in known && forall n :: n in bytes ==> bytes[n] in known
    ensures Indexed(links, bytes, text, sha) <==> sha(text) in Right(links, bytes, sha)
  {
  }

  /** For any text: exactly when a publication has it by hash. */
  lemma HasText(s: Store, p: Key, text: string, sha: string -> string, known: set<string>)
    requires p in s.publications && ShelfSound(s, p, sha) && s.publications[p].top.gz in known
    requires Knows(known, s) && Hashes(sha, known) && text in known
    ensures HasTextIff(s, p, text, sha)
  {
    IndexedIsRight(s.publications[p].byHash, s.bytes, text, sha, known);
  }

  lemma PublicationIsKnown(s: Store, p: Key, tools: Tools, known: set<string>)
    requires Inv(s, tools) && Knows(known, s) && p in s.publications
    ensures Kept(s.publications[p], SuiteOf(p.channel), s, tools) && ShelfSound(s, p, tools.sha) &&
            s.publications[p].top.gz in known
  {
    assert Kept(s.publications[p], SuiteOf(p.channel), s, tools);
  }

  lemma OffersReplaces(s: Store, p: Key, q: Key, tools: Tools, known: set<string>)
    requires Inv(s, tools) && Knows(known, s) && Hashes(tools.sha, known) && KeyOffers(s, p, q, tools)
    ensures Replaces(s, p, q, tools)
  {
    var t, u := s.publications[p], s.publications[q];
    PublicationIsKnown(s, p, tools, known);
    PublicationIsKnown(s, q, tools, known);
    OffersServes(t, u, SuiteOf(q.channel), SameCompression(u, s), s.bytes, tools);
    HasText(s, p, u.top.gz, tools.sha, known);
  }

  /**
   * Availability is monotone, if no two contents of the run share a digest: whatever a channel points at holds, with
   * matching bytes, every package file and the by-hash index of every publication that was visible up to its own
   * switch, on either channel; and the compressed index of each exactly under the condition in `Replaces`.
   */
  lemma MonotoneAvailability(run: seq<Step>, tools: Tools, c: Channel) returns (j: nat)
    requires Hashes(tools.sha, ContentsOf(run)) && Follows(EMPTY, run, tools) && c in After(EMPTY, run, tools).pointers
    ensures var s := After(EMPTY, run, tools);
            && j < |s.visible| && s.visible[j] == s.pointers[c] && s.pointers[c].channel == c
            && (forall n :: j < n < |s.visible| ==> s.visible[n].channel != c)
            && (forall i :: 0 <= i <= j ==> Replaces(s, s.pointers[c], s.visible[i], tools))
  {
    RunIsSound(run, tools, ContentsOf(run));
    var s := After(EMPTY, run, tools);
    j := LatestOffers(s, c, tools, ContentsOf(run));
  }

  lemma RunIsSound(run: seq<Step>, tools: Tools, known: set<string>)
    requires Hashes(tools.sha, known) && ContentsOf(run) <= known && Follows(EMPTY, run, tools)
    ensures Inv(After(EMPTY, run, tools), tools) && Knows(known, After(EMPTY, run, tools))
  {
    InitiallySound(tools);
    RunKeeps(EMPTY, run, tools, known);
  }

  lemma EarlierIsOffered(s: Store, i: nat, j: nat, tools: Tools)
    requires VisibleSound(s, tools) && i <= j < |s.visible|
    ensures KeyOffers(s, s.visible[j], s.visible[i], tools)
  {
  }

  lemma LatestOfPointer(s: Store, c: Channel, tools: Tools) returns (j: nat)
    requires VisibleSound(s, tools) && c in s.pointers
    ensures j < |s.visible| && s.visible[j] == s.pointers[c] && s.pointers[c].channel == c
    ensures forall n :: j < n < |s.visible| ==> s.visible[n].channel != c
  {
    var n := |s.visible|;
    j :| 0 <= j < n && s.visible[j] == s.pointers[c] &&
        forall m :: j < m < n ==> s.visible[m].channel != s.pointers[c].channel;
  }

  lemma LatestOffers(s: Store, c: Channel, tools: Tools, known: set<string>) returns (j: nat)
    requires Inv(s, tools) && Knows(known, s) && Hashes(tools.sha, known) && c in s.pointers
    ensures j < |s.visible| && s.visible[j] == s.pointers[c] && s.pointers[c].channel == c
    ensures forall n :: j < n < |s.visible| ==> s.visible[n].channel != c
    ensures forall i :: 0 <= i <= j ==> Replaces(s, s.pointers[c], s.visible[i], tools)
  {
    j := LatestOfPointer(s, c, tools);
    forall i | 0 <= i <= j ensures Replaces(s, s.visible[j], s.visible[i], tools) {
      EarlierIsOffered(s, i, j, tools);
      OffersReplaces(s, s.visible[j], s.visible[i], tools, known);
    }
  }

  /**
   * Exactly when a compressed index, or any other text, is served under its digest: for every run, every publication
   * and every text, if the shared index held it when that promotion began, its snapshot has it, or signing just made
   * it.
   */
  lemma CompressedIndexIsKeptIff(run: seq<Step>, tools: Tools, p: Key, text: string)
    requires Hashes(tools.sha, ContentsOf(run) + {text}) && Follows(EMPTY, run, tools) &&
             p in After(EMPTY, run, tools).publications
    ensures var s := After(EMPTY, run, tools);
            p in s.shelves && s.publications[p].snapshot in s.snapshots && HasTextIff(s, p, text, tools.sha)
  {
    RunIsSound(run, tools, ContentsOf(run) + {text});
    PublicationIsKnown(After(EMPTY, run, tools), p, tools, ContentsOf(run) + {text});
    HasText(After(EMPTY, run, tools), p, text, tools.sha, ContentsOf(run) + {text});
  }

  /** Stable only ever shows a snapshot that testing showed when it was promoted. */
  lemma StableOnlyFollowsTesting(run: seq<Step>, tools: Tools, n: nat) returns (tested: Key)
    requires Hashes(tools.sha, ContentsOf(run)) && Follows(EMPTY, run, tools)
    requires n < |After(EMPTY, run, tools).visible| && After(EMPTY, run, tools).visible[n].channel == Stable
    ensures var s := After(EMPTY, run, tools);
            SameSnapshot(s, tested, s.visible[n]) && Latest(s.visible, n, tested)
  {
    RunIsSound(run, tools, ContentsOf(run));
    var s := After(EMPTY, run, tools);
    assert Tested(s, n, s.visible[n]);
    tested :| SameSnapshot(s, tested, s.visible[n]) && Latest(s.visible, n, tested);
  }

  /**
   * Pointers change only by a whole switch, to a directory that is sound by then; all else leaves both as they were.
   */
  lemma PointersSwitchWhole(s: Store, l: Step, tools: Tools)
    requires PublicationsSound(s, tools) && PhaseSound(s, tools) && Enabled(s, l, tools)
    ensures !l.Switch? ==> Do(s, l, tools).pointers == s.pointers
    ensures l.Switch? ==>
              && Do(s, l, tools) == Switched(s) && s.phase.key in s.publications
              && Sound(s.publications[s.phase.key], SuiteOf(s.phase.key.channel), s.bytes, tools)
  {
    if l.Switch? {
      assert Kept(s.publications[s.phase.key], SuiteOf(s.phase.key.channel), s, tools);
    } else {
      OnlySwitchesSwitch(s, l, tools);
    }
  }

  /** The next file has a namesake of other content in the shared store, such as one a crash left half copied. */
  predicate Clashes(s: Store) {
    && Current(s) && s.phase.half.None? && Target(s, s.phase.order[s.phase.k]).Some?
    && Target(s, s.phase.order[s.phase.k]).value in s.bytes
    && s.bytes[Target(s, s.phase.order[s.phase.k]).value] != s.bytes[s.phase.order[s.phase.k].from]
  }

  lemma ClashIsNoCopy(s: Store, inode: Inode, part: string, sha: string -> string, known: set<string>)
    requires Clashes(s) && Hashes(sha, known) && Knows(known, s)
    ensures !IsPresent(s, sha) && !CanStart(s, inode, part) && !CanEnd(s)
  {
  }

  /** Such a file stops the promotion there, before anything a client sees has changed. */
  lemma HalfCopyBlocks(s: Store, l: Step, tools: Tools, known: set<string>)
    requires Hashes(tools.sha, known) && Knows(known, s) && Enabled(s, l, tools) && Clashes(s)
    ensures l == Stop
  {
    ClashIsNoCopy(s, 0, "", tools.sha, known);
    if l.StartCopy? {
      ClashIsNoCopy(s, l.inode, l.part, tools.sha, known);
    }
  }
}
