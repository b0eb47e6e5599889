/**
 * The package store of repo.py: snapshots, the shared pool and index, publications and the two channel pointers, one
 * file operation at a time, with a crash possible between any two.
 */
module Repository {
  import opened Text
  import opened Packages
  import opened Verification
  import Stanzas

  type Inode = nat
  type Sid = string

  datatype Channel = Testing | Stable

  datatype Key = Key(channel: Channel, id: string)

  /**
   * A directory, signed once it has a Release. The files at its top are its own; pool and by-hash entries are links to
   * inodes. `snapshot` is what its manifest names.
   */
  datatype Tree = Tree(top: Top, release: Option<Signature>, snapshot: Sid, pool: map<Path, Inode>,
                       byHash: map<string, Inode>)

  /** A file of the snapshot that goes into the shared store. */
  datatype Copy = PoolFile(path: Path, from: Inode) | IndexFile(digest: string, from: Inode)

  /** Where a promotion stands; `half` is the inode being written. */
  datatype Phase =
    | Idle
    | Adding(channel: Channel, sid: Sid, order: seq<Copy>, k: nat, half: Option<Inode>)
    | Staged(channel: Channel, sid: Sid, tree: Tree)
    | Signed(channel: Channel, sid: Sid, tree: Tree)
    | Published(key: Key)
    | Audited(key: Key)

  /**
   * Three histories: `visible`, the publications a pointer was switched to, in order; `shelf`, the digests that the
   * shared index held rightly when the promotion under way began; `shelves`, that of each publication.
   */
  datatype Store = Store(bytes: map<Inode, string>, pool: map<Path, Inode>, index: map<string, Inode>,
                         snapshots: map<Sid, Tree>, publications: map<Key, Tree>, pointers: map<Channel, Key>,
                         audit: set<Key>, phase: Phase, visible: seq<Key>,
                         shelf: set<string>, shelves: map<Key, set<string>>)

  const EMPTY := Store(map[], map[], map[], map[], map[], map[], {}, Idle, [], {}, map[])

  function SuiteOf(channel: Channel): string {
    match channel
    case Testing => "testing"
    case Stable => "stable"
  }

  // ----- directories ------------------------------------------------------------------

  /** The contents of linked files. */
  function Contents(links: map<Path, Inode>, bytes: map<Inode, string>): Files {
    map p | p in links && links[p] in bytes :: bytes[links[p]]
  }

  /** The by-hash file of this text is there and is this text. */
  predicate Indexed(links: map<string, Inode>, bytes: map<Inode, string>, text: string, sha: string -> string) {
    sha(text) in links && links[sha(text)] in bytes && bytes[links[sha(text)]] == text
  }

  predicate Allocated(t: Tree, bytes: map<Inode, string>) {
    && (forall p :: p in t.pool ==> t.pool[p] in bytes)
    && (forall d :: d in t.byHash ==> t.byHash[d] in bytes)
  }

  /** Signed as this suite, over the files as they are. */
  predicate SignedAs(t: Tree, suite: string) {
    && t.release.Some? && t.release.value.suite == suite && t.release.value.over == t.top
    && GoodHeading(t.release.value.heading)
  }

  /** A signed directory: a good index of its own pool, signed as it is, with both of its indexes by hash. */
  predicate Sound(t: Tree, suite: string, bytes: map<Inode, string>, tools: Tools) {
    && Allocated(t, bytes) && Valid(t.top.packages, Contents(t.pool, bytes), tools.sha)
    && tools.gunzip(t.top.gz) == Some(t.top.packages)
    && SignedAs(t, suite) && tools.identity(t.top.manifest) == Some(t.snapshot)
    && Indexed(t.byHash, bytes, t.top.packages, tools.sha) && Indexed(t.byHash, bytes, t.top.gz, tools.sha)
  }

  /** The digests under which these links hold content of that very digest. */
  function Right(links: map<string, Inode>, bytes: map<Inode, string>, sha: string -> string): set<string> {
    set d | d in links && links[d] in bytes && sha(bytes[links[d]]) == d
  }

  /** An index entry that is present has the right digest. */
  predicate Unclashed(links: map<string, Inode>, bytes: map<Inode, string>, text: string, sha: string -> string) {
    sha(text) in links ==> links[sha(text)] in bytes && sha(bytes[links[sha(text)]]) == sha(text)
  }

  // ----- the steps -------------------------------------------------------------------------

  datatype Step =
    | Snapshot(sid: Sid, source: string, files: Files, tree: Tree, made: map<Inode, string>)
    | Begin(channel: Channel, sid: Sid, order: seq<Copy>)
    | Present
    | StartCopy(inode: Inode, part: string)
    | EndCopy
    | Stage(promotion: string)
    | Sign(gz: string, heading: Heading, made: map<Inode, string>, added: map<string, Inode>)
    | Publish(id: string)
    | Audit
    | Switch
    | Stop

  /** The rewritten index, compressed, and a manifest that names the snapshot, signed. */
  predicate SnapshotSigned(t: Tree, sid: Sid, source: string, tools: Tools)
    requires Stanzas.Records(source).Ok?
  {
    && t.top.packages == Stanzas.Encode(Rewritten(Stanzas.Records(source).value)) &&
       tools.gunzip(t.top.gz) == Some(t.top.packages)
    && t.snapshot == sid && tools.identity(t.top.manifest) == Some(sid) && t.top.promotion.None? &&
       SignedAs(t, "snapshot")
  }

  /** The stage of a snapshot: copies of the source's packages in new inodes, and its signed index. */
  predicate Snapshots(l: Step, bytes: map<Inode, string>, tools: Tools)
    requires l.Snapshot?
  {
    && Valid(l.source, l.files, tools.sha)
    && SnapshotSigned(l.tree, l.sid, l.source, tools)
    && (forall n :: n in l.made ==> n !in bytes)
    && (forall p :: p in l.tree.pool ==> l.tree.pool[p] in l.made) &&
       (forall d :: d in l.tree.byHash ==> l.tree.byHash[d] in l.made)
    && Contents(l.tree.pool, l.made) == Copied(PackagesOf(Stanzas.Records(l.source).value), l.files)
    && OwnIndex(l.tree, tools.sha)
    && Indexed(l.tree.byHash, l.made, l.tree.top.packages, tools.sha) &&
       Indexed(l.tree.byHash, l.made, l.tree.top.gz, tools.sha)
  }

  /** A snapshot has exactly its own two indexes by hash. */
  predicate OwnIndex(t: Tree, sha: string -> string) {
    t.byHash.Keys == {sha(t.top.packages), sha(t.top.gz)}
  }

  /** Every file of the snapshot's pool and index, in some order. */
  predicate Sources(order: seq<Copy>, t: Tree) {
    && (forall c :: c in order ==> if c.PoolFile? then c.path in t.pool && t.pool[c.path] == c.from
                                   else c.digest in t.byHash && t.byHash[c.digest] == c.from)
    && (forall p :: p in t.pool ==> PoolFile(p, t.pool[p]) in order)
    && (forall d :: d in t.byHash ==> IndexFile(d, t.byHash[d]) in order)
  }

  function Target(s: Store, c: Copy): Option<Inode> {
    match c
    case PoolFile(path, _) => if path in s.pool then Some(s.pool[path]) else None
    case IndexFile(digest, _) => if digest in s.index then Some(s.index[digest]) else None
  }

  function PoolWith(pool: map<Path, Inode>, c: Copy, n: Inode): map<Path, Inode> {
    if c.PoolFile? then pool[c.path := n] else pool
  }

  function IndexWith(index: map<string, Inode>, c: Copy, n: Inode): map<string, Inode> {
    if c.IndexFile? then index[c.digest := n] else index
  }

  predicate Current(s: Store) {
    s.phase.Adding? && s.phase.k < |s.phase.order| && s.phase.order[s.phase.k].from in s.bytes
  }

  /** The next file is in the shared store already, with the same digest. */
  predicate IsPresent(s: Store, sha: string -> string) {
    && Current(s) && s.phase.half.None? && Target(s, s.phase.order[s.phase.k]).Some?
    && Target(s, s.phase.order[s.phase.k]).value in s.bytes
    && sha(s.bytes[Target(s, s.phase.order[s.phase.k]).value]) == sha(s.bytes[s.phase.order[s.phase.k].from])
  }

  function Skipped(s: Store): Store
    requires Current(s)
  {
    s.(phase := s.phase.(k := s.phase.k + 1))
  }

  predicate CanStart(s: Store, inode: Inode, part: string) {
    && Current(s) && s.phase.half.None? && Target(s, s.phase.order[s.phase.k]).None?
    && inode !in s.bytes && part <= s.bytes[s.phase.order[s.phase.k].from]
  }

  /** The file exists under its name, with something in it, before all of it is there. */
  function Started(s: Store, inode: Inode, part: string): Store
    requires CanStart(s, inode, part)
  {
    var c := s.phase.order[s.phase.k];
    s.(pool := PoolWith(s.pool, c, inode), index := IndexWith(s.index, c, inode), bytes := s.bytes[inode := part],
       phase := s.phase.(half := Some(inode)))
  }

  /** By-hash files, in new inodes, for those of the two index files that had none. */
  predicate Adds(t: Tree, gz: string, made: map<Inode, string>, added: map<string, Inode>, sha: string -> string) {
    && (forall d :: d in added ==> added[d] in made)
    && added.Keys == {sha(t.top.packages), sha(gz)} - t.byHash.Keys
    && (sha(gz) in added ==> made[added[sha(gz)]] == gz)
    && (sha(t.top.packages) in added ==> made[added[sha(t.top.packages)]] == t.top.packages)
  }

  /** The index compressed anew, a Release over it, and by-hash links added. */
  function WithIndex(t: Tree, gz: string, suite: string, h: Heading, added: map<string, Inode>): Tree {
    var m := t.top.(gz := gz);
    t.(top := m, release := Some(Signature(suite, h, m)), byHash := t.byHash + added)
  }

  /** What `sign_flat` needs of a staged directory. */
  predicate Signable(t: Tree, gz: string, bytes: map<Inode, string>, tools: Tools) {
    && Valid(t.top.packages, Contents(t.pool, bytes), tools.sha) && tools.gunzip(gz) == Some(t.top.packages)
    && Unclashed(t.byHash, bytes, t.top.packages, tools.sha) && Unclashed(t.byHash, bytes, gz, tools.sha)
  }

  function WithSigned(s: Store, gz: string, h: Heading, made: map<Inode, string>, added: map<string, Inode>): Store
    requires s.phase.Staged?
  {
    s.(bytes := s.bytes + made,
       phase := Signed(s.phase.channel, s.phase.sid, WithIndex(s.phase.tree, gz, SuiteOf(s.phase.channel), h, added)))
  }

  /**
   * The directory before signing: the snapshot's files, the record of the promotion, and links to all that is shared.
   */
  function StagedTree(s: Store, sid: Sid, promotion: string): Tree
    requires sid in s.snapshots
  {
    Tree(s.snapshots[sid].top.(promotion := Some(promotion)), None, s.snapshots[sid].snapshot, s.pool, s.index)
  }

  function Switched(s: Store): Store
    requires s.phase.Audited?
  {
    s.(pointers := s.pointers[s.phase.key.channel := s.phase.key], visible := s.visible + [s.phase.key], phase := Idle)
  }

  function Placed(s: Store, key: Key): Store
    requires s.phase.Signed?
  {
    s.(publications := s.publications[key := s.phase.tree], shelves := s.shelves[key := s.shelf],
       phase := Published(key))
  }

  predicate CanEnd(s: Store) {
    Current(s) && s.phase.half.Some?
  }

  function Completed(s: Store): Store
    requires CanEnd(s)
  {
    s.(bytes := s.bytes[s.phase.half.value := s.bytes[s.phase.order[s.phase.k].from]],
       phase := s.phase.(k := s.phase.k + 1, half := None))
  }

  predicate TestingShows(s: Store, sid: Sid) {
    Testing in s.pointers && s.pointers[Testing] in s.publications &&
        s.publications[s.pointers[Testing]].snapshot == sid
  }

  ghost predicate Enabled(s: Store, l: Step, tools: Tools) {
    match l
    case Snapshot(sid, _, _, _, _) => s.phase.Idle? && sid !in s.snapshots && Snapshots(l, s.bytes, tools)
    // Stable takes only what testing shows. That both pass `verify` holds by itself, see `SignedStore`.
    case Begin(channel, sid, order) =>
      && s.phase.Idle? && sid in s.snapshots && s.snapshots[sid].snapshot == sid && Sources(order, s.snapshots[sid])
      && (channel == Stable ==> TestingShows(s, sid))
    case Present => IsPresent(s, tools.sha)
    case StartCopy(inode, part) => CanStart(s, inode, part)
    case EndCopy => CanEnd(s)
    case Stage(_) => s.phase.Adding? && s.phase.k == |s.phase.order| && s.phase.sid in s.snapshots
    case Sign(gz, heading, made, added) =>
      && s.phase.Staged? && Signable(s.phase.tree, gz, s.bytes, tools) && GoodHeading(heading)
      && (forall n :: n in made ==> n !in s.bytes)
      && Adds(s.phase.tree, gz, made, added, tools.sha)
    case Publish(id) => s.phase.Signed? && Key(s.phase.channel, id) !in s.publications
    case Audit => s.phase.Published?
    case Switch => s.phase.Audited?
    // A refusal, a failure or a crash: staging is thrown away, the shared store stays as it is.
    case Stop => true
  }

  ghost function Do(s: Store, l: Step, tools: Tools): Store
    requires Enabled(s, l, tools)
  {
    match l
    case Snapshot(sid, _, _, tree, made) => s.(bytes := s.bytes + made, snapshots := s.snapshots[sid := tree])
    case Begin(channel, sid, order) =>
      s.(phase := Adding(channel, sid, order, 0, None), shelf := Right(s.index, s.bytes, tools.sha))
    case Present => Skipped(s)
    case StartCopy(inode, part) => Started(s, inode, part)
    case EndCopy => Completed(s)
    case Stage(promotion) =>
      s.(phase := Staged(s.phase.channel, s.phase.sid, StagedTree(s, s.phase.sid, promotion)))
    case Sign(gz, heading, made, added) => WithSigned(s, gz, heading, made, added)
    case Publish(id) => Placed(s, Key(s.phase.channel, id))
    case Audit => s.(audit := s.audit + {s.phase.key}, phase := Audited(s.phase.key))
    case Switch => Switched(s)
    case Stop => s.(phase := Idle)
  }

  // ----- what only grows ------------------------------------------------------------------------

  /** The inode being written, if any; all others are never written again. */
  function Half(s: Store): Option<Inode> {
    if s.phase.Adding? then s.phase.half else None
  }

  predicate Within<K, V(==)>(a: map<K, V>, b: map<K, V>) {
    forall k :: k in a ==> k in b && b[k] == a[k]
  }

  /** Names keep their inodes, and inodes their contents, but for the one half written. */
  ghost predicate Grows(a: Store, b: Store) {
    && Within(a.pool, b.pool) && Within(a.index, b.index)
    && Within(a.snapshots, b.snapshots) && Within(a.publications, b.publications)
    && (forall n :: n in a.bytes ==> n in b.bytes && (Half(a) != Some(n) ==> b.bytes[n] == a.bytes[n]))
  }

  predicate Avoids(t: Tree, half: Option<Inode>) {
    half.Some? ==>
      (forall p :: p in t.pool ==> t.pool[p] != half.value) && (forall d :: d in t.byHash ==> t.byHash[d] != half.value)
  }

  lemma SoundStays(t: Tree, suite: string, a: Store, b: Store, tools: Tools)
    requires Sound(t, suite, a.bytes, tools) && Avoids(t, Half(a)) && Grows(a, b)
    ensures Sound(t, suite, b.bytes, tools)
  {
    assert Contents(t.pool, b.bytes) == Contents(t.pool, a.bytes);
  }

  /** The contents that a step brings along. */
  function Brings(l: Step): set<string> {
    match l
    case Snapshot(_, _, files, _, made) => files.Values + made.Values
    case StartCopy(_, part) => {part}
    case Sign(gz, _, made, _) => made.Values + {gz}
    case _ => {}
  }

  /** Everything stored is among these contents. */
  ghost predicate Knows(known: set<string>, s: Store) {
    forall n :: n in s.bytes ==> s.bytes[n] in known
  }

  lemma MoreKnown(known: set<string>, s: Store, made: map<Inode, string>)
    requires Knows(known, s) && made.Values <= known
    ensures Knows(known, s.(bytes := s.bytes + made))
  {
    forall n | n in s.bytes + made ensures (s.bytes + made)[n] in known {
      if n in made {
        assert made[n] in made.Values;
      }
    }
  }

  lemma StepKnows(known: set<string>, s: Store, l: Step, tools: Tools)
    requires Knows(known, s) && Enabled(s, l, tools) && Brings(l) <= known
    ensures Knows(known, Do(s, l, tools))
  {
    match l
    case Snapshot(_, _, _, _, made) => MoreKnown(known, s, made);
    case Sign(_, _, made, _) => MoreKnown(known, s, made);
    case _ =>
  }

  // ----- the invariant --------------------------------------------------------------------------

  ghost predicate StoreAllocated(s: Store) {
    (forall p :: p in s.pool ==> s.pool[p] in s.bytes) && (forall d :: d in s.index ==> s.index[d] in s.bytes)
  }

  /** A half-written file is in no snapshot and no publication. */
  ghost predicate HalfIsApart(s: Store) {
    && (forall sid :: sid in s.snapshots ==> Avoids(s.snapshots[sid], Half(s)))
    && (forall key :: key in s.publications ==> Avoids(s.publications[key], Half(s)))
  }

  ghost predicate SnapshotsSound(s: Store, tools: Tools) {
    forall sid :: sid in s.snapshots ==> SnapshotSound(s.snapshots[sid], sid, s.bytes, tools)
  }

  predicate SnapshotSound(t: Tree, sid: Sid, bytes: map<Inode, string>, tools: Tools) {
    Sound(t, "snapshot", bytes, tools) && t.snapshot == sid && OwnIndex(t, tools.sha)
  }

  ghost predicate KeptIndex(t: Tree, s: Store, text: string, tools: Tools) {
    tools.sha(text) in t.byHash && tools.sha(text) in s.index && s.index[tools.sha(text)] == t.byHash[tools.sha(text)]
  }

  /** The compressed index was made by the same compressor as the snapshot's. */
  predicate SameCompression(t: Tree, s: Store) {
    t.snapshot in s.snapshots && t.top.gz == s.snapshots[t.snapshot].top.gz
  }

  /** The index of exactly this snapshot. */
  predicate OfSnapshot(t: Tree, s: Store) {
    && t.snapshot in s.snapshots && t.top.packages == s.snapshots[t.snapshot].top.packages
    && t.top.manifest == s.snapshots[t.snapshot].top.manifest
  }

  /** A signed directory made from the shared store: its pool is part of the shared one, and its index is kept there. */
  ghost predicate Kept(t: Tree, suite: string, s: Store, tools: Tools) {
    && Sound(t, suite, s.bytes, tools) && OfSnapshot(t, s) && Within(t.pool, s.pool)
    && KeptIndex(t, s, t.top.packages, tools) && (SameCompression(t, s) ==> KeptIndex(t, s, t.top.gz, tools))
  }

  ghost predicate PublicationsSound(s: Store, tools: Tools) {
    forall key :: key in s.publications ==> Kept(s.publications[key], SuiteOf(key.channel), s, tools)
  }

  /** A file of the snapshot has arrived in the shared store. */
  predicate Arrived(s: Store, c: Copy) {
    Target(s, c).Some? && Target(s, c).value in s.bytes && Half(s) != Target(s, c) &&
    c.from in s.bytes && s.bytes[Target(s, c).value] == s.bytes[c.from]
  }

  ghost predicate AddingSound(s: Store)
    requires s.phase.Adding?
  {
    && s.phase.sid in s.snapshots && Sources(s.phase.order, s.snapshots[s.phase.sid]) && s.phase.k <= |s.phase.order|
    && (forall i :: 0 <= i < s.phase.k ==> Arrived(s, s.phase.order[i]))
    && (s.phase.half.Some? ==>
          s.phase.k < |s.phase.order| && Target(s, s.phase.order[s.phase.k]) == s.phase.half &&
              s.phase.half.value in s.bytes)
  }

  /** A directory that was linked from the shared store as it is now. */
  predicate LinksAll(t: Tree, s: Store) {
    t.pool == s.pool && Within(s.index, t.byHash)
  }

  ghost predicate PhaseSound(s: Store, tools: Tools) {
    match s.phase
    case Idle => true
    case Adding(channel, sid, order, k, half) => AddingSound(s)
    case Staged(channel, sid, tree) =>
      && sid in s.snapshots && tree.top.promotion.Some? && tree == StagedTree(s, sid, tree.top.promotion.value)
      && Indexed(s.index, s.bytes, tree.top.packages, tools.sha) && Indexed(s.index, s.bytes, tree.top.gz, tools.sha)
    case Signed(channel, sid, tree) => Kept(tree, SuiteOf(channel), s, tools) && LinksAll(tree, s) &&
        tree.snapshot == sid
    case Published(key) => key in s.publications && LinksAll(s.publications[key], s) && key !in s.visible
    case Audited(key) => key in s.publications && LinksAll(s.publications[key], s) && key !in s.visible
  }

  // ----- every step keeps it ------------------------------------------------------------------------

  ghost predicate FilesSound(s: Store, tools: Tools) {
    StoreAllocated(s) && HalfIsApart(s) && SnapshotsSound(s, tools) && PublicationsSound(s, tools) &&
        PhaseSound(s, tools)
  }

  lemma MoreBytesGrow(a: Store, b: Store, made: map<Inode, string>)
    requires b.bytes == a.bytes + made && forall n :: n in made ==> n !in a.bytes
    requires b.pool == a.pool && b.index == a.index && Within(a.snapshots, b.snapshots) &&
             a.publications == b.publications
    ensures Grows(a, b)
  {
  }

  lemma StepGrows(s: Store, l: Step, tools: Tools)
    requires Enabled(s, l, tools)
    ensures Grows(s, Do(s, l, tools))
  {
    match l
    case Snapshot(_, _, _, _, made) => MoreBytesGrow(s, Do(s, l, tools), made);
    case Sign(_, _, made, _) => MoreBytesGrow(s, Do(s, l, tools), made);
    case StartCopy(inode, part) => StartingGrows(s, inode, part);
    case EndCopy => EndingGrows(s);
    case _ =>
  }

  lemma KeptStays(t: Tree, suite: string, a: Store, b: Store, tools: Tools)
    requires Kept(t, suite, a, tools) && Avoids(t, Half(a)) && Grows(a, b)
    ensures Kept(t, suite, b, tools)
  {
    SoundStays(t, suite, a, b, tools);
  }

  /** What was signed before stays sound and kept, whatever the step. */
  lemma OldStaysSound(a: Store, b: Store, tools: Tools)
    requires HalfIsApart(a) && SnapshotsSound(a, tools) && PublicationsSound(a, tools) && Grows(a, b)
    ensures forall sid :: sid in a.snapshots ==>
              sid in b.snapshots && SnapshotSound(b.snapshots[sid], sid, b.bytes, tools)
    ensures forall key :: key in a.publications ==>
              key in b.publications && Kept(b.publications[key], SuiteOf(key.channel), b, tools)
  {
    forall sid | sid in a.snapshots ensures SnapshotSound(b.snapshots[sid], sid, b.bytes, tools) {
      SoundStays(a.snapshots[sid], "snapshot", a, b, tools);
    }
    forall key | key in a.publications ensures Kept(b.publications[key], SuiteOf(key.channel), b, tools) {
      KeptStays(a.publications[key], SuiteOf(key.channel), a, b, tools);
    }
  }

  lemma SignedStay(s: Store, t: Store, tools: Tools)
    requires HalfIsApart(s) && SnapshotsSound(s, tools) && PublicationsSound(s, tools) && Grows(s, t)
    requires t.snapshots == s.snapshots && t.publications == s.publications
    ensures SnapshotsSound(t, tools) && PublicationsSound(t, tools)
  {
    OldStaysSound(s, t, tools);
  }

  /** A step that writes no file and is not in the middle of one. */
  lemma QuietKeeps(s: Store, t: Store, tools: Tools)
    requires FilesSound(s, tools) && Grows(s, t) && Half(t).None? && PhaseSound(t, tools)
    requires t.bytes == s.bytes && t.pool == s.pool && t.index == s.index && t.snapshots == s.snapshots
    requires t.publications == s.publications
    ensures FilesSound(t, tools)
  {
    SignedStay(s, t, tools);
    assert HalfIsApart(t) && StoreAllocated(t);
  }

  lemma PresentArrives(s: Store, tools: Tools, known: set<string>)
    requires PhaseSound(s, tools) && Enabled(s, Present, tools) && Hashes(tools.sha, known) && Knows(known, s)
    ensures PhaseSound(Do(s, Present, tools), tools)
  {
    var t := Do(s, Present, tools);
    forall i | 0 <= i < t.phase.k ensures Arrived(t, t.phase.order[i]) {
      assert i < s.phase.k ==> Arrived(s, s.phase.order[i]);
    }
  }

  lemma ArrivedIndex(s: Store, text: string, tools: Tools)
    requires PhaseSound(s, tools) && s.phase.Adding? && s.phase.k == |s.phase.order|
    requires Indexed(s.snapshots[s.phase.sid].byHash, s.bytes, text, tools.sha)
    ensures Indexed(s.index, s.bytes, text, tools.sha)
  {
    var c := IndexFile(tools.sha(text), s.snapshots[s.phase.sid].byHash[tools.sha(text)]);
    assert c in s.phase.order;
    var i :| 0 <= i < |s.phase.order| && s.phase.order[i] == c;
    assert Arrived(s, s.phase.order[i]);
  }

  lemma StagingKeeps(s: Store, l: Step, tools: Tools)
    requires FilesSound(s, tools) && Enabled(s, l, tools) && l.Stage?
    ensures FilesSound(Do(s, l, tools), tools)
  {
    ArrivedIndex(s, s.snapshots[s.phase.sid].top.packages, tools);
    ArrivedIndex(s, s.snapshots[s.phase.sid].top.gz, tools);
    StepGrows(s, l, tools);
    QuietKeeps(s, Do(s, l, tools), tools);
  }

  /** The snapshot of a valid repository is one. */
  lemma NewSnapshotIsSound(l: Step, before: map<Inode, string>, after: map<Inode, string>, tools: Tools)
    requires l.Snapshot? && Snapshots(l, before, tools) && after == before + l.made && Hashes(tools.sha, l.files.Values)
    ensures SnapshotSound(l.tree, l.sid, after, tools)
  {
    SnapshotIsFaithful(l.source, l.files, tools.sha);
    assert Contents(l.tree.pool, after) == Contents(l.tree.pool, l.made);
    assert forall d :: d in l.tree.byHash ==> l.tree.byHash[d] in l.made;
  }

  lemma SnapshottingKeeps(s: Store, l: Step, tools: Tools)
    requires FilesSound(s, tools) && Enabled(s, l, tools) && l.Snapshot? && Hashes(tools.sha, Brings(l))
    ensures FilesSound(Do(s, l, tools), tools)
  {
    StepGrows(s, l, tools);
    NewSnapshotIsSound(l, s.bytes, Do(s, l, tools).bytes, tools);
    AddedSnapshotKeeps(s, Do(s, l, tools), l.sid, tools);
  }

  lemma AddedSnapshotKeeps(s: Store, t: Store, sid: Sid, tools: Tools)
    requires FilesSound(s, tools) && s.phase.Idle? && t.phase.Idle? && Grows(s, t) && t.publications == s.publications
    requires sid in t.snapshots && t.snapshots == s.snapshots[sid := t.snapshots[sid]] && t.pool == s.pool &&
             t.index == s.index
    requires SnapshotSound(t.snapshots[sid], sid, t.bytes, tools)
    ensures FilesSound(t, tools)
  {
    OldStaysSound(s, t, tools);
  }

  lemma AllocatedAvoids(t: Tree, bytes: map<Inode, string>, n: Inode)
    requires Allocated(t, bytes) && n !in bytes
    ensures Avoids(t, Some(n))
  {
  }

  ghost predicate TreesAllocated(s: Store) {
    && (forall sid :: sid in s.snapshots ==> Allocated(s.snapshots[sid], s.bytes))
    && (forall key :: key in s.publications ==> Allocated(s.publications[key], s.bytes))
  }

  lemma SoundIsAllocated(s: Store, tools: Tools)
    requires SnapshotsSound(s, tools) && PublicationsSound(s, tools)
    ensures TreesAllocated(s)
  {
  }

  lemma StartKeepsApart(s: Store, inode: Inode, part: string)
    requires TreesAllocated(s) && CanStart(s, inode, part)
    ensures HalfIsApart(Started(s, inode, part))
  {
    forall sid | sid in s.snapshots ensures Avoids(s.snapshots[sid], Some(inode)) {
      AllocatedAvoids(s.snapshots[sid], s.bytes, inode);
    }
    forall key | key in s.publications ensures Avoids(s.publications[key], Some(inode)) {
      AllocatedAvoids(s.publications[key], s.bytes, inode);
    }
  }

  /** A step that only writes to the shared store. */
  lemma CopyingKeeps(s: Store, t: Store, tools: Tools)
    requires FilesSound(s, tools) && Grows(s, t) && t.snapshots == s.snapshots && t.publications == s.publications
    requires HalfIsApart(t) && StoreAllocated(t) && t.phase.Adding? && AddingSound(t)
    ensures FilesSound(t, tools)
  {
    OldStaysSound(s, t, tools);
  }

  lemma StartKeepsArrivals(s: Store, inode: Inode, part: string)
    requires CanStart(s, inode, part) && AddingSound(s) && StoreAllocated(s)
    ensures AddingSound(Started(s, inode, part)) && StoreAllocated(Started(s, inode, part))
  {
    var t, order, k := Started(s, inode, part), s.phase.order, s.phase.k;
    forall i | 0 <= i < k ensures Arrived(t, order[i]) {
      ArrivedStays(s, inode, part, order[i]);
    }
    TargetStarts(s, inode, part);
  }

  lemma TargetStarts(s: Store, inode: Inode, part: string)
    requires CanStart(s, inode, part)
    ensures Target(Started(s, inode, part), s.phase.order[s.phase.k]) == Some(inode)
  {
  }

  lemma ArrivedStays(s: Store, inode: Inode, part: string, c: Copy)
    requires CanStart(s, inode, part) && Arrived(s, c)
    ensures Arrived(Started(s, inode, part), c)
  {
  }

  lemma StartIsSafe(s: Store, inode: Inode, part: string)
    requires CanStart(s, inode, part) && AddingSound(s) && StoreAllocated(s) && TreesAllocated(s)
    ensures var t := Started(s, inode, part);
            && HalfIsApart(t) && StoreAllocated(t) && t.phase.Adding? && AddingSound(t) && Grows(s, t)
            && t.snapshots == s.snapshots && t.publications == s.publications
  {
    StartKeepsApart(s, inode, part);
    StartKeepsArrivals(s, inode, part);
    StartingGrows(s, inode, part);
  }

  lemma StartingKeeps(s: Store, t: Store, inode: Inode, part: string, tools: Tools)
    requires FilesSound(s, tools) && CanStart(s, inode, part) && t == Started(s, inode, part)
    ensures FilesSound(t, tools)
  {
    SoundIsAllocated(s, tools);
    StartIsSafe(s, inode, part);
    CopyingKeeps(s, t, tools);
  }

  lemma StartingGrows(s: Store, inode: Inode, part: string)
    requires CanStart(s, inode, part)
    ensures Grows(s, Started(s, inode, part))
  {
  }

  lemma EndKeepsArrivals(s: Store)
    requires CanEnd(s) && AddingSound(s) && StoreAllocated(s) && Avoids(s.snapshots[s.phase.sid], Half(s))
    ensures AddingSound(Completed(s)) && StoreAllocated(Completed(s))
  {
    var t, order, k := Completed(s), s.phase.order, s.phase.k;
    forall i | 0 <= i <= k ensures Arrived(t, order[i]) {
      assert order[i] in order;
      assert order[i].from != s.phase.half.value;
      assert i < k ==> Arrived(s, order[i]);
    }
  }

  lemma EndIsSafe(s: Store)
    requires CanEnd(s) && AddingSound(s) && StoreAllocated(s) && HalfIsApart(s)
    ensures var t := Completed(s);
            && HalfIsApart(t) && StoreAllocated(t) && t.phase.Adding? && AddingSound(t) && Grows(s, t)
            && t.snapshots == s.snapshots && t.publications == s.publications
  {
    EndKeepsArrivals(s);
    EndingGrows(s);
  }

  lemma EndingKeeps(s: Store, t: Store, tools: Tools)
    requires FilesSound(s, tools) && CanEnd(s) && t == Completed(s)
    ensures FilesSound(t, tools)
  {
    EndIsSafe(s);
    CopyingKeeps(s, t, tools);
  }

  lemma EndingGrows(s: Store)
    requires CanEnd(s)
    ensures Grows(s, Completed(s))
  {
  }

  /** Signing adds the by-hash files that were missing; those that were there were right. */
  lemma SignedIsIndexed(t: Tree, n: Tree, gz: string, bytes: map<Inode, string>, made: map<Inode, string>,
                        added: map<string, Inode>,
                        tools: Tools, known: set<string>)
    requires Allocated(t, bytes) && Signable(t, gz, bytes, tools) && Adds(t, gz, made, added, tools.sha)
    requires (forall k :: k in made ==> k !in bytes) && (forall k :: k in bytes ==> bytes[k] in known)
    requires Hashes(tools.sha, known) && gz in known && t.top.packages in known
    requires n.pool == t.pool && n.byHash == t.byHash + added && n.top.packages == t.top.packages && n.top.gz == gz
    ensures Allocated(n, bytes + made) && Contents(n.pool, bytes + made) == Contents(t.pool, bytes)
    ensures Indexed(n.byHash, bytes + made, n.top.packages, tools.sha) && Indexed(n.byHash, bytes + made, gz, tools.sha)
  {
    assert forall d :: d in t.byHash ==> d !in added;
  }

  lemma SignedIsLinked(s: Store, l: Step, t: Store, tools: Tools)
    requires PhaseSound(s, tools) && SnapshotsSound(s, tools) && Enabled(s, l, tools) && l.Sign? && t == Do(s, l, tools)
    ensures LinksAll(t.phase.tree, t) && KeptIndex(t.phase.tree, t, t.phase.tree.top.packages, tools)
    ensures SameCompression(t.phase.tree, t) ==> KeptIndex(t.phase.tree, t, t.phase.tree.top.gz, tools)
  {
    assert SnapshotSound(s.snapshots[s.phase.sid], s.phase.sid, s.bytes, tools);
  }

  lemma SignedIsOfSnapshot(s: Store, l: Step, t: Store, tools: Tools)
    requires PhaseSound(s, tools) && SnapshotsSound(s, tools) && Enabled(s, l, tools) && l.Sign? && t == Do(s, l, tools)
    ensures SignedAs(t.phase.tree, SuiteOf(t.phase.channel)) && OfSnapshot(t.phase.tree, t) &&
            t.phase.tree.snapshot == t.phase.sid
    ensures tools.identity(t.phase.tree.top.manifest) == Some(t.phase.tree.snapshot)
  {
    assert SnapshotSound(s.snapshots[s.phase.sid], s.phase.sid, s.bytes, tools);
  }

  lemma SignedIsKept(s: Store, l: Step, t: Store, tools: Tools, known: set<string>)
    requires FilesSound(s, tools) && Enabled(s, l, tools) && l.Sign? && t == Do(s, l, tools)
    requires Hashes(tools.sha, known) && Knows(known, s) && Brings(l) <= known
    ensures Kept(t.phase.tree, SuiteOf(t.phase.channel), t, tools) && LinksAll(t.phase.tree, t)
    ensures t.phase.tree.snapshot == t.phase.sid
  {
    assert l.gz in known;
    SignedIsIndexed(s.phase.tree, t.phase.tree, l.gz, s.bytes, l.made, l.added, tools, known);
    SignedIsLinked(s, l, t, tools);
    SignedIsOfSnapshot(s, l, t, tools);
  }

  lemma SigningKeeps(s: Store, l: Step, t: Store, tools: Tools, known: set<string>)
    requires FilesSound(s, tools) && Enabled(s, l, tools) && l.Sign? && t == Do(s, l, tools)
    requires Hashes(tools.sha, known) && Knows(known, s) && Brings(l) <= known
    ensures FilesSound(t, tools)
  {
    assert PhaseSound(t, tools) by {
      SignedIsKept(s, l, t, tools, known);
    }
    StepGrows(s, l, tools);
    SignedStay(s, t, tools);
    NothingHalf(t);
  }

  lemma OneMorePublication(s: Store, t: Store, key: Key, tools: Tools)
    requires key in t.publications && key !in s.publications &&
             t.publications == s.publications[key := t.publications[key]]
    requires forall k :: k in s.publications ==>
               k in t.publications && Kept(t.publications[k], SuiteOf(k.channel), t, tools)
    requires Kept(t.publications[key], SuiteOf(key.channel), t, tools)
    ensures PublicationsSound(t, tools)
  {
  }

  lemma PublicationsWith(s: Store, t: Store, key: Key, tree: Tree, tools: Tools)
    requires HalfIsApart(s) && SnapshotsSound(s, tools) && PublicationsSound(s, tools) && Grows(s, t)
    requires Kept(tree, SuiteOf(key.channel), s, tools)
    requires Half(s).None? && key !in s.publications && t.publications == s.publications[key := tree] &&
             t.snapshots == s.snapshots
    ensures SnapshotsSound(t, tools) && PublicationsSound(t, tools)
  {
    OldStaysSound(s, t, tools);
    KeptStays(tree, SuiteOf(key.channel), s, t, tools);
    OneMorePublication(s, t, key, tools);
  }

  lemma NothingHalf(s: Store)
    requires Half(s).None?
    ensures HalfIsApart(s)
  {
  }

  lemma PublishedPhase(s: Store, t: Store, key: Key, tree: Tree, tools: Tools)
    requires StoreAllocated(s) && LinksAll(tree, s) && key !in s.visible
    requires t == s.(publications := s.publications[key := tree], shelves := t.shelves, phase := Published(key))
    ensures StoreAllocated(t) && PhaseSound(t, tools)
  {
  }

  lemma AddedPublicationKeeps(s: Store, t: Store, key: Key, tree: Tree, tools: Tools)
    requires StoreAllocated(s) && HalfIsApart(s) && SnapshotsSound(s, tools) && PublicationsSound(s, tools)
    requires Grows(s, t) && Kept(tree, SuiteOf(key.channel), s, tools) && LinksAll(tree, s)
    requires Half(s).None? && key !in s.publications && key !in s.visible
    requires t == s.(publications := s.publications[key := tree], shelves := t.shelves, phase := Published(key))
    ensures StoreAllocated(t) && HalfIsApart(t) && SnapshotsSound(t, tools) && PublicationsSound(t, tools)
    ensures PhaseSound(t, tools)
  {
    PublicationsWith(s, t, key, tree, tools);
    PublishedPhase(s, t, key, tree, tools);
    NothingHalf(t);
  }

  lemma PublishingKeeps(s: Store, l: Step, tools: Tools)
    requires FilesSound(s, tools) && Enabled(s, l, tools) && l.Publish? &&
             forall key :: key in s.visible ==> key in s.publications
    ensures FilesSound(Do(s, l, tools), tools)
  {
    StepGrows(s, l, tools);
    AddedPublicationKeeps(s, Do(s, l, tools), Key(s.phase.channel, l.id), s.phase.tree, tools);
  }

  lemma PassingWritesNothing(s: Store, l: Step, tools: Tools)
    requires Enabled(s, l, tools) && (l.Begin? || l.Audit? || l.Switch? || l.Stop?)
    ensures var t := Do(s, l, tools);
            && t.bytes == s.bytes && t.pool == s.pool && t.index == s.index && t.snapshots == s.snapshots
            && t.publications == s.publications && Half(t).None?
  {
  }

  lemma PassingPhase(s: Store, l: Step, tools: Tools)
    requires PhaseSound(s, tools) && Enabled(s, l, tools) && (l.Begin? || l.Audit? || l.Switch? || l.Stop?)
    ensures PhaseSound(Do(s, l, tools), tools)
  {
  }

  lemma PassingKeeps(s: Store, l: Step, t: Store, tools: Tools)
    requires FilesSound(s, tools) && Enabled(s, l, tools) && (l.Begin? || l.Audit? || l.Switch? || l.Stop?)
    requires t == Do(s, l, tools)
    ensures FilesSound(t, tools)
  {
    PassingWritesNothing(s, l, tools);
    PassingPhase(s, l, tools);
    StepGrows(s, l, tools);
    QuietKeeps(s, t, tools);
  }

  lemma PresentKeeps(s: Store, tools: Tools, known: set<string>)
    requires FilesSound(s, tools) && Enabled(s, Present, tools) && Hashes(tools.sha, known) && Knows(known, s)
    ensures FilesSound(Do(s, Present, tools), tools)
  {
    StepGrows(s, Present, tools);
    PresentArrives(s, tools, known);
    QuietKeeps(s, Do(s, Present, tools), tools);
  }

  lemma WritingKeeps(s: Store, l: Step, t: Store, tools: Tools)
    requires FilesSound(s, tools) && Enabled(s, l, tools) && (l.StartCopy? || l.EndCopy?) && t == Do(s, l, tools)
    ensures FilesSound(t, tools)
  {
    if l.StartCopy? {
      StartingKeeps(s, t, l.inode, l.part, tools);
    } else {
      EndingKeeps(s, t, tools);
    }
  }

  /** Every step of every operation, and a crash at any of them, keeps the store sound. */
  lemma StepKeepsFiles(s: Store, l: Step, tools: Tools, known: set<string>)
    requires FilesSound(s, tools) && Enabled(s, l, tools)
    requires Hashes(tools.sha, known) && Knows(known, s) && Brings(l) <= known
    requires forall key :: key in s.visible ==> key in s.publications
    ensures FilesSound(Do(s, l, tools), tools)
  {
    if l.Present? || l.Sign? {
      ComparingKeeps(s, l, tools, known);
    } else if l.Snapshot? {
      SnapshottingKeeps(s, l, tools);
    } else if l.StartCopy? || l.EndCopy? {
      WritingKeeps(s, l, Do(s, l, tools), tools);
    } else if l.Stage? {
      StagingKeeps(s, l, tools);
    } else if l.Publish? {
      PublishingKeeps(s, l, tools);
    } else {
      PassingKeeps(s, l, Do(s, l, tools), tools);
    }
  }

  /** The steps that go by digests alone. */
  lemma ComparingKeeps(s: Store, l: Step, tools: Tools, known: set<string>)
    requires FilesSound(s, tools) && Enabled(s, l, tools) && (l.Present? || l.Sign?)
    requires Hashes(tools.sha, known) && Knows(known, s) && Brings(l) <= known
    ensures FilesSound(Do(s, l, tools), tools)
  {
    if l.Present? {
      PresentKeeps(s, tools, known);
    } else {
      SigningKeeps(s, l, Do(s, l, tools), tools, known);
    }
  }
}
