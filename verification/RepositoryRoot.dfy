/**
 * `snapshot`, `add_immutable` and `promote` of repo.py as they change the files, each proved to be a run of the store's
 * steps.
 */
module RepositoryRoot {
  import opened Text
  import opened Packages
  import opened Verification
  import opened Repository
  import opened Availability
  import opened Promotion
  import opened SignedStore
  import opened Suites
  import Stanzas

  datatype Refusal = BadName | BadSource | BadSnapshot | Untested | Unapproved | Modified | Unsigned | Exists

  predicate NameChar(c: char) {
    'A' <= c <= 'Z' || 'a' <= c <= 'z' || '0' <= c <= '9'
  }

  /** `identifier`. */
  predicate Identifier(sid: Sid) {
    && 1 <= |sid| <= 96 && NameChar(sid[0])
    && forall i :: 0 < i < |sid| ==> NameChar(sid[i]) || sid[i] == '.' || sid[i] == '_' || sid[i] == '-'
  }

  /**
   * The repository directory. `phase`, `visible`, `shelf`, `shelves` and `run` are the model's own notes; no two of the
   * contents in `known` share a digest.
   */
  class Root {
    const tools: Tools
    ghost const known: set<string>
    var bytes: map<Inode, string>
    var pool: map<Path, Inode>
    var index: map<string, Inode>
    var snapshots: map<Sid, Tree>
    var publications: map<Key, Tree>
    var pointers: map<Channel, Key>
    var audit: set<Key>
    var next: Inode
    ghost var phase: Phase
    ghost var visible: seq<Key>
    ghost var shelf: set<string>
    ghost var shelves: map<Key, set<string>>
    ghost var run: seq<Step>

    constructor (tools: Tools, ghost known: set<string>)
      requires Hashes(tools.sha, known) && "" in known
      ensures this.tools == tools && this.known == known && View() == EMPTY && Valid() && Apart()
    {
      this.tools, this.known := tools, known;
      bytes, pool, index, snapshots, publications, pointers, audit := map[], map[], map[], map[], map[], map[], {};
      next, phase, visible, shelf, shelves, run := 0, Idle, [], {}, map[], [];
    }

    ghost function View(): Store
      reads this
    {
      Store(bytes, pool, index, snapshots, publications, pointers, audit, phase, visible, shelf, shelves)
    }

    /** New inodes are really new, and the state is where the steps noted so far lead, with known contents only. */
    ghost predicate Valid()
      reads this
    {
      (forall n :: n in bytes ==> n < next) && Reaches(run, View(), tools, known)
    }

    /** The assumption on the hash; an empty file is one of the contents. */
    ghost predicate Apart() {
      Hashes(tools.sha, known) && "" in known
    }

    /** Every state the files go through is one of the store's. */
    lemma Reached()
      requires Valid() && Apart()
      ensures Availability.Inv(View(), tools) && Knows(known, View())
    {
      ReachedIsSound(run, View(), tools, known);
    }

    // ----- add_immutable ---------------------------------------------------------------------------

    /** The name of a new file, before its content. */
    method Create(c: Copy)
      requires Valid() && "" in known && Current(View()) && View().phase.half.None? && c == phase.order[phase.k] &&
               Target(View(), c).None?
      modifies this`bytes, this`pool, this`index, this`next, this`phase, this`run
      ensures Valid() && CanStart(old(View()), old(next), "") && View() == Started(old(View()), old(next), "")
      ensures next == old(next) + 1
    {
      assert CanStart(View(), next, "");
      ghost var longer, after := StartOne(run, View(), tools, known, next);
      PutName(c, after.phase, longer);
    }

    method PutName(c: Copy, ghost p: Phase, ghost longer: seq<Step>)
      requires forall n :: n in bytes ==> n < next
      requires Reaches(longer, View().(pool := PoolWith(pool, c, next), index := IndexWith(index, c, next),
                                       bytes := bytes[next := ""], phase := p), tools, known)
      modifies this`bytes, this`pool, this`index, this`next, this`phase, this`run
      ensures Valid() && next == old(next) + 1
      ensures View() == old(View()).(pool := PoolWith(old(pool), c, old(next)),
                                     index := IndexWith(old(index), c, old(next)),
                                     bytes := old(bytes)[old(next) := ""], phase := p)
    {
      ghost var before := View();
      pool, index := PoolWith(pool, c, next), IndexWith(index, c, next);
      bytes, phase, next, run := bytes[next := ""], p, next + 1, longer;
      assert View() == before.(pool := PoolWith(before.pool, c, next - 1),
                               index := IndexWith(before.index, c, next - 1),
                               bytes := before.bytes[next - 1 := ""], phase := p);
    }

    /** Its content, all of it. */
    method Fill(c: Copy, n: Inode)
      requires Valid() && CanEnd(View()) && c == phase.order[phase.k] && phase.half == Some(n) && n < next
      modifies this`bytes, this`phase, this`run
      ensures Valid() && View() == Completed(old(View()))
    {
      ghost var longer, after := EndOne(run, View(), tools, known);
      bytes, phase, run := bytes[n := bytes[c.from]], phase.(k := phase.k + 1, half := None), longer;
      assert View() == after;
    }

    /** The file is there: nothing is written. */
    method Skip()
      requires Valid() && IsPresent(View(), tools.sha)
      modifies this`phase, this`run
      ensures Valid() && View() == Skipped(old(View()))
    {
      ghost var longer, after := SkipOne(run, View(), tools, known);
      phase, run := phase.(k := phase.k + 1), longer;
      assert View() == after;
    }

    /** Copies one file into the shared store unless it is there already; a different one there is an error. */
    method AddImmutable(c: Copy) returns (ok: bool)
      requires Valid() && Apart() && Current(View()) && View().phase.half.None? && c == phase.order[phase.k]
      requires Target(View(), c).Some? ==> Target(View(), c).value in bytes
      modifies this`bytes, this`pool, this`index, this`next, this`phase, this`run
      ensures Valid() && (ok <==> Fits(old(View()), c, tools.sha))
      ensures !ok ==> View() == old(View())
      ensures ok && Target(old(View()), c).Some? ==> View() == Skipped(old(View()))
      ensures ok && Target(old(View()), c).None? ==>
                CanStart(old(View()), old(next), "") && CanEnd(Started(old(View()), old(next), "")) &&
                View() == Completed(Started(old(View()), old(next), ""))
    {
      var found := match c case PoolFile(path, _) => if path in pool then Some(pool[path]) else None
                           case IndexFile(digest, _) => if digest in index then Some(index[digest]) else None;
      if found.None? {
        var n := next;
        ghost var before := View();
        Create(c);
        StartThenEnd(before, n, c);
        Fill(c, n);
        return true;
      }
      ok := tools.sha(bytes[c.from]) == tools.sha(bytes[found.value]);
      if ok {
        Skip();
      }
    }

    /** A refusal: what was staged is thrown away. */
    method Abort()
      requires Valid()
      modifies this`phase, this`run
      ensures Valid() && View() == old(View()).(phase := Idle)
    {
      ghost var longer, after := StopOne(run, View(), tools, known);
      phase, run := Idle, longer;
      assert View() == after;
    }

    /** One file in the loop: it fits or not; if it does, the others fit as they did before. */
    method AddNext(c: Copy) returns (ok: bool)
      requires Valid() && Apart() && phase.Adding? && phase.k < |phase.order| && phase.half.None? &&
               c == phase.order[phase.k]
      modifies this`bytes, this`pool, this`index, this`next, this`phase, this`run
      ensures Valid() && (ok <==> Fits(old(View()), c, tools.sha))
      ensures !ok ==> View() == old(View())
      ensures ok ==> phase == old(phase).(k := old(phase).k + 1) && OneAdded(old(View()), View(), c)
      ensures ok ==> (AllFit(View(), phase.order, phase.k, tools.sha) <==>
                      AllFit(old(View()), phase.order, phase.k, tools.sha))
    {
      ghost var before, n := View(), next;
      SourcesAreThere(run, View(), tools, known);
      assert c in phase.order;
      ok := AddImmutable(c);
      if ok {
        AddedKeepsFits(before, View(), c, n, before.snapshots[before.phase.sid], tools.sha);
      }
    }

    /** All files of the snapshot, in the order they are found; stops at the first that does not fit. */
    method AddAll(channel: Channel, sid: Sid, order: seq<Copy>) returns (ok: bool)
      requires Valid() && Apart() && phase == Adding(channel, sid, order, 0, None)
      modifies this`bytes, this`pool, this`index, this`next, this`phase, this`run
      ensures Valid() && (ok <==> AllFit(old(View()), order, 0, tools.sha))
      ensures ok ==> phase == Adding(channel, sid, order, |order|, None) && AllAdded(old(View()), View(), order)
      ensures !ok ==> SameElse(old(View()), View())
    {
      var k := 0;
      ghost var before := View();
      assert Digests(order[..0]) == {};
      while k < |order|
        invariant 0 <= k <= |order| && Valid() && phase == Adding(channel, sid, order, k, None)
        invariant AllAdded(before, View(), order[..k])
        invariant AllFit(View(), order, k, tools.sha) <==> AllFit(before, order, 0, tools.sha)
      {
        ghost var mid := View();
        var added := AddNext(order[k]);
        if !added {
          return false;
        }
        AddedThen(before, mid, View(), order, k);
        FitsSplit(mid, order, k, tools.sha);
        k := k + 1;
      }
      assert order[..k] == order;
      ok := true;
    }

    // ----- staging and signing -----------------------------------------------------------------------

    /** Links the whole shared store into a directory with the snapshot's files and the record of the promotion. */
    method StageAll(channel: Channel, sid: Sid, promotion: string) returns (staged: Tree)
      requires Valid() && sid in snapshots && phase.Adding? && phase.channel == channel && phase.sid == sid
      requires phase.half.None? && phase.k == |phase.order|
      modifies this`phase, this`run
      ensures Valid() && View() == old(View()).(phase := Staged(channel, sid, staged)) &&
              staged == StagedTree(old(View()), sid, promotion)
    {
      ghost var longer, after := StageOne(run, View(), promotion, tools, known);
      staged := Tree(snapshots[sid].top.(promotion := Some(promotion)), None, snapshots[sid].snapshot, pool, index);
      phase, run := Staged(channel, sid, staged), longer;
      assert View() == after;
    }

    /** The by-hash files to add: one for each index file that has none under its digest. */
    method NewIndexFiles(staged: Tree, gz: string) returns (made: map<Inode, string>, added: map<string, Inode>)
      requires gz == staged.top.packages || tools.sha(gz) != tools.sha(staged.top.packages)
      ensures Adds(staged, gz, made, added, tools.sha) && made.Values <= {staged.top.packages, gz}
      ensures forall n :: n in made ==> next <= n < next + 2
    {
      made, added := map[], map[];
      var first, second := tools.sha(staged.top.packages), tools.sha(gz);
      if first !in staged.byHash {
        made, added := map[next := staged.top.packages], map[first := next];
      }
      if second !in staged.byHash {
        made, added := made[next + 1 := gz], added[second := next + 1];
      }
      assert second in added ==> made[added[second]] == gz;
      assert first in added ==> made[added[first]] == staged.top.packages;
    }

    /** `sign_flat` on the staged directory. */
    method SignStage(channel: Channel, staged: Tree, gz: string, heading: Heading) returns (signed: Tree)
      requires Valid() && phase.Staged? && phase.channel == channel && phase.tree == staged &&
               Signable(staged, gz, bytes, tools) && GoodHeading(heading)
      requires gz in known && staged.top.packages in known
      requires gz == staged.top.packages || tools.sha(gz) != tools.sha(staged.top.packages)
      modifies this`bytes, this`next, this`phase, this`run
      ensures Valid() && SameElse(old(View()), View()) && pool == old(pool) && index == old(index) &&
              Within(old(bytes), bytes)
      ensures phase == Signed(channel, old(phase).sid, signed)
      ensures signed.top == staged.top.(gz := gz) && signed.snapshot == staged.snapshot
      ensures SignedFor(signed, channel, heading)
    {
      var made, added := NewIndexFiles(staged, gz);
      signed := WithIndex(staged, gz, SuiteOf(channel), heading, added);
      ghost var longer, after := SignNow(run, View(), gz, heading, made, added, tools, known);
      PutSigned(made, after.phase, longer);
      assert Within(old(bytes), bytes);
    }

    method PutSigned(made: map<Inode, string>, ghost p: Phase, ghost longer: seq<Step>)
      requires (forall n :: n in bytes ==> n < next) && forall n :: n in made ==> next <= n < next + 2
      requires Reaches(longer, View().(bytes := bytes + made, phase := p), tools, known)
      modifies this`bytes, this`next, this`phase, this`run
      ensures Valid() && View() == old(View()).(bytes := old(bytes) + made, phase := p)
    {
      next, bytes, phase, run := next + 2, bytes + made, p, longer;
    }

    // ----- publishing ----------------------------------------------------------------------------------

    /** The rename of the staged directory into place. */
    method Place(key: Key, tree: Tree)
      requires Valid() && phase.Signed? && phase.channel == key.channel && phase.tree == tree && key !in publications
      modifies this`publications, this`shelves, this`phase, this`run
      ensures Valid() && View() == Placed(old(View()), key)
    {
      ghost var longer, after := PublishOne(run, View(), key, tools, known);
      publications, shelves, phase, run := publications[key := tree], shelves[key := shelf], Published(key), longer;
      assert View() == after;
    }

    method RecordAudit(key: Key)
      requires Valid() && phase == Published(key)
      modifies this`audit, this`phase, this`run
      ensures Valid() && View() == old(View()).(audit := old(audit) + {key}, phase := Audited(key))
    {
      ghost var longer, after := AuditOne(run, View(), key, tools, known);
      audit, phase, run := audit + {key}, Audited(key), longer;
      assert View() == after;
    }

    /** The new pointer replaces the old one in one rename. */
    method SwitchPointer(key: Key)
      requires Valid() && phase == Audited(key)
      modifies this`pointers, this`visible, this`phase, this`run
      ensures Valid() && View() == Switched(old(View()))
    {
      ghost var longer, after := SwitchLast(run, View(), tools, known);
      pointers, visible, phase, run := pointers[key.channel := key], visible + [key], Idle, longer;
      assert View() == after;
    }

    method Publish(key: Key, tree: Tree)
      requires Valid() && phase.Signed? && phase.channel == key.channel && phase.tree == tree && key !in publications
      modifies this`publications, this`shelves, this`audit, this`pointers, this`visible, this`phase, this`run
      ensures Valid() && phase.Idle? && bytes == old(bytes) && index == old(index) && pool == old(pool) &&
              snapshots == old(snapshots)
      ensures pointers == old(pointers)[key.channel := key] && visible == old(visible) + [key] &&
              audit == old(audit) + {key}
      ensures publications == old(publications)[key := tree] && shelves == old(shelves)[key := old(shelf)]
    {
      Place(key, tree);
      RecordAudit(key);
      SwitchPointer(key);
    }

    // ----- snapshot --------------------------------------------------------------------------------------

    /** The copied packages in new files. */
    method StorePool(copied: Files, from: Inode) returns (links: map<Path, Inode>, made: map<Inode, string>, to: Inode)
      ensures Contents(links, made) == copied && made.Values <= copied.Values && from <= to
      ensures (forall n :: n in made ==> from <= n < to) && forall p :: p in links ==> links[p] in made
    {
      links, made, to := map[], map[], from;
      var todo := copied.Keys;
      while todo != {}
        invariant todo <= copied.Keys && links.Keys == copied.Keys - todo && from <= to
        invariant forall n :: n in made ==> from <= n < to && made[n] in copied.Values
        invariant forall p :: p in links ==> links[p] in made && made[links[p]] == copied[p]
        decreases todo
      {
        var p :| p in todo;
        links, made, to, todo := links[p := to], made[to := copied[p]], to + 1, todo - {p};
      }
    }

    method IndexByHash(packages: string, gz: string, from: Inode)
      returns (links: map<string, Inode>, made: map<Inode, string>)
      requires gz == packages || tools.sha(gz) != tools.sha(packages)
      ensures links.Keys == {tools.sha(packages), tools.sha(gz)} && made == map[from := packages, from + 1 := gz]
      ensures Indexed(links, made, packages, tools.sha) && Indexed(links, made, gz, tools.sha)
      ensures forall d :: d in links ==> links[d] in made
    {
      made := map[from := packages, from + 1 := gz];
      links := map[tools.sha(packages) := from, tools.sha(gz) := from + 1];
    }

    /** What stands against a new snapshot. */
    function SnapshotRefusal(sid: Sid, source: string, files: Files, signs: bool): Option<Refusal>
      reads this
    {
      if !Identifier(sid) then Some(BadName)
      else if sid in snapshots then Some(Exists)
      else if !Packages.Valid(source, files, tools.sha) then Some(BadSource)
      else if !signs then Some(Unsigned)
      else None
    }

    /**
     * `snapshot`. `source` and `files` are the index and packages it is taken of; `gz` is what the compressor makes of
     * the rewritten index, `manifest` the file that names the snapshot, `signs` whether signing works.
     */
    method Snapshot(sid: Sid, source: string, files: Files, manifest: string, gz: string, heading: Heading, signs: bool)
      returns (refusal: Option<Refusal>)
      requires Valid() && Apart() && phase.Idle? && GoodHeading(heading) && tools.identity(manifest) == Some(sid)
      requires files.Values <= known && gz in known
      requires Stanzas.Records(source).Ok? ==>
                 (var rewritten := Stanzas.Encode(Rewritten(Stanzas.Records(source).value));
                  rewritten in known && tools.gunzip(gz) == Some(rewritten))
      modifies this`bytes, this`snapshots, this`next, this`run
      ensures Valid() && refusal == old(SnapshotRefusal(sid, source, files, signs))
      ensures refusal.Some? ==> View() == old(View())
      ensures refusal.None? ==>
                sid in snapshots && IsSnapshotOf(snapshots[sid], sid, source, files, manifest, gz, bytes, tools)
      ensures refusal.None? ==> snapshots[sid].release == Some(Signature("snapshot", heading, snapshots[sid].top))
      ensures refusal.None? ==>
                View() == old(View()).(bytes := bytes, snapshots := old(snapshots)[sid := snapshots[sid]]) &&
                    Within(old(bytes), bytes)
    {
      if !Identifier(sid) {
        return Some(BadName);
      }
      if sid in snapshots {
        return Some(Exists);
      }
      var parsed := ValidatePackages(source, files, tools.sha);
      if parsed.Err? {
        return Some(BadSource);
      }
      if !signs {
        return Some(Unsigned);
      }
      var tree, made, top := BuildSnapshot(sid, parsed.value, source, files, manifest, gz, heading);
      StoreSnapshot(sid, source, files, tree, made, top);
      SnapshotIsThere(sid, source, files, manifest, gz, made);
      refusal := None;
    }

    lemma SnapshotIsThere(sid: Sid, source: string, files: Files, manifest: string, gz: string,
                          made: map<Inode, string>)
      requires Valid() && Apart() && sid in snapshots && Packages.Valid(source, files, tools.sha) && Within(made, bytes)
      requires snapshots[sid].top == Top(Stanzas.Encode(Rewritten(Stanzas.Records(source).value)), gz, manifest, None)
      requires Contents(snapshots[sid].pool, made) == Packages.Copied(PackagesOf(Stanzas.Records(source).value), files)
      requires forall p :: p in snapshots[sid].pool ==> snapshots[sid].pool[p] in made
      ensures IsSnapshotOf(snapshots[sid], sid, source, files, manifest, gz, bytes, tools)
    {
      SnapshotIsSound(run, View(), sid, tools, known);
      assert Contents(snapshots[sid].pool, bytes) == Contents(snapshots[sid].pool, made);
    }

    /** The stage of a snapshot, in new files. */
    method BuildSnapshot(sid: Sid, entries: seq<Stanzas.Entry>, ghost source: string, files: Files, manifest: string,
                         gz: string,
                         heading: Heading) returns (tree: Tree, made: map<Inode, string>, above: Inode)
      requires Packages.Valid(source, files, tools.sha) && Ok(entries) == Stanzas.Records(source) &&
               GoodHeading(heading)
      requires Hashes(tools.sha, known) && files.Values <= known && gz in known
      requires Stanzas.Encode(Rewritten(entries)) in known &&
               tools.gunzip(gz) == Some(Stanzas.Encode(Rewritten(entries)))
      requires tools.identity(manifest) == Some(sid) && forall n :: n in bytes ==> n < next
      ensures tree.top == Top(Stanzas.Encode(Rewritten(entries)), gz, manifest, None) &&
              SnapshotSigned(tree, sid, source, tools) && tree.release == Some(Signature("snapshot", heading, tree.top))
      ensures FullStage(tree, PackagesOf(entries), files, made, tools.sha) && made.Values <= known
      ensures next <= above && forall n :: n in made ==> next <= n < above
    {
      IsStorable(source, files, tools.sha, known);
      var rewritten, copied := CopyPackages(entries, files);
      var packages := Stanzas.Encode(rewritten);
      var top := Top(packages, gz, manifest, None);
      tree, made, above := StageTree(sid, top, Signature("snapshot", heading, top), copied);
      CopiedValues(PackagesOf(entries), files);
    }

    /** Pool and by-hash directory of a stage. */
    method StageTree(sid: Sid, top: Top, signature: Signature, copied: Files)
      returns (tree: Tree, made: map<Inode, string>, above: Inode)
      requires top.gz == top.packages || tools.sha(top.gz) != tools.sha(top.packages)
      ensures tree.top == top && tree.release == Some(signature) && tree.snapshot == sid && OwnIndex(tree, tools.sha)
      ensures LinkedTo(tree, made) && Contents(tree.pool, made) == copied &&
              made.Values <= copied.Values + {top.packages, top.gz}
      ensures Indexed(tree.byHash, made, top.packages, tools.sha) && Indexed(tree.byHash, made, top.gz, tools.sha)
      ensures next <= above && forall n :: n in made ==> next <= n < above
    {
      var links, first, n := StorePool(copied, next);
      var byHash, second := IndexByHash(top.packages, top.gz, n);
      made, above := first + second, n + 2;
      tree := Tree(top, Some(signature), sid, links, byHash);
      StageIsSound(tree, first, second, made, tools.sha);
    }

    /** The rename of the finished snapshot into place. */
    method StoreSnapshot(sid: Sid, ghost source: string, ghost files: Files, tree: Tree, made: map<Inode, string>,
                         top: Inode)
      requires Valid() && phase.Idle? && sid !in snapshots && files.Values <= known && made.Values <= known
      requires Packages.Valid(source, files, tools.sha) && SnapshotSigned(tree, sid, source, tools)
      requires FullStage(tree, PackagesOf(Stanzas.Records(source).value), files, made, tools.sha)
      requires next <= top && forall n :: n in made ==> next <= n < top
      modifies this`bytes, this`snapshots, this`next, this`run
      ensures Valid() && View() == old(View()).(bytes := old(bytes) + made, snapshots := old(snapshots)[sid := tree])
    {
      ghost var l := Step.Snapshot(sid, source, files, tree, made);
      SnapshotIsEnabled(View(), l, known, tools);
      ghost var longer, after := SnapshotOne(run, View(), l, tools, known);
      PutSnapshot(sid, tree, made, top, longer);
    }

    method PutSnapshot(sid: Sid, tree: Tree, made: map<Inode, string>, top: Inode, ghost longer: seq<Step>)
      requires (forall n :: n in bytes ==> n < next) && next <= top && forall n :: n in made ==> next <= n < top
      requires Reaches(longer, View().(bytes := bytes + made, snapshots := snapshots[sid := tree]), tools, known)
      modifies this`bytes, this`snapshots, this`next, this`run
      ensures Valid() && View() == old(View()).(bytes := old(bytes) + made, snapshots := old(snapshots)[sid := tree])
    {
      bytes, snapshots, next, run := bytes + made, snapshots[sid := tree], top, longer;
    }

    // ----- promote ---------------------------------------------------------------------------------------

    /** The snapshot verifies as itself. */
    predicate SnapshotVerifiesAs(sid: Sid)
      reads this
    {
      sid in snapshots && OnDisk(snapshots[sid], bytes, tools).Ok? &&
          OnDisk(snapshots[sid], bytes, tools).value.snapshot == Some(sid)
    }

    /** The testing channel verifies as a testing publication of this snapshot. */
    predicate TestingIs(sid: Sid)
      reads this
    {
      && Testing in pointers && pointers[Testing] in publications
      && OnDisk(publications[pointers[Testing]], bytes, tools) == Ok(Verified("testing", Some(sid)))
    }

    /** What stands against a promotion before anything is written. */
    function Objection(channel: Channel, sid: Sid, approved: bool): Option<Refusal>
      reads this
    {
      if !Identifier(sid) then Some(BadName)
      else if !SnapshotVerifiesAs(sid) then Some(BadSnapshot)
      else if channel == Stable && !TestingIs(sid) then Some(Untested)
      else if channel == Stable && !approved then Some(Unapproved)
      else None
    }

    /** `verify` of a directory. */
    method VerifyTree(t: Tree) returns (out: Result<Verified, Verification.Fault>)
      ensures out == OnDisk(t, bytes, tools)
    {
      if t.release.None? {
        return Err(BadRelease);
      }
      out := VerifyDirectory(t.top, SignedRelease(t.release.value, tools.sha), Contents(t.pool, bytes), tools);
    }

    method CheckSnapshot(sid: Sid) returns (ok: bool)
      ensures ok <==> SnapshotVerifiesAs(sid)
    {
      if sid !in snapshots {
        return false;
      }
      var found := VerifyTree(snapshots[sid]);
      ok := found.Ok? && found.value.snapshot == Some(sid);
    }

    method CheckTesting(sid: Sid) returns (ok: bool)
      ensures ok <==> TestingIs(sid)
    {
      if Testing !in pointers || pointers[Testing] !in publications {
        return false;
      }
      var found := VerifyTree(publications[pointers[Testing]]);
      ok := found == Ok(Verified("testing", Some(sid)));
    }

    method Check(channel: Channel, sid: Sid, approved: bool) returns (refusal: Option<Refusal>)
      ensures refusal == Objection(channel, sid, approved)
    {
      if !Identifier(sid) {
        return Some(BadName);
      }
      var isSnapshot := CheckSnapshot(sid);
      if !isSnapshot {
        return Some(BadSnapshot);
      }
      if channel == Stable {
        var isTested := CheckTesting(sid);
        if !isTested {
          return Some(Untested);
        }
        if !approved {
          return Some(Unapproved);
        }
      }
      refusal := None;
    }

    lemma SnapshotsAreReal(sid: Sid)
      requires Valid() && Apart()
      ensures SnapshotVerifiesAs(sid) <==> sid in snapshots
    {
      if sid in snapshots {
        Reached();
        SnapshotVerifies(View(), sid, tools);
      }
    }

    lemma TestingIsReal(sid: Sid)
      requires Valid() && Apart()
      ensures TestingIs(sid) <==> TestingShows(View(), sid)
    {
      if Testing in pointers && pointers[Testing] in publications {
        Reached();
        PointerIsOfChannel(View(), Testing, tools);
        PublicationVerifies(View(), pointers[Testing], tools);
      }
    }

    /** The code's checks of a promotion are those of the store: every directory there verifies as what it is. */
    lemma ObjectionIsReal(channel: Channel, sid: Sid, approved: bool)
      requires Valid() && Apart()
      ensures Objection(channel, sid, approved).None? <==>
                && Identifier(sid) && sid in snapshots
                && (channel == Stable ==> TestingShows(View(), sid) && approved)
    {
      SnapshotsAreReal(sid);
      TestingIsReal(sid);
    }

    /** What becomes of a promotion: its refusal, if anything stands against it. */
    ghost function Refuses(o: Order, approved: bool, signs: bool): Option<Refusal>
      reads this
    {
      if Objection(o.channel, o.sid, approved).Some? then Objection(o.channel, o.sid, approved)
      else if !AllFit(View(), o.files, 0, tools.sha) || !Unclashed(index, bytes, o.gz, tools.sha) then Some(Modified)
      else if !signs then Some(Unsigned)
      else if Key(o.channel, o.id) in publications then Some(Exists)
      else None
    }

    /**
     * `promote`. The order says where to, which snapshot, its files as they are found, the record, what the compressor
     * makes of the index, and the new publication's name; `signs` whether signing works. It goes through exactly when
     * nothing stands against it, and then does exactly what the store's theorems say; a refusal leaves every pointer
     * and publication as it was.
     */
    method Promote(o: Order, approved: bool, signs: bool) returns (refusal: Option<Refusal>)
      requires Valid() && Apart() && phase.Idle? && GoodHeading(o.heading) && o.gz in known
      requires o.sid in snapshots ==>
                 Sources(o.files, snapshots[o.sid]) && tools.gunzip(o.gz) == Some(snapshots[o.sid].top.packages)
      modifies this`bytes, this`pool, this`index, this`next, this`publications, this`audit, this`pointers, this`visible,
               this`shelf, this`shelves, this`phase, this`run
      ensures Valid() && phase.Idle? && refusal == old(Refuses(o, approved, signs))
      ensures old(Objection(o.channel, o.sid, approved)).Some? ==> View() == old(View())
      ensures refusal.Some? ==> Untouched(old(View()), View())
      ensures refusal.None? ==>
                o.sid in old(snapshots) && IsPromoted(old(View()), View(), o, tools) &&
                    audit == old(audit) + {Key(o.channel, o.id)}
      ensures refusal.None? ==> Shows(o.channel, if o.channel == Stable then "stable" else "testing", o.sid)
    {
      refusal := Check(o.channel, o.sid, approved);
      if refusal.None? {
        ObjectionIsReal(o.channel, o.sid, approved);
        refusal := Proceed(o, signs);
        if refusal.None? {
          PointerShows(o.channel);
        }
      }
    }

    /** What the channel points at verifies as of this suite and snapshot, and its Release says this suite. */
    ghost predicate Shows(channel: Channel, suite: string, sid: Sid)
      reads this
    {
      && channel in pointers && pointers[channel] in publications
      && IsOfSuite(publications[pointers[channel]], suite, sid, bytes, tools)
    }

    lemma PointerShows(channel: Channel)
      requires Valid() && Apart() && channel in pointers && pointers[channel] in publications
      requires pointers[channel].channel == channel
      ensures Shows(channel, if channel == Stable then "stable" else "testing",
                    publications[pointers[channel]].snapshot)
    {
      Reached();
      PublicationIsOfSuite(View(), pointers[channel], tools);
    }

    method Proceed(o: Order, signs: bool) returns (refusal: Option<Refusal>)
      requires Valid() && Apart() && phase.Idle? && GoodHeading(o.heading) && o.gz in known && o.sid in snapshots
      requires Sources(o.files, snapshots[o.sid]) && tools.gunzip(o.gz) == Some(snapshots[o.sid].top.packages)
      requires o.channel == Stable ==> TestingShows(View(), o.sid)
      modifies this`bytes, this`pool, this`index, this`next, this`publications, this`audit, this`pointers, this`visible,
               this`shelf, this`shelves, this`phase, this`run
      ensures Valid() && phase.Idle?
      ensures refusal == if !old(AllFit(View(), o.files, 0, tools.sha) && Unclashed(index, bytes, o.gz, tools.sha))
                         then Some(Modified)
                         else if !signs then Some(Unsigned)
                         else if Key(o.channel, o.id) in old(publications) then Some(Exists)
                         else None
      ensures refusal.Some? ==> Untouched(old(View()), View())
      ensures refusal.None? ==>
                IsPromoted(old(View()), View(), o, tools) && audit == old(audit) + {Key(o.channel, o.id)}
    {
      ghost var s := View();
      ShelfIsSound(run, s, tools, known);
      SnapshotIsItself(run, s, o.sid, tools, known);
      Start(o);
      ghost var begun := View();
      FitsAtBeginningIff(s, begun, o, tools.sha);
      var added := AddAll(o.channel, o.sid, o.files);
      if !added {
        Abort();
        return Some(Modified);
      }
      refusal := Finish(o, signs, s, begun);
    }

    method Start(o: Order)
      requires Valid() && phase.Idle? && o.sid in snapshots && Sources(o.files, snapshots[o.sid]) &&
               snapshots[o.sid].snapshot == o.sid
      requires o.channel == Stable ==> TestingShows(View(), o.sid)
      modifies this`phase, this`shelf, this`run
      ensures Valid() && phase == Adding(o.channel, o.sid, o.files, 0, None)
      ensures View() == old(View()).(phase := phase, shelf := Right(index, bytes, tools.sha))
    {
      ghost var longer, after := BeginOne(run, View(), o, tools, known);
      phase, shelf, run := Adding(o.channel, o.sid, o.files, 0, None), Right(index, bytes, tools.sha), longer;
      assert View() == after;
    }

    /** After the files: stage and check. */
    method StageAndCheck(o: Order, ghost s: Store, ghost begun: Store) returns (staged: Option<Tree>)
      requires Valid() && Apart() && phase == Adding(o.channel, o.sid, o.files, |o.files|, None) &&
               AllAdded(begun, View(), o.files)
      requires begun == s.(phase := begun.phase, shelf := Right(s.index, s.bytes, tools.sha))
      requires forall d :: d in s.index ==> s.index[d] in s.bytes
      requires o.gz in known && o.sid in snapshots && tools.gunzip(o.gz) == Some(snapshots[o.sid].top.packages)
      modifies this`phase, this`run
      ensures Valid() && View() == old(View()).(phase := phase)
      ensures staged.None? <==> !Unclashed(s.index, s.bytes, o.gz, tools.sha)
      ensures staged.Some? ==>
                phase == Staged(o.channel, o.sid, staged.value) &&
                staged.value == StagedTree(old(View()), o.sid, o.promotion)
      ensures staged.Some? ==> Signable(staged.value, o.gz, bytes, tools) && staged.value.top.packages in known
    {
      PoolArrived(run, View(), tools, known);
      GzFitsIff(run, begun, View(), o.gz, tools, known);
      var tree := StageAll(o.channel, o.sid, o.promotion);
      StagedIndexIsKnown(run, View(), tools, known);
      if tools.sha(o.gz) in index && tools.sha(bytes[index[tools.sha(o.gz)]]) != tools.sha(o.gz) {
        return None;
      }
      staged := Some(tree);
    }

    /** Then sign and publish. */
    method SignAndPublish(o: Order, staged: Tree, signs: bool) returns (refusal: Option<Refusal>)
      requires Valid() && Apart() && phase == Staged(o.channel, o.sid, staged) && Signable(staged, o.gz, bytes, tools)
      requires GoodHeading(o.heading) && o.gz in known && staged.top.packages in known
      modifies this`bytes, this`next, this`publications, this`audit, this`pointers, this`visible, this`shelves,
          this`phase, this`run
      ensures Valid() && phase.Idle?
      ensures refusal == if !signs then Some(Unsigned)
                         else if Key(o.channel, o.id) in old(publications) then Some(Exists) else None
      ensures refusal.Some? ==> Untouched(old(View()), View())
      ensures refusal.None? ==> Showing(old(View()), View(), o, staged) && audit == old(audit) + {Key(o.channel, o.id)}
    {
      var key := Key(o.channel, o.id);
      if !signs {
        Abort();
        return Some(Unsigned);
      }
      var signed := SignStage(o.channel, staged, o.gz, o.heading);
      if key in publications {
        Abort();
        return Some(Exists);
      }
      Publish(key, signed);
      refusal := None;
    }

    method Finish(o: Order, signs: bool, ghost s: Store, ghost begun: Store) returns (refusal: Option<Refusal>)
      requires Valid() && Apart() && phase == Adding(o.channel, o.sid, o.files, |o.files|, None) &&
               AllAdded(begun, View(), o.files)
      requires begun == s.(phase := begun.phase, shelf := Right(s.index, s.bytes, tools.sha))
      requires forall d :: d in s.index ==> s.index[d] in s.bytes
      requires GoodHeading(o.heading) && o.gz in known && o.sid in snapshots &&
               tools.gunzip(o.gz) == Some(snapshots[o.sid].top.packages)
      modifies this`bytes, this`next, this`publications, this`audit, this`pointers, this`visible, this`shelves,
          this`phase, this`run
      ensures Valid() && phase.Idle?
      ensures refusal == if !Unclashed(s.index, s.bytes, o.gz, tools.sha) then Some(Modified)
                         else if !signs then Some(Unsigned)
                         else if Key(o.channel, o.id) in s.publications then Some(Exists)
                         else None
      ensures refusal.Some? ==> Untouched(s, View())
      ensures refusal.None? ==> IsPromoted(s, View(), o, tools) && audit == s.audit + {Key(o.channel, o.id)}
    {
      ghost var added := View();
      FilesStay(run, added, o.files, tools, known);
      SnapshotIsItself(run, added, o.sid, tools, known);
      var staged := StageAndCheck(o, s, begun);
      if staged.None? {
        Abort();
        return Some(Modified);
      }
      refusal := SignAndPublish(o, staged.value, signs);
      if refusal.None? {
        ShowingIsPromoted(s, begun, added, View(), o, staged.value, tools);
      }
    }
  }

  /** The staged directory is published, signed, and its channel points at it. */
  ghost predicate Showing(a: Store, b: Store, o: Order, staged: Tree) {
    var key := Key(o.channel, o.id);
    && b.snapshots == a.snapshots && b.pool == a.pool && b.index == a.index && Within(a.bytes, b.bytes)
    && b.pointers == a.pointers[o.channel := key] && b.visible == a.visible + [key]
    && key in b.publications && b.publications == a.publications[key := b.publications[key]]
    && b.publications[key].top == staged.top.(gz := o.gz) && b.publications[key].snapshot == staged.snapshot
    && SignedFor(b.publications[key], o.channel, o.heading)
    && b.shelves == a.shelves[key := a.shelf]
  }

  lemma ShowingIsPromoted(s: Store, begun: Store, added: Store, t: Store, o: Order, staged: Tree, tools: Tools)
    requires o.sid in s.snapshots && begun == s.(phase := begun.phase, shelf := Right(s.index, s.bytes, tools.sha))
    requires AllAdded(begun, added, o.files) && AllFit(added, o.files, 0, tools.sha) &&
             added.snapshots[o.sid].snapshot == o.sid
    requires t.phase.Idle? && staged == StagedTree(added, o.sid, o.promotion) && Showing(added, t, o, staged)
    ensures IsPromoted(s, t, o, tools)
  {
    FitsWithin(added, t, o.files, tools.sha);
  }

  /** Every link of the directory is to one of these files. */
  predicate LinkedTo(t: Tree, made: map<Inode, string>) {
    (forall p :: p in t.pool ==> t.pool[p] in made) && (forall d :: d in t.byHash ==> t.byHash[d] in made)
  }

  /** The files of a snapshot's stage. */
  predicate FullStage(t: Tree, ps: seq<Option<Package>>, files: Files, made: map<Inode, string>,
                      sha: string -> string) {
    && LinkedTo(t, made) && OwnIndex(t, sha) && Contents(t.pool, made) == Packages.Copied(ps, files)
    && Indexed(t.byHash, made, t.top.packages, sha) && Indexed(t.byHash, made, t.top.gz, sha)
  }

  lemma SnapshotIsEnabled(s: Store, l: Step, known: set<string>, tools: Tools)
    requires l.Snapshot? && s.phase.Idle? && l.sid !in s.snapshots && l.files.Values <= known && l.made.Values <= known
    requires Packages.Valid(l.source, l.files, tools.sha) && SnapshotSigned(l.tree, l.sid, l.source, tools)
    requires FullStage(l.tree, PackagesOf(Stanzas.Records(l.source).value), l.files, l.made, tools.sha)
    requires forall n :: n in l.made ==> n !in s.bytes
    ensures Enabled(s, l, tools) && Brings(l) <= known
    ensures Do(s, l, tools) == s.(bytes := s.bytes + l.made, snapshots := s.snapshots[l.sid := l.tree])
  {
  }

  lemma IsStorable(source: string, files: Files, sha: string -> string, known: set<string>)
    requires Packages.Valid(source, files, sha) && Hashes(sha, known) && files.Values <= known
    ensures Storable(PackagesOf(Stanzas.Records(source).value), files)
  {
    SnapshotIsFaithful(source, files, sha);
    StorableIfValid(PackagesOf(Stanzas.Records(source).value), files, sha);
  }

  /** What clients of either channel see is the same. */
  predicate Untouched(a: Store, b: Store) {
    a.pointers == b.pointers && a.publications == b.publications && a.visible == b.visible && a.audit == b.audit
  }

  /** The snapshot of this source: its index rewritten, its packages copied, signed as it is. */
  ghost predicate IsSnapshotOf(t: Tree, sid: Sid, source: string, files: Files, manifest: string, gz: string,
                               bytes: map<Inode, string>,
                               tools: Tools)
  {
    && Stanzas.Records(source).Ok?
    && t.top == Top(Stanzas.Encode(Rewritten(Stanzas.Records(source).value)), gz, manifest, None)
    && Contents(t.pool, bytes) == Packages.Copied(PackagesOf(Stanzas.Records(source).value), files)
    && SnapshotSound(t, sid, bytes, tools)
  }

  lemma SnapshotIsSound(run: seq<Step>, s: Store, sid: Sid, tools: Tools, known: set<string>)
    requires Reaches(run, s, tools, known) && Hashes(tools.sha, known) && sid in s.snapshots
    ensures SnapshotSound(s.snapshots[sid], sid, s.bytes, tools)
  {
    ReachedIsSound(run, s, tools, known);
  }

  lemma PointerIsOfChannel(s: Store, c: Channel, tools: Tools)
    requires VisibleSound(s, tools) && c in s.pointers
    ensures s.pointers[c].channel == c
  {
  }

  lemma SameFits(s: Store, t: Store, order: seq<Copy>, k: nat, sha: string -> string)
    requires t.pool == s.pool && t.index == s.index && t.bytes == s.bytes
    ensures AllFit(t, order, k, sha) <==> AllFit(s, order, k, sha)
  {
    forall i | 0 <= i < |order| ensures Fits(t, order[i], sha) <==> Fits(s, order[i], sha) {
    }
  }

  lemma OthersFitAsBefore(order: seq<Copy>, tree: Tree, s: Store, t: Store, c: Copy, n: Inode, k: nat,
                          sha: string -> string)
    requires Sources(order, tree) && c in order && Promotion.Copied(s, t, c, n) && AllThere(s, order) &&
             Target(s, c).None?
    ensures AllFit(t, order, k, sha) <==> AllFit(s, order, k, sha)
  {
    forall i | 0 <= i < |order| ensures Fits(t, order[i], sha) <==> Fits(s, order[i], sha) {
      OthersStillFit(order, tree, s, t, c, order[i], n, sha);
    }
  }

  /** A file that fits was added: the others fit as they did. */
  lemma AddedKeepsFits(s: Store, t: Store, c: Copy, n: Inode, tree: Tree, sha: string -> string)
    requires Current(s) && s.phase.half.None? && c == s.phase.order[s.phase.k] && Sources(s.phase.order, tree)
    requires AllThere(s, s.phase.order) && c in s.phase.order
    requires Target(s, c).Some? ==> t == Skipped(s)
    requires Target(s, c).None? ==> CanStart(s, n, "") && CanEnd(Started(s, n, "")) && t == Completed(Started(s, n, ""))
    ensures OneAdded(s, t, c) && t.phase == s.phase.(k := s.phase.k + 1)
    ensures AllFit(t, s.phase.order, s.phase.k + 1, sha) <==> AllFit(s, s.phase.order, s.phase.k + 1, sha)
  {
    if Target(s, c).Some? {
      FoundIsAdded(s, c);
      SameFits(s, t, s.phase.order, s.phase.k + 1, sha);
    } else {
      StartThenEnd(s, n, c);
      CopiedIsAdded(s, t, c, n);
      OthersFitAsBefore(s.phase.order, tree, s, t, c, n, s.phase.k + 1, sha);
    }
  }

  lemma AddedThen(s: Store, mid: Store, t: Store, order: seq<Copy>, k: nat)
    requires k < |order| && AllAdded(s, mid, order[..k]) && OneAdded(mid, t, order[k])
    ensures AllAdded(s, t, order[..k + 1])
  {
    assert order[..k + 1] == order[..k] + [order[k]];
    assert Digests(order[..k + 1]) == Digests(order[..k]) + Digests([order[k]]);
  }

  lemma FitsSplit(s: Store, order: seq<Copy>, k: nat, sha: string -> string)
    requires k < |order|
    ensures AllFit(s, order, k, sha) <==> Fits(s, order[k], sha) && AllFit(s, order, k + 1, sha)
  {
  }

  lemma FitsAtBeginningIff(s: Store, t: Store, o: Order, sha: string -> string)
    requires t == s.(phase := t.phase, shelf := t.shelf)
    ensures AllFit(s, o.files, 0, sha) <==> AllFit(t, o.files, 0, sha)
  {
    SameFits(s, t, o.files, 0, sha);
  }

  /** Whether the compressed index clashes was settled before the promotion began. */
  lemma GzFitsIff(run: seq<Step>, before: Store, s: Store, gz: string, tools: Tools, known: set<string>)
    requires Reaches(run, s, tools, known) && Hashes(tools.sha, known)
    requires s.phase.Adding? && s.phase.half.None? && s.phase.k == |s.phase.order| && AllAdded(before, s, s.phase.order)
    requires forall d :: d in before.index ==> before.index[d] in before.bytes
    ensures Unclashed(before.index, before.bytes, gz, tools.sha) <==> Unclashed(s.index, s.bytes, gz, tools.sha)
    ensures tools.sha(gz) in s.index ==> s.index[tools.sha(gz)] in s.bytes
  {
    ShelfIsSound(run, s, tools, known);
    if Unclashed(before.index, before.bytes, gz, tools.sha) {
      DigestFits(before, s, gz, tools);
    }
  }

  lemma ShelfIsSound(run: seq<Step>, s: Store, tools: Tools, known: set<string>)
    requires Reaches(run, s, tools, known) && Hashes(tools.sha, known)
    ensures PhaseShelf(s, tools.sha) && forall d :: d in s.index ==> s.index[d] in s.bytes
  {
    ReachedIsSound(run, s, tools, known);
  }

  lemma StorableIfValid(ps: seq<Option<Package>>, files: Files, sha: string -> string)
    requires ValidList(ps, files, sha) && forall i :: 0 <= i < |ps| ==> ps[i].Some? && ps[i].value.path != []
    ensures Storable(ps, files)
  {
    forall i | 0 <= i < |ps| ensures ps[i].value.path in files {
      assert Holds(files, ps[i].value, sha);
    }
  }

  lemma {:induction false} CopiedValues(ps: seq<Option<Package>>, files: Files)
    ensures Packages.Copied(ps, files).Values <= files.Values
  {
    if ps != [] {
      var n := |ps| - 1;
      CopiedValues(ps[..n], files);
      var rest, all := Packages.Copied(ps[..n], files), Packages.Copied(ps, files);
      forall v | v in all.Values ensures v in files.Values {
        var p :| p in all && all[p] == v;
        if p in rest && rest[p] == v {
          assert v in rest.Values;
        }
      }
    }
  }

  /** Pool files and index files, made side by side, are what both parts say. */
  lemma StageIsSound(t: Tree, first: map<Inode, string>, second: map<Inode, string>, made: map<Inode, string>,
                     sha: string -> string)
    requires made == first + second && first.Keys !! second.Keys
    requires (forall p :: p in t.pool ==> t.pool[p] in first) && (forall d :: d in t.byHash ==> t.byHash[d] in second)
    ensures Contents(t.pool, made) == Contents(t.pool, first)
    ensures forall text :: Indexed(t.byHash, second, text, sha) ==> Indexed(t.byHash, made, text, sha)
    ensures (forall p :: p in t.pool ==> t.pool[p] in made) && (forall d :: d in t.byHash ==> t.byHash[d] in made)
    ensures made.Values <= first.Values + second.Values
  {
  }
}
