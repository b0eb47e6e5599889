/**
 * Promotions that go through: for any store in which nothing clashes, and one small repository from first to last step.
 */
module Promotion {
  import opened Text
  import opened Packages
  import opened Verification
  import opened Repository
  import opened Availability
  import Stanzas

  lemma {:induction false} AboveAll(ns: set<Inode>) returns (n: Inode)
    ensures forall k :: k in ns ==> k < n
    decreases ns
  {
    if ns == {} {
      n := 0;
    } else {
      var k :| k in ns;
      var m := AboveAll(ns - {k});
      n := if m <= k then k + 1 else m;
      assert forall i :: i in ns ==> i == k || i in ns - {k};
    }
  }

  /** Nothing of another content is in the shared store under the name of this file. */
  predicate Fits(s: Store, c: Copy, sha: string -> string) {
    Target(s, c).Some? ==>
      (Target(s, c).value in s.bytes && c.from in s.bytes && sha(s.bytes[Target(s, c).value]) == sha(s.bytes[c.from]))
  }

  /** Always true; mentioning it opens `Reaches`. */
  predicate Open(k: nat) {
    k >= 0
  }

  /**
   * A state that these steps lead to from nothing, with these contents. The quantifier keeps the run folded in proofs
   * that only carry it along; `Opened` unfolds it.
   */
  ghost predicate Reaches(run: seq<Step>, s: Store, tools: Tools, known: set<string>) {
    forall k: nat {:trigger Open(k)} :: Open(k) ==> Leads(EMPTY, run, s, tools) && ContentsOf(run) <= known
  }

  lemma Opened(run: seq<Step>, s: Store, tools: Tools, known: set<string>)
    requires Reaches(run, s, tools, known)
    ensures Leads(EMPTY, run, s, tools) && ContentsOf(run) <= known
  {
    assert Open(0);
  }

  lemma ReachedIsSound(run: seq<Step>, s: Store, tools: Tools, known: set<string>)
    requires Reaches(run, s, tools, known) && Hashes(tools.sha, known)
    ensures Inv(s, tools) && Knows(known, s)
  {
    Opened(run, s, tools, known);
    RunIsSound(run, tools, known);
  }

  lemma Onward(run: seq<Step>, s: Store, tools: Tools, known: set<string>, l: Step)
    requires Reaches(run, s, tools, known) && Enabled(s, l, tools) && Brings(l) <= known
    ensures Reaches(run + [l], Do(s, l, tools), tools, known)
  {
    Opened(run, s, tools, known);
    Then(EMPTY, run, s, tools, l);
    assert (run + [l])[..|run|] == run;
  }

  // ----- the files ---------------------------------------------------------------------------------

  /** Two files of one snapshot that share a name are the same file. */
  lemma SameSource(order: seq<Copy>, t: Tree, c: Copy, d: Copy)
    requires Sources(order, t) && c in order && d in order
    requires (c.PoolFile? && d.PoolFile? && c.path == d.path) || (c.IndexFile? && d.IndexFile? && c.digest == d.digest)
    ensures c == d
  {
  }

  /** The store after the file was copied, as far as other files can tell. */
  predicate Copied(s: Store, t: Store, c: Copy, n: Inode) {
    && t.pool == PoolWith(s.pool, c, n) && t.index == IndexWith(s.index, c, n) && c.from in s.bytes && n !in s.bytes
    && t.bytes == s.bytes[n := s.bytes[c.from]]
  }

  /** What the promotion of a snapshot leaves alone until it publishes. */
  predicate SameElse(s: Store, t: Store) {
    && t.snapshots == s.snapshots && t.publications == s.publications && t.pointers == s.pointers &&
       t.visible == s.visible
    && t.shelf == s.shelf && t.shelves == s.shelves && t.audit == s.audit
  }

  lemma StartThenEnd(s: Store, n: Inode, c: Copy)
    requires CanStart(s, n, "") && c == s.phase.order[s.phase.k]
    ensures var t := Completed(Started(s, n, ""));
            && CanEnd(Started(s, n, "")) && Copied(s, t, c, n) && SameElse(s, t)
            && t.phase == s.phase.(k := s.phase.k + 1)
  {
    var m := Started(s, n, "");
    assert m.bytes[n := m.bytes[c.from]] == s.bytes[n := s.bytes[c.from]];
  }

  /** Adding one file of the snapshot clashes with no other. */
  lemma OthersStillFit(order: seq<Copy>, tree: Tree, s: Store, t: Store, c: Copy, d: Copy, n: Inode,
                       sha: string -> string)
    requires Sources(order, tree) && c in order && d in order && Copied(s, t, c, n) && d.from in s.bytes
    requires Target(s, c).None? && (Target(s, d).Some? ==> Target(s, d).value in s.bytes)
    ensures Fits(t, d, sha) <==> Fits(s, d, sha)
  {
    if Target(t, d) != Target(s, d) {
      SameSource(order, tree, c, d);
    }
  }

  ghost predicate AllFit(s: Store, order: seq<Copy>, from: nat, sha: string -> string) {
    forall i :: from <= i < |order| ==> Fits(s, order[i], sha)
  }

  predicate AllThere(s: Store, order: seq<Copy>) {
    forall c :: c in order ==> c.from in s.bytes && (Target(s, c).Some? ==> Target(s, c).value in s.bytes)
  }

  lemma SourcesAreThere(run: seq<Step>, s: Store, tools: Tools, known: set<string>)
    requires Reaches(run, s, tools, known) && Hashes(tools.sha, known) && s.phase.Adding?
    ensures s.phase.sid in s.snapshots && Sources(s.phase.order, s.snapshots[s.phase.sid]) && AllThere(s, s.phase.order)
  {
    ReachedIsSound(run, s, tools, known);
    StoredIsThere(s, tools);
  }

  lemma StoredIsThere(s: Store, tools: Tools)
    requires StoreAllocated(s) && SnapshotsSound(s, tools) && PhaseSound(s, tools) && s.phase.Adding?
    ensures s.phase.sid in s.snapshots && Sources(s.phase.order, s.snapshots[s.phase.sid]) && AllThere(s, s.phase.order)
  {
    assert SnapshotSound(s.snapshots[s.phase.sid], s.phase.sid, s.bytes, tools);
    SourcesAllocated(s, s.snapshots[s.phase.sid]);
  }

  lemma SourcesAllocated(s: Store, tree: Tree)
    requires StoreAllocated(s) && s.phase.Adding? && Sources(s.phase.order, tree) && Allocated(tree, s.bytes)
    ensures AllThere(s, s.phase.order)
  {
  }

  lemma AllStillFit(order: seq<Copy>, tree: Tree, s: Store, t: Store, c: Copy, n: Inode, k: nat, sha: string -> string)
    requires Sources(order, tree) && c in order && Copied(s, t, c, n) && AllThere(s, order) && Target(s, c).None?
    requires AllFit(s, order, k, sha)
    ensures AllFit(t, order, k, sha)
  {
    forall i | k <= i < |order| ensures Fits(t, order[i], sha) {
      OthersStillFit(order, tree, s, t, c, order[i], n, sha);
    }
  }

  /** The shared store with one more file of the snapshot in it. */
  ghost predicate OneAdded(s: Store, t: Store, c: Copy) {
    && SameElse(s, t) && Within(s.index, t.index) && Within(s.bytes, t.bytes)
    && t.index.Keys == s.index.Keys + Digests([c])
  }

  lemma CopiedIsAdded(s: Store, t: Store, c: Copy, n: Inode)
    requires Copied(s, t, c, n) && SameElse(s, t) && Target(s, c).None?
    ensures OneAdded(s, t, c)
  {
    assert Digests([c]) == if c.IndexFile? then {c.digest} else {};
  }

  lemma FoundIsAdded(s: Store, c: Copy)
    requires Current(s) && c == s.phase.order[s.phase.k] && Target(s, c).Some?
    ensures OneAdded(s, Skipped(s), c)
  {
    assert Digests([c]) == if c.IndexFile? then {c.digest} else {};
  }

  lemma SkipOne(run: seq<Step>, s: Store, tools: Tools, known: set<string>) returns (longer: seq<Step>, t: Store)
    requires Reaches(run, s, tools, known) && IsPresent(s, tools.sha)
    ensures Reaches(longer, t, tools, known) && t == Skipped(s)
  {
    Onward(run, s, tools, known, Present);
    longer, t := run + [Present], Skipped(s);
  }

  lemma StartOne(run: seq<Step>, s: Store, tools: Tools, known: set<string>, n: Inode)
    returns (longer: seq<Step>, t: Store)
    requires Reaches(run, s, tools, known) && "" in known && CanStart(s, n, "")
    ensures Reaches(longer, t, tools, known) && t == Started(s, n, "")
  {
    Onward(run, s, tools, known, StartCopy(n, ""));
    longer, t := run + [StartCopy(n, "")], Started(s, n, "");
  }

  lemma EndOne(run: seq<Step>, s: Store, tools: Tools, known: set<string>) returns (longer: seq<Step>, t: Store)
    requires Reaches(run, s, tools, known) && CanEnd(s)
    ensures Reaches(longer, t, tools, known) && t == Completed(s)
  {
    Onward(run, s, tools, known, EndCopy);
    longer, t := run + [EndCopy], Completed(s);
  }

  lemma CopyOne(run: seq<Step>, s: Store, tools: Tools, known: set<string>, n: Inode, c: Copy)
    returns (longer: seq<Step>, t: Store)
    requires Reaches(run, s, tools, known) && Hashes(tools.sha, known) && "" in known
    requires CanStart(s, n, "") && c == s.phase.order[s.phase.k]
    ensures Reaches(longer, t, tools, known) && SameElse(s, t) && t.phase == s.phase.(k := s.phase.k + 1) &&
            Copied(s, t, c, n)
  {
    var mid;
    StartThenEnd(s, n, c);
    longer, mid := StartOne(run, s, tools, known, n);
    longer, t := EndOne(longer, mid, tools, known);
  }

  /** One file that fits, copied or found. */
  lemma OneFile(run: seq<Step>, s: Store, tools: Tools, known: set<string>) returns (longer: seq<Step>, t: Store)
    requires Reaches(run, s, tools, known) && Hashes(tools.sha, known) && "" in known
    requires s.phase.Adding? && s.phase.half.None? && s.phase.k < |s.phase.order| &&
             AllFit(s, s.phase.order, s.phase.k, tools.sha)
    ensures Reaches(longer, t, tools, known) && OneAdded(s, t, s.phase.order[s.phase.k])
    ensures t.phase == s.phase.(k := s.phase.k + 1) && AllFit(t, s.phase.order, s.phase.k + 1, tools.sha)
  {
    var order, c, k := s.phase.order, s.phase.order[s.phase.k], s.phase.k;
    SourcesAreThere(run, s, tools, known);
    assert c in order && Fits(s, c, tools.sha);
    if Target(s, c).Some? {
      longer, t := SkipOne(run, s, tools, known);
      FoundIsAdded(s, c);
      FitsInSame(s, t, order, k, tools.sha);
    } else {
      var n := AboveAll(s.bytes.Keys);
      longer, t := CopyOne(run, s, tools, known, n, c);
      CopiedIsAdded(s, t, c, n);
      AllStillFit(order, s.snapshots[s.phase.sid], s, t, c, n, k, tools.sha);
    }
  }

  lemma FitsInSame(s: Store, t: Store, order: seq<Copy>, k: nat, sha: string -> string)
    requires t.pool == s.pool && t.index == s.index && t.bytes == s.bytes && AllFit(s, order, k, sha)
    ensures AllFit(t, order, k, sha)
  {
    forall i | k <= i < |order| ensures Fits(t, order[i], sha) {
      assert Fits(s, order[i], sha);
    }
  }

  /** All files, if they all fit. */
  lemma {:induction false} AllFiles(run: seq<Step>, s: Store, tools: Tools, known: set<string>)
    returns (longer: seq<Step>, t: Store)
    requires Reaches(run, s, tools, known) && Hashes(tools.sha, known) && "" in known
    requires s.phase.Adding? && s.phase.half.None? && s.phase.k <= |s.phase.order| &&
             AllFit(s, s.phase.order, s.phase.k, tools.sha)
    ensures Reaches(longer, t, tools, known) && t.phase == s.phase.(k := |s.phase.order|)
    ensures AllAdded(s, t, s.phase.order[s.phase.k..])
    decreases |s.phase.order| - s.phase.k
  {
    var order, k := s.phase.order, s.phase.k;
    if k == |order| {
      longer, t := run, s;
      assert order[k..] == [] && Digests(order[k..]) == {};
    } else {
      var mid;
      longer, mid := OneFile(run, s, tools, known);
      longer, t := AllFiles(longer, mid, tools, known);
      AddedOnwards(s, mid, t, order[k], order[k + 1..]);
      assert order[k..] == [order[k]] + order[k + 1..];
    }
  }

  ghost predicate AllAdded(s: Store, t: Store, files: seq<Copy>) {
    && SameElse(s, t) && Within(s.index, t.index) && Within(s.bytes, t.bytes)
    && t.index.Keys == s.index.Keys + Digests(files)
  }

  lemma AddedOnwards(s: Store, mid: Store, t: Store, c: Copy, rest: seq<Copy>)
    requires OneAdded(s, mid, c) && AllAdded(mid, t, rest)
    ensures AllAdded(s, t, [c] + rest)
  {
    assert Digests([c] + rest) == Digests([c]) + Digests(rest);
  }

  // ----- from the files to the switch ----------------------------------------------------------------

  lemma ValidInMore(ps: seq<Option<Package>>, small: Files, large: Files, sha: string -> string)
    requires ValidList(ps, small, sha) && forall p :: p in small ==> p in large && large[p] == small[p]
    ensures ValidList(ps, large, sha)
  {
    forall i | 0 <= i < |ps| ensures Holds(large, ps[i].value, sha) {
      assert Holds(small, ps[i].value, sha);
    }
  }

  lemma PoolArrived(run: seq<Step>, s: Store, tools: Tools, known: set<string>)
    requires Reaches(run, s, tools, known) && Hashes(tools.sha, known)
    requires s.phase.Adding? && s.phase.half.None? && s.phase.k == |s.phase.order|
    ensures s.phase.sid in s.snapshots &&
            Valid(s.snapshots[s.phase.sid].top.packages, Contents(s.pool, s.bytes), tools.sha)
  {
    ReachedIsSound(run, s, tools, known);
    AllArrived(s, tools);
  }

  lemma FileArrived(s: Store, tree: Tree, p: Path)
    requires s.phase.Adding? && s.phase.k == |s.phase.order| && Sources(s.phase.order, tree) && p in tree.pool
    requires forall i :: 0 <= i < s.phase.k ==> Arrived(s, s.phase.order[i])
    ensures p in Contents(s.pool, s.bytes) && tree.pool[p] in s.bytes &&
            Contents(s.pool, s.bytes)[p] == s.bytes[tree.pool[p]]
  {
    assert PoolFile(p, tree.pool[p]) in s.phase.order;
    var i :| 0 <= i < |s.phase.order| && s.phase.order[i] == PoolFile(p, tree.pool[p]);
    assert Arrived(s, s.phase.order[i]);
  }

  lemma AllArrived(s: Store, tools: Tools)
    requires SnapshotsSound(s, tools) && PhaseSound(s, tools) && s.phase.Adding? && s.phase.half.None? &&
             s.phase.k == |s.phase.order|
    ensures Valid(s.snapshots[s.phase.sid].top.packages, Contents(s.pool, s.bytes), tools.sha)
  {
    var tree := s.snapshots[s.phase.sid];
    assert SnapshotSound(tree, s.phase.sid, s.bytes, tools);
    var small, large := Contents(tree.pool, s.bytes), Contents(s.pool, s.bytes);
    forall p | p in small ensures p in large && large[p] == small[p] {
      FileArrived(s, tree, p);
    }
    ValidTextInMore(tree.top.packages, small, large, tools.sha);
  }

  lemma ValidTextInMore(text: string, small: Files, large: Files, sha: string -> string)
    requires Valid(text, small, sha) && forall p :: p in small ==> p in large && large[p] == small[p]
    ensures Valid(text, large, sha)
  {
    ValidInMore(PackagesOf(Stanzas.Records(text).value), small, large, sha);
  }

  /** What the index holds under this digest was there before, or came from the snapshot; either way it is right. */
  lemma GzFits(run: seq<Step>, before: Store, s: Store, gz: string, tools: Tools, known: set<string>)
    requires Reaches(run, s, tools, known) && Hashes(tools.sha, known)
    requires s.phase.Adding? && s.phase.half.None? && s.phase.k == |s.phase.order|
    requires Within(before.index, s.index) && Within(before.bytes, s.bytes) &&
             Unclashed(before.index, before.bytes, gz, tools.sha)
    requires s.index.Keys == before.index.Keys + Digests(s.phase.order)
    ensures Unclashed(s.index, s.bytes, gz, tools.sha)
  {
    ReachedIsSound(run, s, tools, known);
    DigestFits(before, s, gz, tools);
  }

  lemma DigestFits(before: Store, s: Store, gz: string, tools: Tools)
    requires PhaseShelf(s, tools.sha) && s.phase.Adding? && s.phase.half.None? && s.phase.k == |s.phase.order|
    requires Within(before.index, s.index) && Within(before.bytes, s.bytes) &&
             Unclashed(before.index, before.bytes, gz, tools.sha)
    requires s.index.Keys == before.index.Keys + Digests(s.phase.order)
    ensures Unclashed(s.index, s.bytes, gz, tools.sha)
  {
    var d := tools.sha(gz);
    if d in s.index && d !in before.index {
      assert s.phase.order[..s.phase.k] == s.phase.order;
      assert d in Settled(s, tools.sha);
    }
  }

  lemma NewIndexLinks(t: Tree, gz: string, n: Inode, sha: string -> string)
    returns (made: map<Inode, string>, added: map<string, Inode>)
    requires gz == t.top.packages || sha(gz) != sha(t.top.packages)
    ensures Adds(t, gz, made, added, sha) && made.Values <= {t.top.packages, gz} && forall k :: k in made ==> n <= k
  {
    made, added := map[], map[];
    var first, second := sha(t.top.packages), sha(gz);
    if first !in t.byHash {
      made, added := map[n := t.top.packages], map[first := n];
    }
    if second !in t.byHash {
      made, added := made[n + 1 := gz], added[second := n + 1];
    }
    assert second in added ==> made[added[second]] == gz;
    assert first in added ==> made[added[first]] == t.top.packages;
  }

  lemma StageOne(run: seq<Step>, s: Store, promotion: string, tools: Tools, known: set<string>)
    returns (longer: seq<Step>, t: Store)
    requires Reaches(run, s, tools, known)
    requires s.phase.Adding? && s.phase.half.None? && s.phase.k == |s.phase.order| && s.phase.sid in s.snapshots
    ensures Reaches(longer, t, tools, known) && t == s.(phase := t.phase)
    ensures t.phase == Staged(s.phase.channel, s.phase.sid, StagedTree(s, s.phase.sid, promotion))
  {
    Onward(run, s, tools, known, Stage(promotion));
    longer, t := run + [Stage(promotion)], Do(s, Stage(promotion), tools);
  }

  lemma StagedIndexIsKnown(run: seq<Step>, s: Store, tools: Tools, known: set<string>)
    requires Reaches(run, s, tools, known) && Hashes(tools.sha, known) && s.phase.Staged?
    ensures s.phase.tree.top.packages in known && Indexed(s.index, s.bytes, s.phase.tree.top.packages, tools.sha)
  {
    ReachedIsSound(run, s, tools, known);
    assert Indexed(s.index, s.bytes, s.phase.tree.top.packages, tools.sha);
  }

  /** Signed under this heading for the suite of its channel, over the files at its top as they are. */
  predicate SignedFor(t: Tree, channel: Channel, heading: Heading) {
    t.release == Some(Signature(if channel == Stable then "stable" else "testing", heading, t.top))
  }

  lemma SignOne(run: seq<Step>, s: Store, gz: string, heading: Heading, tools: Tools, known: set<string>)
    returns (longer: seq<Step>, t: Store)
    requires Reaches(run, s, tools, known) && Hashes(tools.sha, known) && gz in known
    requires s.phase.Staged? && Signable(s.phase.tree, gz, s.bytes, tools) && GoodHeading(heading)
    ensures Reaches(longer, t, tools, known) && SameElse(s, t) && t.index == s.index && t.pool == s.pool &&
            Within(s.bytes, t.bytes)
    ensures t.phase.Signed? && t.phase.channel == s.phase.channel && t.phase.sid == s.phase.sid
    ensures t.phase.tree.top == s.phase.tree.top.(gz := gz) && t.phase.tree.snapshot == s.phase.tree.snapshot
    ensures SignedFor(t.phase.tree, t.phase.channel, heading)
  {
    StagedIndexIsKnown(run, s, tools, known);
    var n := AboveAll(s.bytes.Keys);
    var made, added := NewIndexLinks(s.phase.tree, gz, n, tools.sha);
    longer, t := SignNow(run, s, gz, heading, made, added, tools, known);
    assert Within(s.bytes, s.bytes + made);
  }

  lemma SignStep(run: seq<Step>, s: Store, l: Step, tools: Tools, known: set<string>)
    returns (longer: seq<Step>, t: Store)
    requires Reaches(run, s, tools, known) && l.Sign? && Enabled(s, l, tools) && Brings(l) <= known
    ensures Reaches(longer, t, tools, known) && t == WithSigned(s, l.gz, l.heading, l.made, l.added)
  {
    Onward(run, s, tools, known, l);
    longer, t := run + [l], Do(s, l, tools);
  }

  /** Signing with these by-hash files. */
  lemma SignNow(run: seq<Step>, s: Store, gz: string, heading: Heading, made: map<Inode, string>,
                added: map<string, Inode>, tools: Tools,
                known: set<string>) returns (longer: seq<Step>, t: Store)
    requires Reaches(run, s, tools, known) && s.phase.Staged? && Signable(s.phase.tree, gz, s.bytes, tools) &&
             GoodHeading(heading)
    requires (forall n :: n in made ==> n !in s.bytes) && Adds(s.phase.tree, gz, made, added, tools.sha)
    requires made.Values <= {s.phase.tree.top.packages, gz} && s.phase.tree.top.packages in known && gz in known
    ensures Reaches(longer, t, tools, known) && t == WithSigned(s, gz, heading, made, added)
  {
    var l := Sign(gz, heading, made, added);
    assert Brings(l) <= known;
    longer, t := SignStep(run, s, l, tools, known);
  }

  lemma PublishOne(run: seq<Step>, s: Store, key: Key, tools: Tools, known: set<string>)
    returns (longer: seq<Step>, t: Store)
    requires Reaches(run, s, tools, known) && s.phase.Signed? && s.phase.channel == key.channel &&
             key !in s.publications
    ensures Reaches(longer, t, tools, known) && t == Placed(s, key)
  {
    Onward(run, s, tools, known, Publish(key.id));
    longer, t := run + [Publish(key.id)], Placed(s, key);
  }

  lemma AuditOne(run: seq<Step>, s: Store, key: Key, tools: Tools, known: set<string>)
    returns (longer: seq<Step>, t: Store)
    requires Reaches(run, s, tools, known) && s.phase == Published(key)
    ensures Reaches(longer, t, tools, known) && t == s.(audit := s.audit + {key}, phase := Audited(key))
  {
    Onward(run, s, tools, known, Audit);
    longer, t := run + [Audit], Do(s, Audit, tools);
  }

  lemma SwitchLast(run: seq<Step>, s: Store, tools: Tools, known: set<string>) returns (longer: seq<Step>, t: Store)
    requires Reaches(run, s, tools, known) && s.phase.Audited?
    ensures Reaches(longer, t, tools, known) && t == Switched(s)
  {
    Onward(run, s, tools, known, Switch);
    longer, t := run + [Switch], Switched(s);
  }

  lemma StopOne(run: seq<Step>, s: Store, tools: Tools, known: set<string>) returns (longer: seq<Step>, t: Store)
    requires Reaches(run, s, tools, known)
    ensures Reaches(longer, t, tools, known) && t == s.(phase := Idle)
  {
    Onward(run, s, tools, known, Stop);
    longer, t := run + [Stop], Do(s, Stop, tools);
  }

  lemma SnapshotOne(run: seq<Step>, s: Store, l: Step, tools: Tools, known: set<string>)
    returns (longer: seq<Step>, t: Store)
    requires Reaches(run, s, tools, known) && l.Snapshot? && Enabled(s, l, tools) && Brings(l) <= known
    ensures Reaches(longer, t, tools, known) &&
            t == s.(bytes := s.bytes + l.made, snapshots := s.snapshots[l.sid := l.tree])
  {
    Onward(run, s, tools, known, l);
    longer, t := run + [l], Do(s, l, tools);
  }

  lemma SwitchOne(run: seq<Step>, s: Store, id: string, tools: Tools, known: set<string>)
    returns (longer: seq<Step>, t: Store)
    requires Reaches(run, s, tools, known) && Hashes(tools.sha, known)
    requires s.phase.Signed? && Key(s.phase.channel, id) !in s.publications
    ensures Reaches(longer, t, tools, known) && t.phase.Idle? && t.index == s.index && t.pool == s.pool &&
            t.bytes == s.bytes
    ensures var key := Key(s.phase.channel, id);
            && t.pointers == s.pointers[s.phase.channel := key] && t.visible == s.visible + [key] &&
               t.snapshots == s.snapshots
            && t.publications == s.publications[key := s.phase.tree] && t.shelves == s.shelves[key := s.shelf]
  {
    var key := Key(s.phase.channel, id);
    var placed, audited;
    longer, placed := PublishOne(run, s, key, tools, known);
    longer, audited := AuditOne(longer, placed, key, tools, known);
    longer, t := SwitchLast(longer, audited, tools, known);
  }

  /** The inputs of one promotion. */
  datatype Order = Order(channel: Channel, sid: Sid, files: seq<Copy>, promotion: string, gz: string, heading: Heading,
                         id: string)

  /** Nothing stands against it: the code's own checks, a compressor that works, and no clash in the shared store. */
  ghost predicate CanPromote(s: Store, o: Order, tools: Tools) {
    && s.phase.Idle? && o.sid in s.snapshots && Sources(o.files, s.snapshots[o.sid]) &&
       (o.channel == Stable ==> TestingShows(s, o.sid))
    && tools.gunzip(o.gz) == Some(s.snapshots[o.sid].top.packages) && GoodHeading(o.heading)
    && AllFit(s, o.files, 0, tools.sha) && Unclashed(s.index, s.bytes, o.gz, tools.sha)
    && Key(o.channel, o.id) !in s.publications
  }

  /** What a promotion that went through has changed. */
  ghost predicate IsPromoted(s: Store, t: Store, o: Order, tools: Tools)
    requires o.sid in s.snapshots
  {
    var key := Key(o.channel, o.id);
    && t.phase.Idle? && t.snapshots == s.snapshots && t.pointers == s.pointers[o.channel := key] &&
       t.visible == s.visible + [key]
    && key in t.publications && t.publications == s.publications[key := t.publications[key]]
    && t.publications[key].top == s.snapshots[o.sid].top.(gz := o.gz, promotion := Some(o.promotion))
    && t.publications[key].snapshot == o.sid && SignedFor(t.publications[key], o.channel, o.heading)
    && t.shelves == s.shelves[key := Right(s.index, s.bytes, tools.sha)]
    && Within(s.index, t.index) && Within(s.bytes, t.bytes) && t.index.Keys == s.index.Keys + Digests(o.files)
    && AllFit(t, o.files, 0, tools.sha)
  }

  lemma SnapshotIsItself(run: seq<Step>, s: Store, sid: Sid, tools: Tools, known: set<string>)
    requires Reaches(run, s, tools, known) && Hashes(tools.sha, known) && sid in s.snapshots
    ensures s.snapshots[sid].snapshot == sid
  {
    ReachedIsSound(run, s, tools, known);
    assert SnapshotSound(s.snapshots[sid], sid, s.bytes, tools);
  }

  lemma BeginOne(run: seq<Step>, s: Store, o: Order, tools: Tools, known: set<string>)
    returns (longer: seq<Step>, t: Store)
    requires Reaches(run, s, tools, known) && s.phase.Idle? && o.sid in s.snapshots &&
             s.snapshots[o.sid].snapshot == o.sid
    requires Sources(o.files, s.snapshots[o.sid]) && (o.channel == Stable ==> TestingShows(s, o.sid))
    ensures Reaches(longer, t, tools, known) && t.phase == Adding(o.channel, o.sid, o.files, 0, None)
    ensures t == s.(phase := t.phase, shelf := Right(s.index, s.bytes, tools.sha))
  {
    var l := Begin(o.channel, o.sid, o.files);
    Onward(run, s, tools, known, l);
    longer, t := run + [l], Do(s, l, tools);
  }

  lemma FitsAtBeginning(s: Store, t: Store, o: Order, sha: string -> string)
    requires AllFit(s, o.files, 0, sha) && t == s.(phase := t.phase, shelf := t.shelf)
    ensures AllFit(t, o.files, 0, sha)
  {
    forall i | 0 <= i < |o.files| ensures Fits(t, o.files[i], sha) {
      assert Fits(s, o.files[i], sha);
    }
  }

  /** From any sound state a promotion that nothing stands against goes through. */
  lemma PromotionGoesThrough(run: seq<Step>, s: Store, o: Order, tools: Tools, known: set<string>)
    returns (longer: seq<Step>, t: Store)
    requires Reaches(run, s, tools, known) && Hashes(tools.sha, known) && o.gz in known && "" in known
    requires CanPromote(s, o, tools)
    ensures Reaches(longer, t, tools, known) && IsPromoted(s, t, o, tools)
  {
    var begun, added, staged, signed;
    SnapshotIsItself(run, s, o.sid, tools, known);
    longer, begun := BeginOne(run, s, o, tools, known);
    FitsAtBeginning(s, begun, o, tools.sha);
    longer, added := AllFiles(longer, begun, tools, known);
    assert begun.phase.order[begun.phase.k..] == o.files;
    PoolArrived(longer, added, tools, known);
    FilesStay(longer, added, o.files, tools, known);
    GzFits(longer, begun, added, o.gz, tools, known);
    SnapshotIsItself(run, s, o.sid, tools, known);
    longer, staged := StageOne(longer, added, o.promotion, tools, known);
    StagedIndexIsKnown(longer, staged, tools, known);
    longer, signed := SignOne(longer, staged, o.gz, o.heading, tools, known);
    longer, t := SwitchOne(longer, signed, o.id, tools, known);
    FitsWithin(added, t, o.files, tools.sha);
  }

  /** What has arrived fits. */
  lemma FilesStay(run: seq<Step>, s: Store, files: seq<Copy>, tools: Tools, known: set<string>)
    requires Reaches(run, s, tools, known) && Hashes(tools.sha, known)
    requires s.phase.Adding? && s.phase.order == files && s.phase.k == |files|
    ensures AllFit(s, files, 0, tools.sha)
  {
    ReachedIsSound(run, s, tools, known);
    forall i | 0 <= i < |files| ensures Fits(s, files[i], tools.sha) {
      assert Arrived(s, files[i]);
    }
  }

  lemma FitsWithin(s: Store, t: Store, files: seq<Copy>, sha: string -> string)
    requires AllFit(s, files, 0, sha) && t.pool == s.pool && t.index == s.index && Within(s.bytes, t.bytes)
    ensures AllFit(t, files, 0, sha)
  {
    forall i | 0 <= i < |files| ensures Fits(t, files[i], sha) {
      assert Fits(s, files[i], sha);
    }
  }

  // ----- losing a compressed index -----------------------------------------------------------------

  /** A compressed index that neither the shared index nor the snapshot has. */
  ghost predicate IsOwnCompression(s: Store, o: Order, sha: string -> string) {
    && o.sid in s.snapshots && Sources(o.files, s.snapshots[o.sid])
    && sha(o.gz) !in s.index && sha(o.gz) !in s.snapshots[o.sid].byHash
  }

  lemma NotOnTheShelf(r: Store, s: Store, t: Store, o: Order, again: Order, tools: Tools)
    requires o.sid in r.snapshots && again.sid == o.sid && IsPromoted(r, s, o, tools) && IsPromoted(s, t, again, tools)
    requires IsOwnCompression(r, o, tools.sha)
    ensures var q := Key(again.channel, again.id);
            && q in t.shelves && q in t.publications && t.publications[q].snapshot in t.snapshots
            && tools.sha(o.gz) !in t.shelves[q] && tools.sha(o.gz) !in t.snapshots[t.publications[q].snapshot].byHash
            && t.publications[q].top.gz == again.gz
  {
    AllDigests(o.files, r.snapshots[o.sid]);
    assert tools.sha(o.gz) !in s.index.Keys;
  }

  lemma SecondHasNot(run: seq<Step>, r: Store, s: Store, t: Store, o: Order, again: Order, tools: Tools)
    requires Leads(EMPTY, run, t, tools) && Hashes(tools.sha, ContentsOf(run) + {o.gz})
    requires o.sid in r.snapshots && again.sid == o.sid && IsPromoted(r, s, o, tools) && IsPromoted(s, t, again, tools)
    requires IsOwnCompression(r, o, tools.sha) && again.gz != o.gz && Key(again.channel, again.id) !in s.publications
    ensures Lost(t, Key(o.channel, o.id), Key(again.channel, again.id), tools.sha)
  {
    var p, q := Key(o.channel, o.id), Key(again.channel, again.id);
    NotOnTheShelf(r, s, t, o, again, tools);
    assert t.publications[p] == s.publications[p];
    CompressedIndexIsKeptIff(run, tools, p, o.gz);
    CompressedIndexIsKeptIff(run, tools, q, o.gz);
  }

  /** `p` serves its compressed index under its digest, `q` does not. */
  predicate Lost(s: Store, p: Key, q: Key, sha: string -> string) {
    && p in s.publications && q in s.publications
    && Indexed(s.publications[p].byHash, s.bytes, s.publications[p].top.gz, sha)
    && !Indexed(s.publications[q].byHash, s.bytes, s.publications[p].top.gz, sha)
  }

  /** The same promotion under another name and another compression. */
  predicate Repeats(o: Order, again: Order) {
    && again.channel == o.channel && again.sid == o.sid && again.files == o.files && again.heading == o.heading
    && again.id != o.id && again.gz != o.gz
  }

  lemma CanPromoteAgain(r: Store, s: Store, o: Order, again: Order, tools: Tools)
    requires CanPromote(r, o, tools) && IsPromoted(r, s, o, tools) && Repeats(o, again)
    requires tools.gunzip(again.gz) == Some(r.snapshots[o.sid].top.packages) && IsOwnCompression(r, again, tools.sha)
    requires Key(again.channel, again.id) !in r.publications
    ensures CanPromote(s, again, tools)
  {
    AllDigests(o.files, r.snapshots[o.sid]);
    assert tools.sha(again.gz) !in s.index.Keys;
  }

  /**
   * Whatever came before: a snapshot promoted under a compression of its own, and then again under another one, leaves
   * its channel at a publication that has not got the compressed index shown just before.
   */
  lemma RecompressionLoses(run: seq<Step>, r: Store, o: Order, again: Order, tools: Tools, known: set<string>)
    returns (longer: seq<Step>, t: Store)
    requires Reaches(run, r, tools, known) && Hashes(tools.sha, known) && o.gz in known && again.gz in known &&
             "" in known
    requires CanPromote(r, o, tools) && IsOwnCompression(r, o, tools.sha)
    requires Repeats(o, again) && tools.gunzip(again.gz) == Some(r.snapshots[o.sid].top.packages)
    requires IsOwnCompression(r, again, tools.sha) && Key(again.channel, again.id) !in r.publications
    ensures Reaches(longer, t, tools, known) && Hashes(tools.sha, ContentsOf(longer))
    ensures t.visible == r.visible + [Key(o.channel, o.id), Key(o.channel, again.id)]
    ensures t.pointers == r.pointers[o.channel := Key(o.channel, again.id)]
    ensures Lost(t, Key(o.channel, o.id), Key(o.channel, again.id), tools.sha)
  {
    var s;
    longer, s, t := PromotedTwice(run, r, o, again, tools, known);
    SwitchedTwice(r, s, t, o, again, tools);
    Opened(longer, t, tools, known);
    SecondHasNot(longer, r, s, t, o, again, tools);
  }

  lemma PromotedTwice(run: seq<Step>, r: Store, o: Order, again: Order, tools: Tools, known: set<string>)
    returns (longer: seq<Step>, s: Store, t: Store)
    requires Reaches(run, r, tools, known) && Hashes(tools.sha, known) && o.gz in known && again.gz in known &&
             "" in known
    requires CanPromote(r, o, tools) && Repeats(o, again) &&
             tools.gunzip(again.gz) == Some(r.snapshots[o.sid].top.packages)
    requires IsOwnCompression(r, again, tools.sha) && Key(again.channel, again.id) !in r.publications
    ensures Reaches(longer, t, tools, known) && IsPromoted(r, s, o, tools) && o.sid in s.snapshots &&
            IsPromoted(s, t, again, tools)
  {
    longer, s := PromotionGoesThrough(run, r, o, tools, known);
    CanPromoteAgain(r, s, o, again, tools);
    longer, t := PromotionGoesThrough(longer, s, again, tools, known);
  }

  lemma SwitchedTwice(r: Store, s: Store, t: Store, o: Order, again: Order, tools: Tools)
    requires o.sid in r.snapshots && again.sid == o.sid && IsPromoted(r, s, o, tools) && IsPromoted(s, t, again, tools)
    requires Repeats(o, again) && Key(again.channel, again.id) !in r.publications
    ensures t.visible == r.visible + [Key(o.channel, o.id), Key(o.channel, again.id)]
    ensures t.pointers == r.pointers[o.channel := Key(o.channel, again.id)] &&
            Key(again.channel, again.id) !in s.publications
  {
    assert t.visible == (r.visible + [Key(o.channel, o.id)]) + [Key(o.channel, again.id)];
  }
}
