/** The directories of the package store as `verify` finds them. */
module SignedStore {
  import opened Text
  import opened Packages
  import opened Verification
  import opened Repository
  import opened Availability

  /** `verify` of a directory, with the Release text that was written and the files that are there. */
  function OnDisk(t: Tree, bytes: map<Inode, string>, tools: Tools): Result<Verified, Fault> {
    if t.release.None? then Err(BadRelease)
    else Verify(t.top, SignedRelease(t.release.value, tools.sha), Contents(t.pool, bytes), tools)
  }

  lemma SuiteIsWord(suite: string)
    requires suite == "snapshot" || suite == "testing" || suite == "stable"
    ensures OneLine(suite) && LStrip(suite) == suite
  {
    Unpadded(suite);
  }

  /** What is signed as it is and has a good index verifies as what it is. */
  lemma SoundVerifies(t: Tree, suite: string, bytes: map<Inode, string>, tools: Tools)
    requires Sound(t, suite, bytes, tools) && forall a :: Release.HexDigest(tools.sha(a))
    requires suite == "snapshot" || suite == "testing" || suite == "stable"
    ensures OnDisk(t, bytes, tools) == Ok(Verified(suite, Some(t.snapshot)))
  {
    SuiteIsWord(suite);
    SignedVerifies(t.release.value, Contents(t.pool, bytes), tools);
  }

  /**
   * In every reachable state each snapshot passes `verify` as itself, each publication as one of its channel and
   * snapshot.
   */
  lemma EveryDirectoryVerifies(run: seq<Step>, tools: Tools)
    requires Hashes(tools.sha, ContentsOf(run)) && Follows(EMPTY, run, tools)
    ensures var s := After(EMPTY, run, tools);
            forall sid :: sid in s.snapshots ==>
                OnDisk(s.snapshots[sid], s.bytes, tools) == Ok(Verified("snapshot", Some(sid)))
    ensures var s := After(EMPTY, run, tools);
            forall key :: key in s.publications ==>
              OnDisk(s.publications[key], s.bytes, tools) ==
                  Ok(Verified(SuiteOf(key.channel), Some(s.publications[key].snapshot)))
  {
    RunIsSound(run, tools, ContentsOf(run));
    var s := After(EMPTY, run, tools);
    forall sid | sid in s.snapshots
        ensures OnDisk(s.snapshots[sid], s.bytes, tools) == Ok(Verified("snapshot", Some(sid))) {
      SnapshotVerifies(s, sid, tools);
    }
    forall key | key in s.publications
      ensures OnDisk(s.publications[key], s.bytes, tools) ==
              Ok(Verified(SuiteOf(key.channel), Some(s.publications[key].snapshot)))
    {
      PublicationVerifies(s, key, tools);
    }
  }

  lemma SnapshotVerifies(s: Store, sid: Sid, tools: Tools)
    requires SnapshotsSound(s, tools) && sid in s.snapshots && forall a :: Release.HexDigest(tools.sha(a))
    ensures OnDisk(s.snapshots[sid], s.bytes, tools) == Ok(Verified("snapshot", Some(sid)))
  {
    assert SnapshotSound(s.snapshots[sid], sid, s.bytes, tools);
    SoundVerifies(s.snapshots[sid], "snapshot", s.bytes, tools);
  }

  lemma PublicationVerifies(s: Store, key: Key, tools: Tools)
    requires PublicationsSound(s, tools) && key in s.publications && forall a :: Release.HexDigest(tools.sha(a))
    ensures OnDisk(s.publications[key], s.bytes, tools) ==
            Ok(Verified(SuiteOf(key.channel), Some(s.publications[key].snapshot)))
  {
    assert Kept(s.publications[key], SuiteOf(key.channel), s, tools);
    SoundVerifies(s.publications[key], SuiteOf(key.channel), s.bytes, tools);
  }
}
