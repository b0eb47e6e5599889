/** A queue brought back from a backup and prepared: sound, and dead until the operator acts. */
module RestoredSystem {
  import opened Text
  import opened Tables
  import opened JobQueue
  import opened History
  import opened Scheduler
  import opened Progress
  import opened OperatorSystem
  import opened OperatorTheorems
  import Execution
  import Notifier

  /** The system around a prepared copy: no worker, no task command, no notification state yet. */
  function Restored(s: State, rows: seq<Id>, now: real): State
    requires forall i :: 0 <= i < |rows| ==> rows[i] in s.db.jobs
  {
    State(Disabled(AllQuarantined(s.db, rows, now)), now, Down, Free, Notifier.FRESH, s.paths, s.defs, s.fires, s.dirs,
          s.ledger)
  }

  predicate Prepares(s: State, rows: seq<Id>) {
    Covers(rows, PendingIds(s.db)) && forall i :: 0 <= i < |rows| ==> rows[i] in s.db.jobs
  }

  lemma RestoredKeepsTests(a: Db, b: Db, fires: map<Id, nat>)
    requires b.links == a.links && a.jobs.Keys == b.jobs.Keys && a.events <= b.events && FiresSound(a, fires)
    requires forall id :: id in a.jobs && a.jobs[id].state.Terminal() ==> b.jobs[id] == a.jobs[id]
    ensures FiresSound(b, fires)
  {
    forall id | id in fires ensures TestedBefore(b, b.links[id], fires[id]) {
      var t, i :| t in a.links && TestedBy(a, a.links[id], t) && 0 <= i < fires[id] && i < |a.events| &&
          Ends(a.events[i], t);
      assert TestedBy(b, b.links[id], t) && b.events[i] == a.events[i];
    }
  }

  lemma RestoredKeepsLedger(a: Db, b: Db, ledger: map<Id, seq<Execution.Look>>)
    requires a.jobs.Keys == b.jobs.Keys && LedgerSound(a, ledger)
    requires forall id :: id in b.jobs && b.jobs[id].state == Succeeded ==> a.jobs[id].state == Succeeded
    ensures LedgerSound(b, ledger)
  {
  }

  /** Whatever moment of whatever run was backed up, every invariant of the system holds again of the prepared copy. */
  lemma RestoredSystemIsSound(s: State, rows: seq<Id>, now: real)
    requires Inv(s) && Prepares(s, rows)
    ensures Inv(Restored(s, rows, now))
  {
    var r := Restored(s, rows, now);
    RestoredCopyIsInert(s.db, rows, now);
    assert forall id :: id in r.db.jobs ==> id !in PendingIds(r.db);
    RestoredKeepsTests(s.db, r.db, s.fires);
    RestoredKeepsLedger(s.db, r.db, s.ledger);
    RestoredKeepsDefinitions(s.db, r.db, s.defs);
    Notifier.FreshIsSound(r.db.events);
    assert WorkerSound(r.db, r.worker);
  }

  lemma RestoredKeepsDefinitions(a: Db, b: Db, defs: map<Link, Work>)
    requires DefinitionsKept(a, defs) && b.links == a.links && b.tasks.Keys == a.tasks.Keys &&
             a.jobs.Keys == b.jobs.Keys
    requires forall name :: name in a.tasks ==> b.tasks[name] == a.tasks[name].(enabled := false)
    requires forall id :: id in a.jobs ==> b.jobs[id].work == a.jobs[id].work
    ensures DefinitionsKept(b, defs)
  {
  }

  /** Nothing waits or runs, and no schedule is on or about to be. */
  ghost predicate Inert(s: State) {
    && PendingIds(s.db) == {} && (forall name :: name in s.db.tasks ==> !s.db.tasks[name].enabled)
    && (s.hold.Free? || s.hold.Removing?)
  }

  /** The explicit acts that bring work back: submitting, retrying, running a task by hand, enabling one. */
  predicate Revives(l: Step) {
    l.Submit? || l.Retry? || (l.BeginRun? && !l.scheduled) || l.BeginEnable?
  }

  /** With nothing pending, nothing can be cancelled, claimed, recovered or finished. */
  lemma NothingToDo(s: State, l: Step)
    requires Inv(s) && Inert(s) && Enabled(s, l)
    ensures !l.Cancel? && !l.Claim? && !l.RecoverOne? && !l.Finish? && !l.QueueRun? && !l.SetEnabled? && !l.TimerFails?
  {
    assert forall id :: id in s.db.jobs ==> id !in PendingIds(s.db);
    assert forall id :: id in RunningIds(s.db) ==> id in PendingIds(s.db);
  }

  lemma ReviewLeavesJobs(s: State, target: Option<Id>, rows: seq<Id>)
    requires Inv(s) && Enabled(s, Review(target, rows))
    ensures AllAcknowledged(s.db, rows, s.now).jobs == s.db.jobs &&
            AllAcknowledged(s.db, rows, s.now).tasks == s.db.tasks
  {
    ListedIsReviewable(s.db, target, rows);
    AllAcknowledgedKeeps(s.db, rows, s.now);
  }

  lemma InertStays(s: State, l: Step)
    requires Inv(s) && Inert(s) && Enabled(s, l) && !Revives(l)
    ensures Inert(Do(s, l)) && Do(s, l).db.jobs == s.db.jobs
  {
    NothingToDo(s, l);
    if l.Review? {
      ReviewLeavesJobs(s, l.target, l.rows);
    } else if WritesTask(l) {
      TaskWritesKeepJobs(s, l);
      SwitchesStayOff(s, l);
    } else {
      OthersWriteNothing(s, l);
    }
  }

  /** Saving, pausing and removing turn nothing on. */
  lemma SwitchesStayOff(s: State, l: Step)
    requires Inert(s) && Enabled(s, l) && (l.SaveTask? || l.BeginPause? || l.Delete?)
    ensures forall name :: name in Do(s, l).db.tasks ==> !Do(s, l).db.tasks[name].enabled
    ensures Do(s, l).hold.Free? || Do(s, l).hold.Removing?
  {
  }

  /** In every run of a restored system without such an act no timer fires, no job is claimed and no job changes. */
  lemma {:induction false} RestoredSystemIsDead(s: State, rows: seq<Id>, now: real, run: seq<Step>)
    requires Inv(s) && Prepares(s, rows) && Follows(Restored(s, rows, now), run)
    requires forall i :: 0 <= i < |run| ==> !Revives(run[i])
    ensures Inert(After(Restored(s, rows, now), run))
    ensures After(Restored(s, rows, now), run).db.jobs == Restored(s, rows, now).db.jobs
    decreases run
  {
    var r := Restored(s, rows, now);
    RestoredSystemIsSound(s, rows, now);
    if run == [] {
      RestoredCopyIsInert(s.db, rows, now);
    } else {
      var n := |run| - 1;
      assert forall i :: 0 <= i < n ==> run[..n][i] == run[i];
      RestoredSystemIsDead(s, rows, now, run[..n]);
      RunKeeps(r, run[..n]);
      InertStays(After(r, run[..n]), run[n]);
    }
  }
}
