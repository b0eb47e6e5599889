/** What the row of a schedule says, and which step of the system wrote it; exactly when a command is refused. */
module Schedules {
  import opened Text
  import opened Tables
  import opened JobQueue
  import opened History
  import opened Scheduler
  import opened Progress
  import opened OperatorSystem
  import opened OperatorTheorems
  import Lives

  // ----- names -----------------------------------------------------------------------------------

  const LETTERS: set<char> := {'a', 'b', 'c', 'd', 'e', 'f', 'g', 'h', 'i', 'j', 'k', 'l', 'm',
                               'n', 'o', 'p', 'q', 'r', 's', 't', 'u', 'v', 'w', 'x', 'y', 'z'}
  const DIGITS: set<char> := {'0', '1', '2', '3', '4', '5', '6', '7', '8', '9'}

  /** Up to 48 lower-case letters, digits and hyphens, no hyphen first. */
  predicate IsTaskName(name: Name) {
    && 0 < |name| < 49 && name[0] != '-'
    && forall c :: c in name ==> c in LETTERS || c in DIGITS || c == '-'
  }

  lemma NameCharIs(c: char)
    ensures NameChar(c) <==> c in LETTERS || c in DIGITS
  {
  }

  lemma NameIs(name: Name)
    ensures ValidName(name) <==> IsTaskName(name)
  {
    forall c: char ensures NameChar(c) <==> c in LETTERS || c in DIGITS {
      NameCharIs(c);
    }
    if ValidName(name) {
      forall c | c in name ensures NameChar(c) || c == '-' {
        var i :| 0 <= i < |name| && name[i] == c;
      }
    }
    if IsTaskName(name) {
      forall i | 0 <= i < |name| ensures NameChar(name[i]) || name[i] == '-' {
        assert name[i] in name;
      }
    }
  }

  // ----- what commands answer ---------------------------------------------------------------------

  /** There is a schedule of this name that has not been removed. */
  predicate Exists(db: Db, name: Name) {
    IsTaskName(name) && name in db.tasks && !db.tasks[name].deleted
  }

  /** A run of the schedule is still queued or running. */
  predicate IsBusy(db: Db, name: Name) {
    exists id :: id in db.links && id in db.jobs && db.links[id].task == name && db.jobs[id].state in {Queued, Running}
  }

  /** A run of the schedule as it is now has succeeded. */
  predicate HasSucceeded(db: Db, name: Name)
    requires name in db.tasks
  {
    exists id :: id in db.links && id in db.jobs && db.links[id] == Link(name, db.tasks[name].revision) &&
      db.jobs[id].state == Succeeded
  }

  lemma BusyIs(db: Db, name: Name)
    ensures (exists k :: k in db.links && ActiveRun(db, name, k)) <==> IsBusy(db, name)
  {
    if k :| k in db.links && ActiveRun(db, name, k) {
      assert k in db.links && k in db.jobs && db.links[k].task == name && db.jobs[k].state in {Queued, Running};
    }
    if IsBusy(db, name) {
      var k :| k in db.links && k in db.jobs && db.links[k].task == name && db.jobs[k].state in {Queued, Running};
      assert ActiveRun(db, name, k);
    }
  }

  lemma SucceededIs(db: Db, name: Name)
    requires name in db.tasks
    ensures Tested(db, Link(name, db.tasks[name].revision)) <==> HasSucceeded(db, name)
  {
    if HasSucceeded(db, name) {
      var id :| id in db.links && id in db.jobs && db.links[id] == Link(name, db.tasks[name].revision) &&
        db.jobs[id].state == Succeeded;
      assert TestedBy(db, db.links[id], id);
    }
    if id :| id in db.links && TestedBy(db, Link(name, db.tasks[name].revision), id) {
    }
  }

  /** Saving is refused exactly for a bad or taken name, or an edit of what is not there or still enabled. */
  lemma SavedIff(db: Db, name: Name, d: Definition, edit: bool)
    ensures Saved(db, name, d, edit).Ok? <==>
              if edit then Exists(db, name) && !db.tasks[name].enabled else IsTaskName(name) && name !in db.tasks
    ensures Saved(db, name, d, edit).Ok? ==>
              var t := Saved(db, name, d, edit).value;
              && t == db.(tasks := t.tasks) && name in t.tasks && t.tasks == db.tasks[name := t.tasks[name]]
              && t.tasks[name] == Task(d.calendar, d.catchUp, d.work, false,
                                       if edit then db.tasks[name].revision + 1 else 1, false)
  {
    NameIs(name);
  }

  /**
   * A run is queued exactly if the schedule exists, is ready, is enabled if a timer asks, is not busy, and its
   * directory and timeout are in order; then one job is added, linked to the schedule as it is now. Nothing else ever
   * changes.
   */
  lemma EnqueuedIff(db: Db, name: Name, scheduled: bool, ready: bool, id: Id, workspace: Option<string>, now: real)
    ensures var (t, answer) := EnqueueResult(db, name, scheduled, ready, id, workspace, now);
            && (answer == Ok(Some(id)) <==>
                  && Exists(db, name) && (scheduled ==> db.tasks[name].enabled) && ready && !IsBusy(db, name)
                  && workspace.Some? && 1 <= db.tasks[name].work.timeout <= 604800 && id !in db.jobs)
            && (answer == Ok(None) <==>
                  && Exists(db, name)
                  && ((scheduled && !db.tasks[name].enabled) || (ready && IsBusy(db, name))))
            && (answer != Ok(Some(id)) ==> t == db)
    ensures var (t, answer) := EnqueueResult(db, name, scheduled, ready, id, workspace, now);
            answer == Ok(Some(id)) ==>
              && t.tasks == db.tasks && t.acks == db.acks
              && t.links == db.links[id := Link(name, db.tasks[name].revision)]
              && id in t.jobs && t.jobs == db.jobs[id := t.jobs[id]]
              && |t.events| == |db.events| + 1 && db.events <= t.events
              && Lives.Born(Lives.Asked(db.tasks[name].work.(workspace := workspace.value), now, 0, None), id,
                            t.jobs[id], t.events[|db.events|])
  {
    NameIs(name);
    BusyIs(db, name);
  }

  /** Enabling works exactly for a schedule that exists, is ready and has succeeded as it is, if the units cooperate. */
  lemma EnabledIff(db: Db, name: Name, ready: bool, units: bool, timer: bool)
    ensures var (t, fault) := EnableResult(db, name, ready, units, timer);
            && (fault.None? <==> Exists(db, name) && ready && HasSucceeded(db, name) && units && timer)
            && t == db.(tasks := t.tasks)
            && (fault.None? ==> t.tasks == db.tasks[name := db.tasks[name].(enabled := true)])
            && (fault.Some? ==>
                  t.tasks == db.tasks ||
                  (!timer && name in db.tasks && t.tasks == db.tasks[name := db.tasks[name].(enabled := false)]))
  {
    NameIs(name);
    if name in db.tasks {
      SucceededIs(db, name);
    }
  }

  /** Pausing switches a schedule off before anything else can fail; it is removed only if the timer stopped. */
  lemma PausedIff(db: Db, name: Name, remove: bool, owned: bool, timer: bool)
    ensures var (t, fault) := PauseResult(db, name, remove, owned, timer);
            && (fault.None? <==> Exists(db, name) && owned && timer)
            && t == db.(tasks := t.tasks)
            && (fault.None? ==> t.tasks == db.tasks[name := db.tasks[name].(enabled := false, deleted := remove)])
            && (fault.Some? ==>
                  t.tasks == db.tasks ||
                  (!timer && name in db.tasks && t.tasks == db.tasks[name := db.tasks[name].(enabled := false)]))
  {
    NameIs(name);
  }

  // ----- what each step of the system does to a row ----------------------------------------------------

  /** The step wrote this row: a definition saved, switched on or off, or the schedule removed. */
  ghost predicate Writes(s: State, l: Step, name: Name, row: Task) {
    || IsSaved(s, l, name, row) || IsSwitchedOn(s, l, name, row) || IsSwitchedOff(s, l, name, row)
    || IsRemoved(s, l, name, row)
  }

  ghost predicate IsSaved(s: State, l: Step, name: Name, row: Task) {
    && l.SaveTask? && l.name == name && IsTaskName(name)
    && if l.edit then
         && name in s.db.tasks && !s.db.tasks[name].enabled && !s.db.tasks[name].deleted
         && row == Task(l.d.calendar, l.d.catchUp, l.d.work, false, s.db.tasks[name].revision + 1, false)
       else name !in s.db.tasks && row == Task(l.d.calendar, l.d.catchUp, l.d.work, false, 1, false)
  }

  ghost predicate IsSwitchedOn(s: State, l: Step, name: Name, row: Task) {
    && l == SetEnabled && s.hold.Testing? && s.hold.name == name && name in s.db.tasks
    && row == s.db.tasks[name].(enabled := true) && HasSucceeded(s.db, name)
  }

  ghost predicate IsSwitchedOff(s: State, l: Step, name: Name, row: Task) {
    && name in s.db.tasks && row == s.db.tasks[name].(enabled := false)
    && ((l == TimerFails && s.hold == Enabling(name)) || (l.BeginPause? && l.name == name))
  }

  ghost predicate IsRemoved(s: State, l: Step, name: Name, row: Task) {
    && l == Delete && s.hold == Removing(name) && name in s.db.tasks && !s.db.tasks[name].enabled
    && row == s.db.tasks[name].(deleted := true)
  }

  lemma SaveWrites(s: State, l: Step, t: Db, name: Name)
    requires l.SaveTask? && Saved(s.db, l.name, l.d, l.edit) == Ok(t) && name in t.tasks
    ensures (name in s.db.tasks && t.tasks[name] == s.db.tasks[name]) || IsSaved(s, l, name, t.tasks[name])
  {
    SavedIff(s.db, l.name, l.d, l.edit);
  }

  lemma SwitchWrites(s: State, l: Step, t: Db, name: Name)
    requires HoldSound(s.db, s.hold) && Enabled(s, l) && t == Do(s, l).db && name in t.tasks
    requires l.SetEnabled? || l.TimerFails? || l.BeginPause? || l.Delete?
    ensures (name in s.db.tasks && t.tasks[name] == s.db.tasks[name]) || Writes(s, l, name, t.tasks[name])
  {
    if l.SetEnabled? {
      SucceededIs(s.db, s.hold.name);
    }
  }

  lemma SubmitWritesNoRow(s: State, l: Step)
    requires Enabled(s, l) && (l.Submit? || l.Retry?)
    ensures Do(s, l).db.tasks == s.db.tasks
  {
  }

  lemma RunWritesNoRow(s: State, l: Step)
    requires Enabled(s, l) && l.QueueRun?
    ensures Do(s, l).db.tasks == s.db.tasks
  {
  }

  lemma WorkWritesNoRow(s: State, l: Step)
    requires Enabled(s, l) && (l.Cancel? || l.Claim? || l.RecoverOne? || l.Finish?)
    ensures Do(s, l).db.tasks == s.db.tasks
  {
  }

  lemma OthersWriteNoRow(s: State, l: Step)
    requires Inv(s) && Enabled(s, l) && !WritesTask(l)
    ensures Do(s, l).db.tasks == s.db.tasks
  {
    if l.Submit? || l.Retry? {
      SubmitWritesNoRow(s, l);
    } else if l.QueueRun? {
      RunWritesNoRow(s, l);
    } else if l.Cancel? || l.Claim? || l.RecoverOne? || l.Finish? {
      WorkWritesNoRow(s, l);
    } else if l.Review? {
      ReviewWritesNoRow(s, l.target, l.rows);
    } else {
      OthersWriteNothing(s, l);
    }
  }

  lemma ReviewWritesNoRow(s: State, target: Option<Id>, rows: seq<Id>)
    requires Inv(s) && Lists(rows, OutstandingIds(s.db, target), s.db)
    ensures AllAcknowledged(s.db, rows, s.now).tasks == s.db.tasks
  {
    forall i | 0 <= i < |rows| ensures Outstanding(s.db, rows[i]) {
      assert rows[i] in OutstandingIds(s.db, target);
    }
    AllAcknowledgedKeeps(s.db, rows, s.now);
  }

  /** Whatever any part of the system does, the row of a schedule changes only so. */
  lemma EveryWriteHasACause(s: State, l: Step, name: Name)
    requires Inv(s) && Enabled(s, l) && name in Do(s, l).db.tasks
    ensures (name in s.db.tasks && Do(s, l).db.tasks[name] == s.db.tasks[name]) ||
            Writes(s, l, name, Do(s, l).db.tasks[name])
  {
    if l.SaveTask? {
      SaveWrites(s, l, Do(s, l).db, name);
    } else if WritesTask(l) {
      SwitchWrites(s, l, Do(s, l).db, name);
    } else {
      OthersWriteNoRow(s, l);
    }
  }

  // ----- over whole runs -----------------------------------------------------------------------------

  /** How often the schedule was saved. */
  function Saves(run: seq<Step>, name: Name): nat {
    if run == [] then 0
    else
      var last := run[|run| - 1];
      Saves(run[..|run| - 1], name) + if last.SaveTask? && last.name == name then 1 else 0
  }

  predicate SavesTask(l: Step, name: Name) {
    l.SaveTask? && l.name == name
  }

  /** Step n saved the schedule, as it is in this row, and no later step saved it. */
  predicate LastSaved(run: seq<Step>, n: nat, name: Name, row: Task) {
    && n < |run| && SavesTask(run[n], name) && (forall m :: n < m < |run| ==> !SavesTask(run[m], name))
    && row.calendar == run[n].d.calendar && row.catchUp == run[n].d.catchUp && row.work == run[n].d.work
  }

  /** One step further, a row is the same, or the step wrote it. */
  lemma OneWriteOn(run: seq<Step>, name: Name) returns (s: State, l: Step, t: Db)
    requires Follows(INITIAL, run) && name in After(INITIAL, run).db.tasks
    ensures run != [] && Follows(INITIAL, run[..|run| - 1]) && s == After(INITIAL, run[..|run| - 1])
    ensures l == run[|run| - 1] && t == After(INITIAL, run).db
    ensures (name in s.db.tasks && t.tasks[name] == s.db.tasks[name]) || Writes(s, l, name, t.tasks[name])
    ensures SavesTask(l, name) ==> IsSaved(s, l, name, t.tasks[name])
  {
    Lives.LastIsTaken(run);
    s, l, t := After(INITIAL, run[..|run| - 1]), run[|run| - 1], After(INITIAL, run).db;
    EveryWriteHasACause(s, l, name);
    if SavesTask(l, name) {
      SavesAreWrites(s, l, name);
    }
  }

  lemma OthersKeepTheDefinition(s: State, l: Step, name: Name, row: Task)
    requires Writes(s, l, name, row) && !SavesTask(l, name)
    ensures name in s.db.tasks && row == s.db.tasks[name].(enabled := row.enabled, deleted := row.deleted)
  {
  }

  /**
   * In every reachable state the row of a schedule has the calendar, the catch-up and the work of its last saving, and
   * its revision counts the savings.
   */
  lemma {:induction false} RowsAreAsSaved(run: seq<Step>, name: Name) returns (n: nat)
    requires Follows(INITIAL, run) && name in After(INITIAL, run).db.tasks
    ensures LastSaved(run, n, name, After(INITIAL, run).db.tasks[name])
    ensures After(INITIAL, run).db.tasks[name].revision == Saves(run, name)
    decreases run
  {
    var m := |run| - 1;
    var s, l, t := OneWriteOn(run, name);
    if SavesTask(l, name) {
      n := m;
      if name in s.db.tasks {
        var before := RowsAreAsSaved(run[..m], name);
      } else {
        NeverSaved(run[..m], name);
      }
    } else {
      if Writes(s, l, name, t.tasks[name]) {
        OthersKeepTheDefinition(s, l, name, t.tasks[name]);
      }
      n := RowsAreAsSaved(run[..m], name);
      assert forall i :: 0 <= i < m ==> run[..m][i] == run[i];
    }
  }

  lemma SavesAreWrites(s: State, l: Step, name: Name)
    requires Enabled(s, l) && SavesTask(l, name)
    ensures name in Do(s, l).db.tasks && IsSaved(s, l, name, Do(s, l).db.tasks[name])
  {
    SavedIff(s.db, name, l.d, l.edit);
  }

  lemma {:induction false} NeverSaved(run: seq<Step>, name: Name)
    requires Follows(INITIAL, run) && name !in After(INITIAL, run).db.tasks
    ensures Saves(run, name) == 0
    decreases run
  {
    if run != [] {
      var m := |run| - 1;
      Lives.LastIsTaken(run);
      StepEvolves(After(INITIAL, run[..m]), run[m]);
      NeverSaved(run[..m], name);
      if SavesTask(run[m], name) {
        SavesAreWrites(After(INITIAL, run[..m]), run[m], name);
      }
    }
  }

  /** Step n switched the schedule on. */
  ghost predicate OnAt(run: seq<Step>, n: nat, name: Name) {
    && Lives.Taken(run, n) && name in Lives.TablesAfter(run, n).tasks
    && IsSwitchedOn(Lives.StateAt(run, n), run[n], name, Lives.TablesAfter(run, n).tasks[name])
  }

  ghost predicate Disables(s: State, l: Step, name: Name) {
    SavesTask(l, name) || (l == TimerFails && s.hold == Enabling(name)) || (l.BeginPause? && l.name == name)
  }

  /** For each step of the run, whether it may leave the schedule disabled: it switches it off, or saves it anew. */
  ghost function Offs(run: seq<Step>, name: Name): (offs: seq<bool>)
    requires Follows(INITIAL, run)
    ensures |offs| == |run|
    decreases run
  {
    if run == [] then []
    else
      var m := |run| - 1;
      Offs(run[..m], name) + [Disables(After(INITIAL, run[..m]), run[m], name)]
  }

  ghost predicate OnSince(run: seq<Step>, n: nat, name: Name)
    requires Follows(INITIAL, run)
  {
    OnAt(run, n, name) && forall m :: n < m < |run| ==> !Offs(run, name)[m]
  }

  /** A step that may disable it does. */
  lemma DisablesIt(s: State, l: Step, name: Name)
    requires Enabled(s, l) && Disables(s, l, name)
    ensures name in Do(s, l).db.tasks && !Do(s, l).db.tasks[name].enabled
  {
    if SavesTask(l, name) {
      SavesAreWrites(s, l, name);
    }
  }

  lemma OnEarlier(run: seq<Step>, n: nat, name: Name)
    requires Follows(INITIAL, run) && run != [] && OnAt(run[..|run| - 1], n, name)
    ensures OnAt(run, n, name)
  {
    Lives.EarlierIsTaken(run, n);
  }

  lemma OnSinceThen(run: seq<Step>, n: nat, name: Name)
    requires Follows(INITIAL, run) && run != [] && OnSince(run[..|run| - 1], n, name)
    requires !Disables(After(INITIAL, run[..|run| - 1]), run[|run| - 1], name)
    ensures OnSince(run, n, name)
  {
    OnEarlier(run, n, name);
  }

  lemma OnSinceNow(run: seq<Step>, name: Name)
    requires Follows(INITIAL, run) && run != [] && name in After(INITIAL, run).db.tasks
    requires IsSwitchedOn(After(INITIAL, run[..|run| - 1]), run[|run| - 1], name, After(INITIAL, run).db.tasks[name])
    ensures OnSince(run, |run| - 1, name)
  {
    Lives.LastIsTaken(run);
  }

  /**
   * A schedule is enabled only since a step that switched it on after a success of the very same revision; since then
   * nothing has switched it off or changed it.
   */
  lemma {:induction false} EnabledIsOnSince(run: seq<Step>, name: Name) returns (n: nat)
    requires Follows(INITIAL, run) && name in After(INITIAL, run).db.tasks && After(INITIAL, run).db.tasks[name].enabled
    ensures OnSince(run, n, name)
    decreases run
  {
    var m := |run| - 1;
    var s, l, t := OneWriteOn(run, name);
    if name in s.db.tasks && t.tasks[name] == s.db.tasks[name] {
      n := EnabledIsOnSince(run[..m], name);
      if Disables(s, l, name) {
        DisablesIt(s, l, name);
      }
      OnSinceThen(run, n, name);
    } else {
      n := m;
      OnSinceNow(run, name);
    }
  }
}
