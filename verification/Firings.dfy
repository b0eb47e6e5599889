/** In which directory a timer's run lands: exactly when it is the tested definition to the letter. */
module Firings {
  import opened Text
  import opened Tables
  import opened JobQueue
  import opened History
  import opened Scheduler
  import opened Progress
  import opened OperatorSystem
  import opened OperatorTheorems
  import opened Execution

  // ----- the step that fired -----------------------------------------------------------------------

  /** The n-th step queued this job for a timer. */
  ghost predicate FiredAt(run: seq<Step>, n: nat, id: Id)
    requires Follows(INITIAL, run)
  {
    n < |run| && Follows(INITIAL, run[..n]) && run[n].QueueRun? && run[n].id == id
    && QueuesRun(After(INITIAL, run[..n]), run[n]) && After(INITIAL, run[..n]).hold.scheduled
  }

  lemma PrefixFollows(run: seq<Step>, n: nat)
    requires Follows(INITIAL, run) && n <= |run|
    ensures Follows(INITIAL, run[..n])
    decreases |run|
  {
    if n < |run| {
      PrefixFollows(run[..|run| - 1], n);
      assert run[..|run| - 1][..n] == run[..n];
    } else {
      assert run[..n] == run;
    }
  }

  lemma OthersFireNothing(s: State, l: Step)
    requires Enabled(s, l) && !(QueuesRun(s, l) && s.hold.scheduled)
    ensures Do(s, l).fires == s.fires
  {
    if l.QueueRun? {
      if HasActive(s.db, s.hold.name) {
        IdleQueueing(s, l);
      }
    }
  }

  lemma QueueingFires(s: State, l: Step)
    requires QueuesRun(s, l) && s.hold.scheduled
    ensures Do(s, l).fires.Keys == s.fires.Keys + {l.id}
  {
  }

  /** Every job on the record of firings was queued by such a step. */
  lemma {:induction false} EveryFiringHasAStep(run: seq<Step>, id: Id) returns (n: nat)
    requires Follows(INITIAL, run) && id in After(INITIAL, run).fires
    ensures FiredAt(run, n, id)
    decreases run
  {
    var m := |run| - 1;
    var before := After(INITIAL, run[..m]);
    if id in before.fires {
      n := EveryFiringHasAStep(run[..m], id);
      assert run[..m][..n] == run[..n] && run[..m][n] == run[n];
    } else {
      n := m;
      if !(QueuesRun(before, run[m]) && before.hold.scheduled) {
        OthersFireNothing(before, run[m]);
        assert false;
      } else {
        QueueingFires(before, run[m]);
      }
    }
  }

  /** What was written down about a linked run stays. */
  lemma DirStays(s: State, l: Step, id: Id)
    requires Inv(s) && Enabled(s, l) && id in s.db.links && id in s.dirs
    ensures id in Do(s, l).db.links && id in Do(s, l).dirs && Do(s, l).dirs[id] == s.dirs[id] &&
            Do(s, l).db.links[id] == s.db.links[id]
  {
    if QueuesRun(s, l) {
      QueuedAsDefined(s, l, Do(s, l));
    } else {
      LinksAndDirs(s, l);
    }
  }

  /** What the step that fired wrote down. */
  ghost predicate OnRecord(s: State, t: State, id: Id) {
    && s.hold.Starting? && s.hold.task.work.workspace in s.paths && id in t.dirs && id in t.db.links
    && t.dirs[id] == s.paths[s.hold.task.work.workspace] && t.db.links[id] == Link(s.hold.name, s.hold.task.revision)
  }

  lemma FiringIsOnRecord(s: State, l: Step)
    requires Inv(s) && QueuesRun(s, l)
    ensures OnRecord(s, Do(s, l), l.id)
  {
    QueuedAsDefined(s, l, Do(s, l));
  }

  lemma RecordStays(s: State, t: State, l: Step, id: Id)
    requires OnRecord(s, t, id) && Inv(t) && Enabled(t, l)
    ensures OnRecord(s, Do(t, l), id)
  {
    DirStays(t, l, id);
  }

  /** The directory on record for a fired job is the one its stored path resolved to at that step. */
  lemma {:induction false} DirOfFiring(run: seq<Step>, n: nat, id: Id)
    requires Follows(INITIAL, run) && FiredAt(run, n, id)
    ensures OnRecord(After(INITIAL, run[..n]), After(INITIAL, run), id)
    decreases run
  {
    var m := |run| - 1;
    if n == m {
      JustFired(run, id);
    } else {
      assert run[..m][..n] == run[..n] && run[..m][n] == run[n];
      DirOfFiring(run[..m], n, id);
      OneStepLater(run, After(INITIAL, run[..n]), id);
    }
  }

  lemma JustFired(run: seq<Step>, id: Id)
    requires Follows(INITIAL, run) && run != [] && FiredAt(run, |run| - 1, id)
    ensures OnRecord(After(INITIAL, run[..|run| - 1]), After(INITIAL, run), id)
  {
    InitiallySound();
    RunKeeps(INITIAL, run[..|run| - 1]);
    FiringIsOnRecord(After(INITIAL, run[..|run| - 1]), run[|run| - 1]);
  }

  lemma OneStepLater(run: seq<Step>, s: State, id: Id)
    requires Follows(INITIAL, run) && run != [] && OnRecord(s, After(INITIAL, run[..|run| - 1]), id)
    ensures OnRecord(s, After(INITIAL, run), id)
  {
    InitiallySound();
    RunKeeps(INITIAL, run[..|run| - 1]);
    RecordStays(s, After(INITIAL, run[..|run| - 1]), run[|run| - 1], id);
  }

  /** The stored definition being fired is that of the revision on record. */
  lemma DefinitionOfFiring(run: seq<Step>, n: nat, id: Id)
    requires Follows(INITIAL, run) && FiredAt(run, n, id)
    ensures var s, t := After(INITIAL, run[..n]), After(INITIAL, run);
            var link := Link(s.hold.name, s.hold.task.revision);
            s.hold.Starting? && link in t.defs && t.defs[link] == s.hold.task.work
  {
    var s := After(INITIAL, run[..n]);
    HeldAfter(run[..n]);
    DefinitionStays(run, n, Link(s.hold.name, s.hold.task.revision));
  }

  /** The schedule in hand is as its revision was saved. */
  ghost predicate HoldsDefined(s: State)
    requires s.hold.Starting?
  {
    var link := Link(s.hold.name, s.hold.task.revision);
    link in s.defs && s.defs[link] == s.hold.task.work
  }

  lemma HeldIsDefined(s: State)
    requires DefinitionsKept(s.db, s.defs) && HoldSound(s.db, s.hold) && s.hold.Starting?
    ensures HoldsDefined(s)
  {
  }

  lemma HeldAfter(run: seq<Step>)
    requires Follows(INITIAL, run) && After(INITIAL, run).hold.Starting?
    ensures HoldsDefined(After(INITIAL, run))
  {
    InitiallySound();
    RunKeeps(INITIAL, run);
    HeldIsDefined(After(INITIAL, run));
  }

  lemma {:induction false} DefinitionStays(run: seq<Step>, n: nat, link: Link)
    requires Follows(INITIAL, run) && n <= |run| && Follows(INITIAL, run[..n]) && link in After(INITIAL, run[..n]).defs
    ensures link in After(INITIAL, run).defs && After(INITIAL, run).defs[link] == After(INITIAL, run[..n]).defs[link]
    decreases run
  {
    if n == |run| {
      assert run[..n] == run;
    } else {
      var m := |run| - 1;
      assert run[..m][..n] == run[..n];
      InitiallySound();
      RunKeeps(INITIAL, run[..m]);
      DefinitionStays(run[..m], n, link);
      DefinitionsStayWritten(After(INITIAL, run[..m]), run[m]);
    }
  }

  /**
   * Exactly when a timer's run is the tested definition to the letter. For every run and every job a timer queued, with
   * the step n that queued it and a run t of the same revision that had succeeded before: the job is the stored
   * definition if and only if at step n the stored path resolved to itself, and it is the tested job if and only if
   * that path resolved then to what it had resolved to for the test.
   */
  lemma FiredRunIsTheDefinitionIff(run: seq<Step>, id: Id) returns (n: nat, t: Id, i: nat)
    requires Follows(INITIAL, run) && id in After(INITIAL, run).fires
    ensures FiredAt(run, n, id)
    ensures var s, end := After(INITIAL, run[..n]), After(INITIAL, run);
            var task := s.hold.task;
            && s.hold.Starting? && task.work.workspace in s.paths && id in end.db.jobs && t in end.db.jobs &&
               t in end.dirs
            && (end.db.jobs[id].work == task.work <==> s.paths[task.work.workspace] == task.work.workspace)
            && (end.db.jobs[id].work == end.db.jobs[t].work <==> s.paths[task.work.workspace] == end.dirs[t])
    ensures var end := After(INITIAL, run);
            && t != id && t in end.db.links && id in end.db.links && end.db.links[t] == end.db.links[id] &&
               id in end.fires
            && i < end.fires[id] && Logs(end.db.events, i, t, Succeeded)
  {
    t, i := NoUntestedFiring(run, id);
    n := EveryFiringHasAStep(run, id);
    DirOfFiring(run, n, id);
    DefinitionOfFiring(run, n, id);
  }

  // ----- a firing that lands elsewhere ---------------------------------------------------------------

  const TASK: Name := "job"
  const TEST: Id := "0123456789abcdef"
  const FIRED: Id := "fedcba9876543210"
  const HERE := "/srv/work"
  const THERE := "/srv/other"
  const DEFINITION := Definition("daily", false, Work("command", "{}", HERE, 60))
  const CLEAN := Look(false, false, false, End, Some(0), false)

  function TaskRow(enabled: bool): Task {
    Task("daily", false, DEFINITION.work, enabled, 1, false)
  }

  function JobIn(workspace: string): Job {
    NewJob(Request("command", "{}", Some(workspace), 60, 0, None), 0.0)
  }

  function Started(): Job {
    JobIn(HERE).(state := Running, started := Some(0.0))
  }

  function Done(): Job {
    Started().(state := Succeeded, finished := Some(0.0), exitCode := Some(0))
  }

  /** The log so far: queued, running, succeeded, and the firing. */
  function LogTo(n: nat): seq<Event>
    requires n <= 4
  {
    [Event(TEST, 0.0, Became(Queued), None), Event(TEST, 0.0, Became(Running), None),
     Event(TEST, 0.0, Became(Succeeded), None),
     Event(FIRED, 0.0, Became(Queued), None)][..n]
  }

  lemma LogThen(n: nat, e: Event)
    requires n < 4 && e == LogTo(4)[n]
    ensures LogTo(n) + [e] == LogTo(n + 1)
  {
  }

  // The states the run goes through.

  function Linked0(): State {
    INITIAL.(paths := map[HERE := HERE])
  }

  function Saved0(): State {
    Linked0().(db := EMPTY.(tasks := map[TASK := TaskRow(false)]), defs := map[Link(TASK, 1) := DEFINITION.work])
  }

  function Queued0(): State {
    Saved0().(db := Db(map[TEST := JobIn(HERE)], LogTo(1), map[], map[TASK := TaskRow(false)],
                       map[TEST := Link(TASK, 1)]),
              dirs := map[TEST := HERE])
  }

  function Running0(looks: seq<Look>): State {
    Queued0().(db := Queued0().db.(jobs := map[TEST := Started()], events := LogTo(2)),
               worker := Executing(TEST, looks))
  }

  function Tested0(): State {
    Queued0().(db := Queued0().db.(jobs := map[TEST := Done()], events := LogTo(3)), worker := Polling,
               ledger := map[TEST := [CLEAN]])
  }

  function Enabled0(): State {
    Tested0().(db := Tested0().db.(tasks := map[TASK := TaskRow(true)]))
  }

  function Moved0(): State {
    Enabled0().(paths := map[HERE := THERE])
  }

  function Fired0(): State {
    Moved0().(db := Db(map[TEST := Done(), FIRED := JobIn(THERE)], LogTo(4), map[], map[TASK := TaskRow(true)],
                       map[TEST := Link(TASK, 1), FIRED := Link(TASK, 1)]),
              dirs := map[TEST := HERE, FIRED := THERE], fires := map[FIRED := 3])
  }

  /** One step further. */
  lemma StepTo(run: seq<Step>, s: State, l: Step, t: State)
    requires Follows(INITIAL, run) && After(INITIAL, run) == s && Enabled(s, l) && Do(s, l) == t
    ensures Follows(INITIAL, run + [l]) && After(INITIAL, run + [l]) == t
  {
    assert (run + [l])[..|run|] == run;
  }

  lemma NamesAreGood()
    ensures ValidName(TASK) && TEST != FIRED && HERE != THERE
  {
    assert TEST[0] == '0' && FIRED[0] == 'f' && HERE[5] == 'w' && THERE[5] == 'o';
    assert |TASK| == 3 && TASK[0] == 'j' && TASK[1] == 'o' && TASK[2] == 'b';
  }

  lemma SaveStep()
    ensures var l := SaveTask(TASK, DEFINITION, false);
            Enabled(Linked0(), l) && Do(Linked0(), l) == Saved0()
  {
    NamesAreGood();
  }

  lemma BeginStep(s: State, scheduled: bool)
    requires s.hold.Free? && TASK in s.db.tasks && !s.db.tasks[TASK].deleted && (scheduled ==> s.db.tasks[TASK].enabled)
    ensures var l := BeginRun(TASK, scheduled);
            Enabled(s, l) && Do(s, l) == s.(hold := Starting(TASK, s.db.tasks[TASK], scheduled))
  {
    NamesAreGood();
  }

  lemma TestStep()
    ensures var s := Saved0().(hold := Starting(TASK, TaskRow(false), false));
            Enabled(s, QueueRun(TEST, 0.0)) && Do(s, QueueRun(TEST, 0.0)) == Queued0()
  {
    LogThen(0, Event(TEST, 0.0, Became(Queued), None));
    assert LogTo(0) == [];
  }

  lemma WorkSteps()
    ensures var s := Queued0();
            && Enabled(s, WorkerStarts([])) && Do(s, WorkerStarts([])) == s.(worker := Recovering([]))
            && Enabled(s.(worker := Recovering([])), Serve) &&
               Do(s.(worker := Recovering([])), Serve) == s.(worker := Polling)
            && Enabled(s.(worker := Polling), Claim(TEST)) && Do(s.(worker := Polling), Claim(TEST)) == Running0([])
  {
    assert RunningIds(Queued0().db) == {};
    LogThen(1, Event(TEST, 0.0, Became(Running), None));
  }

  lemma CleanStops()
    ensures FirstStop([]) == 0 && FirstStop([CLEAN]) == 0 && Ran([CLEAN], None)
    ensures Verdict([CLEAN], 60, None, None) == Exit(Succeeded, None, Some(0))
  {
    assert [CLEAN][..1] == [CLEAN] && [CLEAN][0].read.End?;
    assert Stops([CLEAN], 0);
  }

  lemma EndSteps()
    ensures Enabled(Running0([]), Poll(CLEAN)) && Do(Running0([]), Poll(CLEAN)) == Running0([CLEAN])
    ensures Enabled(Running0([CLEAN]), Finish(None, None)) && Do(Running0([CLEAN]), Finish(None, None)) == Tested0()
  {
    CleanStops();
    LogThen(2, Event(TEST, 0.0, Became(Succeeded), None));
    assert [] + [CLEAN] == [CLEAN];
  }

  function Held0(): State {
    Tested0().(hold := Testing(TASK, TaskRow(false)))
  }

  lemma BeginEnableStep()
    ensures Enabled(Tested0(), BeginEnable(TASK)) && Do(Tested0(), BeginEnable(TASK)) == Held0()
  {
    NamesAreGood();
    assert TestedBy(Tested0().db, Link(TASK, 1), TEST);
  }

  lemma SetEnabledStep()
    ensures Enabled(Held0(), SetEnabled) && Do(Held0(), SetEnabled) == Enabled0().(hold := Enabling(TASK))
  {
  }

  lemma FireStep()
    ensures var s := Moved0().(hold := Starting(TASK, TaskRow(true), true));
            Enabled(s, QueueRun(FIRED, 0.0)) && Do(s, QueueRun(FIRED, 0.0)) == Fired0()
  {
    FiringQueues();
    assert Resolved(Moved0().paths, HERE) == Some(THERE);
    assert |Moved0().db.events| == 3;
  }

  lemma FiringQueues()
    ensures Enqueued(Moved0().db, TASK, TaskRow(true), FIRED, Some(THERE), 0.0) == Ok((Fired0().db, Some(FIRED)))
  {
    NamesAreGood();
    LogThen(3, Event(FIRED, 0.0, Became(Queued), None));
    assert forall k :: k in Moved0().db.links ==> !ActiveRun(Moved0().db, TASK, k);
  }

  lemma ToTested() returns (run: seq<Step>)
    ensures Follows(INITIAL, run) && After(INITIAL, run) == Tested0()
  {
    var s := Queued0();
    SaveStep();
    BeginStep(Saved0(), false);
    TestStep();
    WorkSteps();
    EndSteps();
    run := [];
    StepTo(run, INITIAL, Relink(map[HERE := HERE]), Linked0());
    run := run + [Relink(map[HERE := HERE])];
    StepTo(run, Linked0(), SaveTask(TASK, DEFINITION, false), Saved0());
    run := run + [SaveTask(TASK, DEFINITION, false)];
    StepTo(run, Saved0(), BeginRun(TASK, false), Saved0().(hold := Starting(TASK, TaskRow(false), false)));
    run := run + [BeginRun(TASK, false)];
    StepTo(run, Saved0().(hold := Starting(TASK, TaskRow(false), false)), QueueRun(TEST, 0.0), s);
    run := run + [QueueRun(TEST, 0.0)];
    StepTo(run, s, WorkerStarts([]), s.(worker := Recovering([])));
    run := run + [WorkerStarts([])];
    StepTo(run, s.(worker := Recovering([])), Serve, s.(worker := Polling));
    run := run + [Serve];
    StepTo(run, s.(worker := Polling), Claim(TEST), Running0([]));
    run := run + [Claim(TEST)];
    StepTo(run, Running0([]), Poll(CLEAN), Running0([CLEAN]));
    run := run + [Poll(CLEAN)];
    StepTo(run, Running0([CLEAN]), Finish(None, None), Tested0());
    run := run + [Finish(None, None)];
  }

  lemma ToEnabled() returns (run: seq<Step>)
    ensures Follows(INITIAL, run) && After(INITIAL, run) == Enabled0()
  {
    BeginEnableStep();
    SetEnabledStep();
    run := ToTested();
    StepTo(run, Tested0(), BeginEnable(TASK), Held0());
    run := run + [BeginEnable(TASK)];
    StepTo(run, Held0(), SetEnabled, Enabled0().(hold := Enabling(TASK)));
    run := run + [SetEnabled];
    StepTo(run, Enabled0().(hold := Enabling(TASK)), Release, Enabled0());
    run := run + [Release];
  }

  /** The successful test ran the definition; the firing asks for the same in another directory. */
  ghost predicate LandedElsewhere(s: State) {
    && FIRED in s.fires && FIRED in s.db.jobs && TEST in s.db.jobs && TASK in s.db.tasks &&
       s.db.jobs[TEST].state == Succeeded
    && s.db.jobs[TEST].work == DEFINITION.work && s.db.tasks[TASK].work == DEFINITION.work
    && s.db.jobs[FIRED].work == DEFINITION.work.(workspace := THERE) && THERE != HERE
  }

  lemma FiredIsElsewhere()
    ensures LandedElsewhere(Fired0())
  {
    NamesAreGood();
  }

  /**
   * A task is saved, tested successfully and enabled; then its directory is replaced by a link to another one, and the
   * timer's run lands there.
   */
  lemma ResolutionCanMoveAFiring() returns (run: seq<Step>)
    ensures Follows(INITIAL, run) && LandedElsewhere(After(INITIAL, run))
  {
    BeginStep(Moved0(), true);
    FireStep();
    FiredIsElsewhere();
    run := ToEnabled();
    StepTo(run, Enabled0(), Relink(map[HERE := THERE]), Moved0());
    run := run + [Relink(map[HERE := THERE])];
    StepTo(run, Moved0(), BeginRun(TASK, true), Moved0().(hold := Starting(TASK, TaskRow(true), true)));
    run := run + [BeginRun(TASK, true)];
    StepTo(run, Moved0().(hold := Starting(TASK, TaskRow(true), true)), QueueRun(FIRED, 0.0), Fired0());
    run := run + [QueueRun(FIRED, 0.0)];
  }
}
