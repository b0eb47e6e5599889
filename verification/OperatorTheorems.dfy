/** What holds in every run of the whole system, whatever interleaves and wherever processes die. */
module OperatorTheorems {
  import opened Text
  import opened Tables
  import opened JobQueue
  import opened History
  import opened Scheduler
  import opened Progress
  import opened Execution
  import opened OperatorSystem
  import Notifier

  // ----- nothing is taken back ------------------------------------------------------

  lemma SameJobsEvolve(a: Db, b: Db)
    requires a.jobs == b.jobs && a.events == b.events && a.acks == b.acks
    requires forall id :: id in a.links ==> id in b.links && b.links[id] == a.links[id]
    requires forall name :: name in a.tasks ==> name in b.tasks && a.tasks[name].revision <= b.tasks[name].revision
    requires forall name :: name in a.tasks && a.tasks[name].deleted ==> b.tasks[name].deleted
    ensures Evolves(a, b)
  {
  }

  /** The steps of task commands that write task rows. */
  predicate WritesTask(l: Step) {
    l.SaveTask? || l.SetEnabled? || l.TimerFails? || l.BeginPause? || l.Delete?
  }

  /** The steps that leave the database alone. */
  predicate WritesNothing(l: Step) {
    || l.Tick? || l.Relink? || l.WorkerStarts? || l.Serve? || l.Poll? || l.WorkerDies?
    || l.BeginRun? || l.BeginEnable? || l.Release? || l.Notify?
  }

  lemma TaskWritesKeepJobs(s: State, l: Step)
    requires Enabled(s, l) && WritesTask(l)
    ensures Do(s, l).db == s.db.(tasks := Do(s, l).db.tasks)
  {
  }

  lemma TaskWritesKeepTasks(s: State, l: Step)
    requires Enabled(s, l) && WritesTask(l)
    ensures forall name :: name in s.db.tasks ==>
              name in Do(s, l).db.tasks && s.db.tasks[name].revision <= Do(s, l).db.tasks[name].revision
    ensures forall name :: name in s.db.tasks && s.db.tasks[name].deleted ==> Do(s, l).db.tasks[name].deleted
  {
    if l.SaveTask? {
      SavingKeepsTasks(s.db, l.name, l.d, l.edit);
    } else {
      var name := if l.BeginPause? then l.name else s.hold.name;
      OneRowSwitched(s, l, name);
    }
  }

  lemma SavingKeepsTasks(db: Db, name: Name, d: Definition, edit: bool)
    requires Saved(db, name, d, edit).Ok?
    ensures var after := Saved(db, name, d, edit).value;
            && (forall n :: n in db.tasks ==> n in after.tasks && db.tasks[n].revision <= after.tasks[n].revision)
            && (forall n :: n in db.tasks && db.tasks[n].deleted ==> after.tasks[n].deleted)
  {
  }

  lemma OneRowSwitched(s: State, l: Step, name: Name)
    requires Enabled(s, l) && (l.SetEnabled? || l.TimerFails? || l.BeginPause? || l.Delete?)
    requires name == if l.BeginPause? then l.name else s.hold.name
    ensures name in s.db.tasks && Do(s, l).db.tasks.Keys == s.db.tasks.Keys
    ensures forall n :: n in s.db.tasks && n != name ==> Do(s, l).db.tasks[n] == s.db.tasks[n]
    ensures Do(s, l).db.tasks[name].revision == s.db.tasks[name].revision
    ensures s.db.tasks[name].deleted ==> Do(s, l).db.tasks[name].deleted
  {
  }

  lemma TaskWritesEvolve(s: State, l: Step)
    requires Enabled(s, l) && WritesTask(l)
    ensures Evolves(s.db, Do(s, l).db) && Do(s, l).db.events == s.db.events
  {
    TaskWritesKeepJobs(s, l);
    TaskWritesKeepTasks(s, l);
    SameJobsEvolve(s.db, Do(s, l).db);
  }

  lemma OthersWriteNothing(s: State, l: Step)
    requires Enabled(s, l) && WritesNothing(l)
    ensures Do(s, l).db == s.db
  {
  }

  lemma EndingEvolves(s: State, l: Step)
    requires Inv(s) && Enabled(s, l) && (l.RecoverOne? || l.Finish?)
    ensures Evolves(s.db, Do(s, l).db)
  {
    match l
    case RecoverOne =>
      assert s.worker.todo[0] in RunningIds(s.db);
      FinishSteps(s.db, s.worker.todo[0], Interrupted, Some(WorkerLost), None, s.now);
    case Finish(error, status) =>
      var exit := Ended(s, error, status);
      EndedIsJustified(s, error, status);
      assert s.worker.job in RunningIds(s.db);
      FinishSteps(s.db, s.worker.job, exit.outcome, exit.reason, exit.code, s.now);
  }

  lemma ReviewEvolves(s: State, target: Option<Id>, rows: seq<Id>)
    requires Inv(s) && Enabled(s, Review(target, rows))
    ensures Evolves(s.db, AllAcknowledged(s.db, rows, s.now))
  {
    forall i | 0 <= i < |rows| ensures Outstanding(s.db, rows[i]) {
      assert rows[i] in OutstandingIds(s.db, target);
    }
    ReviewSteps(s.db, rows, s.now);
  }

  lemma OperatorStepsEvolve(s: State, l: Step)
    requires Inv(s) && Enabled(s, l) && (l.Submit? || l.Retry? || l.Cancel? || l.Claim?)
    ensures Evolves(s.db, Do(s, l).db)
  {
    match l
    case Submit(id, q, at) => SubmitSteps(s.db, id, q, at);
    case Retry(id, parent, workspace, at) => SubmitSteps(s.db, id, RetryRequest(s.db.jobs[parent], parent, workspace),
                                                         at);
    case Cancel(id) => CancelSteps(s.db, id, s.now);
    case Claim(id) => ClaimSteps(s.db, id, s.now);
  }

  lemma LinkedRunEvolves(a: Db, b: Db, id: Id, q: Request, link: Link, at: real)
    requires Submitted(a, id, q, at).Ok? && id !in a.links
    requires var mid := Submitted(a, id, q, at).value; b == mid.(links := mid.links[id := link])
    ensures Evolves(a, b)
  {
    SubmitSteps(a, id, q, at);
    var mid := Submitted(a, id, q, at).value;
    QueueStepEvolves(a, mid);
    SameJobsEvolve(mid, b);
    EvolvesOnwards(a, mid, b);
  }

  lemma QueueingEvolves(s: State, l: Step)
    requires Inv(s) && Enabled(s, l) && l.QueueRun?
    ensures Evolves(s.db, Do(s, l).db)
  {
    if exists k :: k in s.db.links && ActiveRun(s.db, s.hold.name, k) {
      SameJobsEvolve(s.db, s.db);
    } else {
      LinkedRunEvolves(s.db, Do(s, l).db, l.id, RunRequest(s.hold.task, Resolved(s.paths, s.hold.task.work.workspace)),
                       Link(s.hold.name, s.hold.task.revision), l.at);
    }
  }

  lemma StepEvolves(s: State, l: Step)
    requires Inv(s) && Enabled(s, l)
    ensures Evolves(s.db, Do(s, l).db)
  {
    if l.Submit? || l.Retry? || l.Cancel? || l.Claim? {
      OperatorStepsEvolve(s, l);
    } else if l.RecoverOne? || l.Finish? {
      EndingEvolves(s, l);
    } else if l.Review? {
      ReviewEvolves(s, l.target, l.rows);
    } else if l.QueueRun? {
      QueueingEvolves(s, l);
    } else if WritesTask(l) {
      TaskWritesEvolve(s, l);
    } else {
      OthersWriteNothing(s, l);
      SameJobsEvolve(s.db, s.db);
    }
  }

  /**
   * Over any run the log only grows, no job is forgotten, changed in what it asks for, run a second time or moved out
   * of its outcome, and reviews, links and removals stay.
   */
  lemma {:induction false} NothingIsTakenBack(s: State, run: seq<Step>)
    requires Inv(s) && Follows(s, run)
    ensures Evolves(s.db, After(s, run).db)
    decreases run
  {
    if run == [] {
      SameJobsEvolve(s.db, s.db);
    } else {
      var before := After(s, run[..|run| - 1]);
      NothingIsTakenBack(s, run[..|run| - 1]);
      RunKeeps(s, run[..|run| - 1]);
      StepEvolves(before, run[|run| - 1]);
      EvolvesOnwards(s.db, before.db, After(s, run).db);
    }
  }

  // ----- the log -------------------------------------------------------------------------

  /**
   * In every reachable state the log replays to exactly the stored state, cancellation flag and review of every job;
   * each job has at most one running and one terminal event, and the latter names its outcome.
   */
  lemma LogIsFaithful(run: seq<Step>, id: Id)
    requires Follows(INITIAL, run)
    ensures var db := After(INITIAL, run).db;
            && Replay(db.events, id) == Stored(db, id)
            && (forall i, j :: 0 <= i < j < |db.events| ==> !(Runs(db.events[i], id) && Runs(db.events[j], id)))
            && (forall i, j :: 0 <= i < j < |db.events| ==> !(Ends(db.events[i], id) && Ends(db.events[j], id)))
            && (forall i :: 0 <= i < |db.events| && Ends(db.events[i], id) ==>
                  id in db.jobs && db.jobs[id].state == db.events[i].mark.state)
            && (id in db.jobs && db.jobs[id].state.Terminal() ==>
                exists i :: 0 <= i < |db.events| && Ends(db.events[i], id))
  {
    InitiallySound();
    RunKeeps(INITIAL, run);
    var db := After(INITIAL, run).db;
    assert Replay(db.events, id) == Stored(db, id);
    HappensOnce(db.events, id);
  }

  // ----- outcomes ----------------------------------------------------------------------------

  /**
   * A job is recorded as succeeded only if its process exited 0 and no cancellation, stop or deadline was seen before.
   */
  lemma SucceededMeansClean(run: seq<Step>, id: Id)
    requires Follows(INITIAL, run)
    requires id in After(INITIAL, run).db.jobs && After(INITIAL, run).db.jobs[id].state == Succeeded
    ensures id in After(INITIAL, run).ledger && exists k: nat :: EndsCleanly(After(INITIAL, run).ledger[id], k)
  {
    InitiallySound();
    RunKeeps(INITIAL, run);
  }

  predicate Asked(events: seq<Event>, id: Id) {
    exists i :: 0 <= i < |events| && Asks(events[i], id)
  }

  predicate HasRun(events: seq<Event>, id: Id) {
    exists i :: 0 <= i < |events| && Runs(events[i], id)
  }

  /** No job is interrupted that was asked to be cancelled, or never ran. */
  predicate Honest(events: seq<Event>) {
    forall i :: 0 <= i < |events| && events[i].mark == Became(Interrupted) ==>
      !Asked(events[..i], events[i].job) && HasRun(events[..i], events[i].job)
  }

  lemma HonestThen(events: seq<Event>, e: Event)
    requires Honest(events)
    requires e.mark == Became(Interrupted) ==> !Asked(events, e.job) && HasRun(events, e.job)
    ensures Honest(events + [e])
  {
    var more := events + [e];
    forall i | 0 <= i < |more| && more[i].mark == Became(Interrupted)
      ensures !Asked(more[..i], more[i].job) && HasRun(more[..i], more[i].job)
    {
      assert more[..i] == events[..i];
      assert events[..|events|] == events;
    }
  }

  /** What a running job's events say: it ran, and it was asked to stop exactly if its flag is set. */
  lemma {:induction false} RunningIsLogged(events: seq<Event>, id: Id)
    requires Replay(events, id).Seen? && Replay(events, id).state == Running
    ensures HasRun(events, id)
  {
    var n := |events| - 1;
    if Runs(events[n], id) {
    } else {
      RunningIsLogged(events[..n], id);
      var i :| 0 <= i < |events[..n]| && Runs(events[..n][i], id);
      assert Runs(events[i], id);
    }
  }

  lemma {:induction false} NoRequestAfterTheEnd(events: seq<Event>, id: Id)
    requires Replay(events, id) != Corrupt
    ensures forall i, j :: 0 <= i < j < |events| ==> !(Ends(events[i], id) && Asks(events[j], id))
  {
    if events != [] {
      var n := |events| - 1;
      NoRequestAfterTheEnd(events[..n], id);
      HappensOnce(events[..n], id);
      assert forall i :: 0 <= i < n ==> events[..n][i] == events[i];
    }
  }

  /** The end of a running job, by the worker or by recovery. */
  lemma FinishIsHonest(db: Db, id: Id, state: JobState, reason: Option<Note>, code: Option<int>, now: real)
    requires Sound(db) && Honest(db.events) && id in db.jobs && db.jobs[id].state == Running
    ensures Honest(Finished(db, id, state, reason, code, now).value.events)
  {
    assert Replay(db.events, id) == Stored(db, id);
    RunningIsLogged(db.events, id);
    CancelIsLogged(db.events, id);
    var after := Finished(db, id, state, reason, code, now).value;
    var e := after.events[|db.events|];
    assert after.events == db.events + [e];
    HonestThen(db.events, e);
  }

  lemma {:induction false} ReviewIsHonest(db: Db, rows: seq<Id>, now: real)
    requires Honest(db.events) && forall i :: 0 <= i < |rows| ==> rows[i] in db.jobs
    ensures Honest(AllAcknowledged(db, rows, now).events)
    decreases rows
  {
    if rows != [] {
      HonestThen(db.events, Event(rows[0], now, Reviewed, Some(OutcomeReviewed(db.jobs[rows[0]].state))));
      ReviewIsHonest(Acknowledged(db, rows[0], now), rows[1..], now);
    }
  }

  /** An appended event other than an interruption. */
  lemma QuietIsHonest(before: seq<Event>, after: seq<Event>)
    requires Honest(before) && |after| == |before| + 1 && after[..|before|] == before &&
             after[|before|].mark != Became(Interrupted)
    ensures Honest(after)
  {
    HonestThen(before, after[|before|]);
    assert after == before + [after[|before|]];
  }

  lemma EndingIsHonest(s: State, l: Step)
    requires Inv(s) && Enabled(s, l) && (l.RecoverOne? || l.Finish?) && Honest(s.db.events)
    ensures Honest(Do(s, l).db.events)
  {
    match l
    case RecoverOne =>
      assert s.worker.todo[0] in RunningIds(s.db);
      FinishIsHonest(s.db, s.worker.todo[0], Interrupted, Some(WorkerLost), None, s.now);
    case Finish(error, status) =>
      var exit := Ended(s, error, status);
      assert s.worker.job in RunningIds(s.db);
      FinishIsHonest(s.db, s.worker.job, exit.outcome, exit.reason, exit.code, s.now);
  }

  lemma SubmitIsHonest(db: Db, id: Id, q: Request, at: real)
    requires Honest(db.events) && Submitted(db, id, q, at).Ok?
    ensures Honest(Submitted(db, id, q, at).value.events)
  {
    QuietIsHonest(db.events, Submitted(db, id, q, at).value.events);
  }

  lemma CancelIsHonest(db: Db, id: Id, at: real)
    requires Honest(db.events) && CancelledJob(db, id, at).Ok?
    ensures Honest(CancelledJob(db, id, at).value.events)
  {
    QuietIsHonest(db.events, CancelledJob(db, id, at).value.events);
  }

  lemma ClaimIsHonest(db: Db, id: Id, at: real)
    requires Honest(db.events) && id in db.jobs
    ensures Honest(Claimed(db, id, at).events)
  {
    QuietIsHonest(db.events, Claimed(db, id, at).events);
  }

  lemma QueueingIsHonest(s: State, l: Step)
    requires Honest(s.db.events) && Enabled(s, l) && l.QueueRun?
    ensures Honest(Do(s, l).db.events)
  {
    if !exists k :: k in s.db.links && ActiveRun(s.db, s.hold.name, k) {
      SubmitIsHonest(s.db, l.id, RunRequest(s.hold.task, Resolved(s.paths, s.hold.task.work.workspace)), l.at);
    }
  }

  lemma OperatorStepsAreHonest(s: State, l: Step)
    requires Enabled(s, l) && (l.Submit? || l.Retry? || l.Cancel? || l.Claim? || l.Review?) && Honest(s.db.events)
    ensures Honest(Do(s, l).db.events)
  {
    match l
    case Submit(id, q, at) => SubmitIsHonest(s.db, id, q, at);
    case Retry(id, parent, workspace, at) => SubmitIsHonest(s.db, id,
                                                            RetryRequest(s.db.jobs[parent], parent, workspace), at);
    case Cancel(id) => CancelIsHonest(s.db, id, s.now);
    case Claim(id) => ClaimIsHonest(s.db, id, s.now);
    case Review(_, rows) => ReviewIsHonest(s.db, rows, s.now);
  }

  lemma StepIsHonest(s: State, l: Step)
    requires Inv(s) && Enabled(s, l) && Honest(s.db.events)
    ensures Honest(Do(s, l).db.events)
  {
    if l.Submit? || l.Retry? || l.Cancel? || l.Claim? || l.Review? {
      OperatorStepsAreHonest(s, l);
    } else if l.RecoverOne? || l.Finish? {
      EndingIsHonest(s, l);
    } else if l.QueueRun? {
      QueueingIsHonest(s, l);
    } else if WritesTask(l) {
      TaskWritesEvolve(s, l);
    } else {
      OthersWriteNothing(s, l);
    }
  }

  lemma {:induction false} RunIsHonest(run: seq<Step>)
    requires Follows(INITIAL, run)
    ensures Honest(After(INITIAL, run).db.events)
    decreases run
  {
    if run != [] {
      RunIsHonest(run[..|run| - 1]);
      InitiallySound();
      RunKeeps(INITIAL, run[..|run| - 1]);
      StepIsHonest(After(INITIAL, run[..|run| - 1]), run[|run| - 1]);
    }
  }

  lemma {:induction false} OutcomeOfTheUnrun(events: seq<Event>, id: Id)
    requires Replay(events, id).Seen? && Replay(events, id).state.Terminal() && !HasRun(events, id)
    ensures Replay(events, id).state == Cancelled || Replay(events, id).state == Interrupted
  {
    var n := |events| - 1;
    assert !Runs(events[n], id);
    forall i | 0 <= i < n ensures !Runs(events[..n][i], id) {
      assert !Runs(events[i], id);
    }
    if Replay(events[..n], id).Seen? && Replay(events[..n], id).state.Terminal() {
      OutcomeOfTheUnrun(events[..n], id);
    } else {
      UnrunIsQueued(events[..n], id);
    }
  }

  lemma UnrunIsQueued(events: seq<Event>, id: Id)
    requires !HasRun(events, id)
    ensures !(Replay(events, id).Seen? && Replay(events, id).state == Running)
  {
    if Replay(events, id).Seen? && Replay(events, id).state == Running {
      RunningIsLogged(events, id);
    }
  }

  lemma InterruptedWasUnasked(events: seq<Event>, k: nat, id: Id)
    requires Honest(events) && k < |events| && Ends(events[k], id)
    requires forall i, j :: 0 <= i < j < |events| ==> !(Ends(events[i], id) && Asks(events[j], id))
    ensures events[k].mark.state == Interrupted ==> !Asked(events, id) && HasRun(events, id)
  {
    if events[k].mark.state == Interrupted {
      assert events[k].mark == Became(Interrupted);
      assert !Asked(events[..k], id) && HasRun(events[..k], id);
      forall i | 0 <= i < |events| ensures !Asks(events[i], id) {
        if i < k {
          assert !Asks(events[..k][i], id);
        } else if i > k {
          assert !(Ends(events[k], id) && Asks(events[i], id));
        }
      }
      var i :| 0 <= i < |events[..k]| && Runs(events[..k][i], id);
      assert Runs(events[i], id);
    }
  }

  /** The outcome, from the log alone. */
  lemma OutcomeFromTheLog(events: seq<Event>, id: Id)
    requires Honest(events) && Replay(events, id).Seen? && Replay(events, id).state.Terminal()
    ensures Replay(events, id).state == Cancelled <==> Asked(events, id) || !HasRun(events, id)
  {
    HappensOnce(events, id);
    if Replay(events, id).state == Interrupted {
      NoRequestAfterTheEnd(events, id);
      var k :| 0 <= k < |events| && Ends(events[k], id);
      InterruptedWasUnasked(events, k, id);
    } else if HasRun(events, id) {
      CancelledMeansAsked(events, id);
    } else {
      OutcomeOfTheUnrun(events, id);
    }
  }

  /**
   * A finished job is cancelled exactly if the operator cancelled it before its end: before it started, or by a request
   * in the log while it ran. No other outcome is possible for a job that was asked to stop or never ran.
   */
  lemma CancelledIffAsked(run: seq<Step>, id: Id)
    requires Follows(INITIAL, run)
    requires id in After(INITIAL, run).db.jobs && After(INITIAL, run).db.jobs[id].state.Terminal()
    ensures var db := After(INITIAL, run).db;
            db.jobs[id].state == Cancelled <==> Asked(db.events, id) || !HasRun(db.events, id)
  {
    InitiallySound();
    RunKeeps(INITIAL, run);
    RunIsHonest(run);
    var db := After(INITIAL, run).db;
    assert Replay(db.events, id) == Stored(db, id);
    OutcomeFromTheLog(db.events, id);
  }

  // ----- attention ------------------------------------------------------------------------------

  /** What asks for attention is what failed less what was reviewed, and a review records the outcome it reviewed. */
  lemma AttentionBalances(run: seq<Step>)
    requires Follows(INITIAL, run)
    ensures var db := After(INITIAL, run).db;
            && Attention(db, Failed) + Attention(db, TimedOut) + Attention(db, Interrupted) + |db.acks| ==
               Count(db, Failed) + Count(db, TimedOut) + Count(db, Interrupted)
            && (forall s: JobState :: !s.Unsuccessful() ==> Attention(db, s) == 0)
            && (forall id :: id in db.acks ==> id in db.jobs && db.acks[id].state == db.jobs[id].state)
  {
    InitiallySound();
    RunKeeps(INITIAL, run);
    AttentionIsConserved(After(INITIAL, run).db);
  }

  // ----- schedules --------------------------------------------------------------------------------

  /**
   * A linked run asks for what its revision said when it was saved, in the directory its path resolved to when queued.
   */
  ghost predicate AsDefined(s: State, id: Id) {
    && id in s.db.links && id in s.db.jobs && id in s.dirs && s.db.links[id] in s.defs
    && s.db.jobs[id].work == s.defs[s.db.links[id]].(workspace := s.dirs[id])
  }

  ghost predicate AllAsDefined(s: State) {
    forall id :: id in s.db.links ==> AsDefined(s, id)
  }

  lemma AsDefinedStays(s: State, t: State, id: Id)
    requires AsDefined(s, id) && KeepsJobs(s.db, t.db) && id in t.db.links && t.db.links[id] == s.db.links[id]
    requires id in t.dirs && t.dirs[id] == s.dirs[id] && s.db.links[id] in t.defs &&
             t.defs[s.db.links[id]] == s.defs[s.db.links[id]]
    ensures AsDefined(t, id)
  {
    assert Keeps(s.db.jobs[id], t.db.jobs[id]);
  }

  lemma DefinitionsStayWritten(s: State, l: Step)
    requires DefinitionsKept(s.db, s.defs) && Enabled(s, l)
    ensures forall link :: link in s.defs ==> link in Do(s, l).defs && Do(s, l).defs[link] == s.defs[link]
  {
    if l.SaveTask? {
      SavedIsOnRecord(s.db, s.defs, l.name, l.d, l.edit);
    } else {
      OthersDefineNothing(s, l);
    }
  }

  lemma OthersDefineNothing(s: State, l: Step)
    requires Enabled(s, l) && !l.SaveTask?
    ensures Do(s, l).defs == s.defs
  {
    if l.QueueRun? {
      assert Do(s, l).defs == s.defs;
    }
  }

  lemma WorkLinksNothing(s: State, l: Step)
    requires Enabled(s, l) && (l.Submit? || l.Retry? || l.Cancel? || l.Claim? || l.RecoverOne? || l.Finish?)
    ensures Do(s, l).db.links == s.db.links
  {
  }

  lemma DirsStay(s: State, l: Step)
    requires Enabled(s, l) && !l.QueueRun?
    ensures Do(s, l).dirs == s.dirs
  {
  }

  lemma OthersLinkNothing(s: State, l: Step)
    requires Inv(s) && Enabled(s, l) && !l.QueueRun?
    ensures Do(s, l).db.links == s.db.links && Do(s, l).dirs == s.dirs
  {
    DirsStay(s, l);
    if l.Review? {
      ListedIsReviewable(s.db, l.target, l.rows);
      AllAcknowledgedKeeps(s.db, l.rows, s.now);
    } else if WritesTask(l) {
      TaskWritesKeepJobs(s, l);
    } else if WritesNothing(l) {
      OthersWriteNothing(s, l);
    } else {
      WorkLinksNothing(s, l);
    }
  }

  ghost predicate HasActive(db: Db, name: Name) {
    exists k :: k in db.links && ActiveRun(db, name, k)
  }

  /** The step queues a linked run. */
  ghost predicate QueuesRun(s: State, l: Step) {
    Enabled(s, l) && l.QueueRun? && !HasActive(s.db, s.hold.name)
  }

  /** A run that was queued, in the directory found at that moment. */
  lemma QueuedAsDefined(s: State, l: Step, t: State)
    requires DefinitionsKept(s.db, s.defs) && HoldSound(s.db, s.hold) && QueuesRun(s, l) && t == Do(s, l)
    ensures l.id !in s.db.links && t.db.links == s.db.links[l.id := Link(s.hold.name, s.hold.task.revision)]
    ensures AsDefined(t, l.id) && s.hold.task.work.workspace in s.paths
    ensures t.dirs == s.dirs[l.id := s.paths[s.hold.task.work.workspace]]
  {
    var q := RunRequest(s.hold.task, Resolved(s.paths, s.hold.task.work.workspace));
    var mid := Submitted(s.db, l.id, q, l.at).value;
    assert l.id !in s.db.jobs && mid.jobs[l.id] == NewJob(q, l.at) && mid.links == s.db.links;
  }

  lemma IdleQueueing(s: State, l: Step)
    requires Enabled(s, l) && l.QueueRun? && HasActive(s.db, s.hold.name)
    ensures Do(s, l).db == s.db && Do(s, l).dirs == s.dirs && Do(s, l).fires == s.fires
  {
  }

  lemma LinksAndDirs(s: State, l: Step)
    requires Inv(s) && Enabled(s, l) && !QueuesRun(s, l)
    ensures Do(s, l).db.links == s.db.links && Do(s, l).dirs == s.dirs
  {
    if l.QueueRun? {
      IdleQueueing(s, l);
    } else {
      OthersLinkNothing(s, l);
    }
  }

  lemma StepKeepsDefined(s: State, l: Step)
    requires Inv(s) && AllAsDefined(s) && Enabled(s, l)
    ensures AllAsDefined(Do(s, l))
  {
    var t := Do(s, l);
    StepEvolves(s, l);
    DefinitionsStayWritten(s, l);
    NewAsDefined(s, l, t);
    forall id | id in t.db.links ensures AsDefined(t, id) {
      if id in s.db.links {
        AsDefinedStays(s, t, id);
      }
    }
  }

  lemma NewAsDefined(s: State, l: Step, t: State)
    requires Inv(s) && Enabled(s, l) && t == Do(s, l)
    ensures forall id :: id in s.db.links ==> id in t.db.links && t.db.links[id] == s.db.links[id]
    ensures forall id :: id in s.db.links && id in s.dirs ==> id in t.dirs && t.dirs[id] == s.dirs[id]
    ensures forall id :: id in t.db.links && id !in s.db.links ==> AsDefined(t, id)
  {
    if QueuesRun(s, l) {
      QueuedAsDefined(s, l, t);
    } else {
      LinksAndDirs(s, l);
    }
  }

  lemma {:induction false} RunKeepsDefined(run: seq<Step>)
    requires Follows(INITIAL, run)
    ensures AllAsDefined(After(INITIAL, run))
    decreases run
  {
    if run != [] {
      RunKeepsDefined(run[..|run| - 1]);
      InitiallySound();
      RunKeeps(INITIAL, run[..|run| - 1]);
      StepKeepsDefined(After(INITIAL, run[..|run| - 1]), run[|run| - 1]);
    }
  }

  /** Event number i (from 0) puts a job into a state. */
  predicate Logs(events: seq<Event>, i: nat, id: Id, state: JobState) {
    i < |events| && events[i].job == id && events[i].mark == Became(state)
  }

  /**
   * No untested firing: a job that a timer queued asks for what its revision said, and an earlier run of that same
   * revision, asking for the same, had succeeded before it was queued, by a clean exit 0.
   */
  lemma NoUntestedFiring(run: seq<Step>, id: Id) returns (t: Id, i: nat)
    requires Follows(INITIAL, run) && id in After(INITIAL, run).fires
    ensures var s := After(INITIAL, run);
            && AsDefined(s, id) && AsDefined(s, t) && t != id && s.db.links[t] == s.db.links[id]
            && i < s.fires[id] && Logs(s.db.events, i, t, Succeeded) && Logs(s.db.events, s.fires[id], id, Queued)
            && t in s.ledger && exists k: nat :: EndsCleanly(s.ledger[t], k)
  {
    InitiallySound();
    RunKeeps(INITIAL, run);
    RunKeepsDefined(run);
    t, i := FiredAfterTest(After(INITIAL, run), id);
  }

  lemma FiredAfterTest(s: State, id: Id) returns (t: Id, i: nat)
    requires Sound(s.db) && AllAsDefined(s) && FiresSound(s.db, s.fires) && LedgerSound(s.db, s.ledger) && id in s.fires
    ensures AsDefined(s, id) && AsDefined(s, t) && t != id && s.db.links[t] == s.db.links[id]
    ensures i < s.fires[id] && Logs(s.db.events, i, t, Succeeded) && Logs(s.db.events, s.fires[id], id, Queued)
    ensures t in s.ledger && exists k: nat :: EndsCleanly(s.ledger[t], k)
  {
    t, i :| t in s.db.links && TestedBy(s.db, s.db.links[id], t) && 0 <= i < s.fires[id] && i < |s.db.events| &&
        Ends(s.db.events[i], t);
    assert Replay(s.db.events, t) == Stored(s.db, t);
    HappensOnce(s.db.events, t);
    TestsPrecede(s.db.events, t, i, s.fires[id]);
  }

  /** A job's end comes after it was queued, so the two are not events of one job in the other order. */
  lemma {:induction false} TestsPrecede(events: seq<Event>, id: Id, i: nat, n: nat)
    requires Replay(events, id) != Corrupt && i < n < |events| && Ends(events[i], id)
    ensures !(events[n].job == id && events[n].mark == Became(Queued))
  {
    var m := |events| - 1;
    if n < m {
      assert events[..m][i] == events[i] && events[..m][n] == events[n];
      TestsPrecede(events[..m], id, i, n);
    } else {
      assert events[..m][i] == events[i];
      HappensOnce(events[..m], id);
    }
  }

  /**
   * What is enabled exists, is not removed, and has a successful run of its current revision; names are never reused.
   */
  lemma EnabledMeansTested(run: seq<Step>, name: Name)
    requires Follows(INITIAL, run)
    requires name in After(INITIAL, run).db.tasks && After(INITIAL, run).db.tasks[name].enabled
    ensures var s := After(INITIAL, run);
            var link := Link(name, s.db.tasks[name].revision);
            && !s.db.tasks[name].deleted && link in s.defs && s.defs[link] == s.db.tasks[name].work
            && exists t :: t in s.db.links && TestedBy(s.db, link, t) && Same(s.db.jobs[t].work, s.defs[link])
  {
    InitiallySound();
    RunKeeps(INITIAL, run);
    var s := After(INITIAL, run);
    var link := Link(name, s.db.tasks[name].revision);
    var t :| t in s.db.links && TestedBy(s.db, link, t);
  }

  /** At most one run linked to a task is queued or running, whoever starts, cancels or retries what. */
  lemma OneActiveRunPerTask(run: seq<Step>, name: Name, a: Id, b: Id)
    requires Follows(INITIAL, run)
    requires ActiveRun(After(INITIAL, run).db, name, a) && ActiveRun(After(INITIAL, run).db, name, b)
    ensures a == b
  {
    InitiallySound();
    RunKeeps(INITIAL, run);
  }

  /** At most one job is running, and while the worker executes it is the worker's. */
  lemma OneJobAtATime(run: seq<Step>, a: Id, b: Id)
    requires Follows(INITIAL, run)
    requires a in RunningIds(After(INITIAL, run).db) && b in RunningIds(After(INITIAL, run).db)
    ensures a == b && !After(INITIAL, run).worker.Polling?
    ensures After(INITIAL, run).worker.Executing? ==> a == After(INITIAL, run).worker.job
  {
    InitiallySound();
    RunKeeps(INITIAL, run);
  }

  // ----- notifications --------------------------------------------------------------------------------

  lemma AcceptedJobsDiffer(n: Notifier.State, db: Db, a: nat, b: nat)
    requires Sound(db) && Notifier.Inv(n, db.events) && a in n.accepted && b in n.accepted && a != b
    ensures 1 <= a <= |db.events| && 1 <= b <= |db.events| && db.events[a - 1].job != db.events[b - 1].job
  {
    Notifier.DistinctJobs(db, a, b);
  }

  /**
   * The notifier running beside everything else: all that asked for attention up to the cursor was accepted, in log
   * order, each accepted event is of its own job, and the branch that skips a replaced log is never taken.
   */
  lemma NotificationsAreDelivered(run: seq<Step>)
    requires Follows(INITIAL, run)
    ensures var (n, events) := (After(INITIAL, run).note, After(INITIAL, run).db.events);
            && (n.cursor.Some? ==>
                  forall k: nat :: n.start < k <= n.cursor.value.sequence && Notifier.Asking(events, k) ==>
                      k in n.accepted)
            && (forall i, j :: 0 <= i < j < |n.accepted| ==> n.accepted[i] <= n.accepted[j])
            && (forall a, b :: a in n.accepted && b in n.accepted && a != b ==>
                  1 <= a <= |events| && 1 <= b <= |events| && events[a - 1].job != events[b - 1].job)
            && (n.phase.Positioned? ==> n.cursor.Some? && !Notifier.Replaced(n.cursor.value, n.phase.position))
  {
    InitiallySound();
    RunKeeps(INITIAL, run);
    var (n, db) := (After(INITIAL, run).note, After(INITIAL, run).db);
    forall a, b | a in n.accepted && b in n.accepted && a != b
      ensures 1 <= a <= |db.events| && 1 <= b <= |db.events| && db.events[a - 1].job != db.events[b - 1].job
    {
      AcceptedJobsDiffer(n, db, a, b);
    }
  }
}
