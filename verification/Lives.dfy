/**
 * The life of a job in the whole system: which step made its row, which started it, which ended it, and what each
 * wrote there and in the log.
 */
module Lives {
  import opened Text
  import opened Tables
  import opened JobQueue
  import opened History
  import opened Scheduler
  import opened Progress
  import opened Execution
  import opened OperatorSystem
  import opened OperatorTheorems

  // ----- what the steps do to one row ------------------------------------------------------------

  /** The request a step makes for a job of this id: what to run, where, how long, when it was made and for whom. */
  datatype Asked = Asked(work: Work, at: real, delay: int, parent: Option<Id>)

  /** The step asks for a job: a submission, a retry of a job that did not succeed, or a run of a schedule. */
  ghost predicate AsksFor(s: State, l: Step, id: Id, a: Asked) {
    match l
    case Submit(i, q, at) =>
      && i == id && q.workspace.Some?
      && a == Asked(Work(q.kind, q.spec, q.workspace.value, q.timeout), at, q.delay, q.parent)
    case Retry(i, parent, workspace, at) =>
      && i == id && workspace.Some? && parent in s.db.jobs
      && s.db.jobs[parent].state in {Failed, Cancelled, TimedOut, Interrupted}
      && a == Asked(s.db.jobs[parent].work.(workspace := workspace.value), at, 0, Some(parent))
    case QueueRun(i, at) =>
      && i == id && s.hold.Starting? && s.hold.task.work.workspace in s.paths
      && a == Asked(s.hold.task.work.(workspace := s.paths[s.hold.task.work.workspace]), at, 0, None)
    case _ => false
  }

  /** The row of a new job, ready after its delay, and its event. */
  ghost predicate Born(a: Asked, id: Id, job: Job, e: Event) {
    && job.work == a.work && job.state == Queued && job.created == a.at && job.ready == a.at + a.delay as real
    && job.started == None && job.finished == None && job.exitCode == None && job.reason == None
    && !job.cancelRequested && job.parent == a.parent
    && 1 <= a.work.timeout <= 604800 && 0 <= a.delay <= 31536000
    && e.job == id && e.at == a.at && e.mark == Became(Queued)
    && match a.parent case None => e.detail == None case Some(parent) => Says(e.detail, "retry of " + parent)
  }

  /** The worker takes the job: its time has come, and none of those waiting is to go before it. */
  ghost predicate Starts(s: State, l: Step, id: Id, job: Job, e: Event)
    requires id in s.db.jobs
  {
    var was := s.db.jobs[id];
    && l == Step.Claim(id) && was.state == Queued && was.ready <= s.now
    && job == was.(state := Running, started := Some(s.now)) && e == Event(id, s.now, Became(Running), None)
    && forall k :: k in s.db.jobs && s.db.jobs[k].state == Queued && s.db.jobs[k].ready <= s.now ==>
         was.ready < s.db.jobs[k].ready || (was.ready == s.db.jobs[k].ready && was.created <= s.db.jobs[k].created)
  }

  /** The operator asks a running job to stop. */
  ghost predicate IsAskedToStop(s: State, l: Step, id: Id, job: Job, e: Event)
    requires id in s.db.jobs
  {
    && l == Step.Cancel(id) && s.db.jobs[id].state == Running
    && job == s.db.jobs[id].(cancelRequested := true) && e == Event(id, s.now, CancelAsked, None)
  }

  /** The job ends so; a recorded request to stop overrides what the run came to. */
  ghost predicate Closed(s: State, id: Id, outcome: JobState, code: Option<int>, job: Job, e: Event)
    requires id in s.db.jobs
  {
    var was := s.db.jobs[id];
    && job == was.(state := if was.cancelRequested then Cancelled else outcome, finished := Some(s.now),
                   exitCode := code, reason := job.reason)
    && e == Event(id, s.now, Became(job.state), job.reason)
    && (was.cancelRequested ==> Says(job.reason, "Cancelled by operator"))
  }

  /** The operator withdraws a job that has not been started. */
  ghost predicate IsWithdrawn(s: State, l: Step, id: Id, job: Job, e: Event)
    requires id in s.db.jobs
  {
    var was := s.db.jobs[id];
    && l == Step.Cancel(id) && was.state == Queued && Says(job.reason, "Cancelled before execution")
    && job == was.(state := Cancelled, finished := Some(s.now), reason := job.reason)
    && e == Event(id, s.now, Became(Cancelled), job.reason)
  }

  /** A worker that starts finds the job running: whoever ran it is gone. */
  ghost predicate IsLost(s: State, l: Step, id: Id, job: Job, e: Event)
    requires id in s.db.jobs
  {
    && l.RecoverOne? && s.worker.Recovering? && s.worker.todo != [] && s.worker.todo[0] == id
    && s.db.jobs[id].state == Running && Closed(s, id, Interrupted, None, job, e)
    && (!s.db.jobs[id].cancelRequested ==>
          Says(job.reason, "Worker stopped before recording an outcome; inspect logs before retrying"))
  }

  /** The worker's run of the job is over, and came to what its turns decide. */
  ghost predicate IsOver(s: State, l: Step, id: Id, job: Job, e: Event)
    requires id in s.db.jobs
  {
    && l.Finish? && s.worker.Executing? && s.worker.job == id && s.db.jobs[id].state == Running
    && exists exit: Exit :: ExitOf(s.worker.looks, s.db.jobs[id].work.timeout, l.error, l.status, exit) &&
         Closed(s, id, exit.outcome, exit.code, job, e) &&
         (!s.db.jobs[id].cancelRequested ==> job.reason == exit.reason)
  }

  /** The job's row changed in one of these ways, and the log got the event of it. */
  ghost predicate Changes(s: State, l: Step, id: Id, job: Job, e: Event)
    requires id in s.db.jobs
  {
    || Starts(s, l, id, job, e) || IsAskedToStop(s, l, id, job, e) || IsWithdrawn(s, l, id, job, e)
    || IsLost(s, l, id, job, e) || IsOver(s, l, id, job, e)
  }

  // ----- label by label -----------------------------------------------------------------------------

  /** A submission makes one row and one event. */
  lemma SubmissionMakes(db: Db, id: Id, q: Request, at: real)
    requires Submitted(db, id, q, at).Ok?
    ensures var t := Submitted(db, id, q, at).value;
            && q.workspace.Some? && id !in db.jobs && |t.events| == |db.events| + 1 && db.events <= t.events
            && t.jobs == db.jobs[id := t.jobs[id]]
            && Born(Asked(Work(q.kind, q.spec, q.workspace.value, q.timeout), at, q.delay, q.parent), id, t.jobs[id],
                    t.events[|db.events|])
  {
  }

  /** Other steps leave every row as it is. */
  lemma RowsStay(s: State, l: Step)
    requires Inv(s) && Enabled(s, l)
    requires !(l.Submit? || l.Retry? || l.QueueRun? || l.Cancel? || l.Claim? || l.RecoverOne? || l.Finish?)
    ensures Do(s, l).db.jobs == s.db.jobs
  {
    if l.Review? {
      ReviewedRows(s, l.target, l.rows);
    } else if WritesTask(l) {
      TaskWritesKeepJobs(s, l);
    } else {
      OthersWriteNothing(s, l);
    }
  }

  lemma ReviewedRows(s: State, target: Option<Id>, rows: seq<Id>)
    requires Inv(s) && Lists(rows, OutstandingIds(s.db, target), s.db)
    ensures AllAcknowledged(s.db, rows, s.now).jobs == s.db.jobs
  {
    forall i | 0 <= i < |rows| ensures Outstanding(s.db, rows[i]) {
      assert rows[i] in OutstandingIds(s.db, target);
    }
    AllAcknowledgedKeeps(s.db, rows, s.now);
  }

  /** One new row, as it was asked for, and its event. */
  ghost predicate NewRow(s: State, l: Step, t: Db, id: Id, a: Asked) {
    && AsksFor(s, l, id, a) && id !in s.db.jobs && id in t.jobs && t.jobs == s.db.jobs[id := t.jobs[id]]
    && |t.events| == |s.db.events| + 1 && s.db.events <= t.events && Born(a, id, t.jobs[id], t.events[|s.db.events|])
  }

  lemma RunMakes(s: State, l: Step, t: Db)
    requires l.QueueRun? && s.hold.Starting?
    requires var path := Resolved(s.paths, s.hold.task.work.workspace);
             var r := Enqueued(s.db, s.hold.name, s.hold.task, l.id, path, l.at);
             r.Ok? && r.value.0 == t
    ensures t.jobs == s.db.jobs || (s.hold.task.work.workspace in s.paths && NewRow(s, l, t, l.id,
              Asked(s.hold.task.work.(workspace := s.paths[s.hold.task.work.workspace]), l.at, 0, None)))
  {
    var q := RunRequest(s.hold.task, Resolved(s.paths, s.hold.task.work.workspace));
    if Submitted(s.db, l.id, q, l.at).Ok? {
      SubmissionMakes(s.db, l.id, q, l.at);
    }
  }

  lemma RetryMakes(s: State, l: Step, t: Db)
    requires l.Retry? && l.parent in s.db.jobs && s.db.jobs[l.parent].state.Terminal() &&
             s.db.jobs[l.parent].state != Succeeded
    requires Submitted(s.db, l.id, RetryRequest(s.db.jobs[l.parent], l.parent, l.workspace), l.at) == Ok(t)
    ensures l.workspace.Some? && NewRow(s, l, t, l.id,
              Asked(s.db.jobs[l.parent].work.(workspace := l.workspace.value), l.at, 0, Some(l.parent)))
  {
    SubmissionMakes(s.db, l.id, RetryRequest(s.db.jobs[l.parent], l.parent, l.workspace), l.at);
  }

  /** A step that asks for a job makes that row and no other; or a schedule's run is skipped and nothing happens. */
  lemma AskingMakes(s: State, l: Step)
    requires Enabled(s, l) && (l.Submit? || l.Retry? || l.QueueRun?)
    ensures Do(s, l).db.jobs == s.db.jobs || exists id, a :: NewRow(s, l, Do(s, l).db, id, a)
  {
    if l.Submit? {
      SubmissionMakes(s.db, l.id, l.q, l.at);
      var a := Asked(Work(l.q.kind, l.q.spec, l.q.workspace.value, l.q.timeout), l.at, l.q.delay, l.q.parent);
      assert NewRow(s, l, Do(s, l).db, l.id, a);
    } else if l.Retry? {
      RetryMakes(s, l, Do(s, l).db);
    } else {
      RunMakes(s, l, Do(s, l).db);
    }
  }

  /** The step touched only this row, in one of the ways above, and the log got that one event. */
  ghost predicate OneRow(s: State, l: Step, t: Db, id: Id) {
    && id in s.db.jobs && id in t.jobs && t.jobs == s.db.jobs[id := t.jobs[id]]
    && |t.events| == |s.db.events| + 1 && s.db.events <= t.events
    && Changes(s, l, id, t.jobs[id], t.events[|s.db.events|])
  }

  lemma ClaimChanges(s: State, l: Step, t: Db)
    requires l.Claim? && IsNext(s.db, l.id, s.now) && t == Claimed(s.db, l.id, s.now)
    ensures OneRow(s, l, t, l.id)
  {
    assert Starts(s, l, l.id, t.jobs[l.id], t.events[|s.db.events|]);
  }

  lemma CancelChanges(s: State, l: Step, t: Db)
    requires l.Cancel? && CancelledJob(s.db, l.id, s.now) == Ok(t)
    ensures OneRow(s, l, t, l.id)
  {
    if s.db.jobs[l.id].state == Queued {
      assert IsWithdrawn(s, l, l.id, t.jobs[l.id], t.events[|s.db.events|]);
    } else {
      assert IsAskedToStop(s, l, l.id, t.jobs[l.id], t.events[|s.db.events|]);
    }
  }

  lemma FinishCloses(s: State, id: Id, outcome: JobState, reason: Option<Note>, code: Option<int>, t: Db)
    requires id in s.db.jobs && s.db.jobs[id].state == Running
    requires Finished(s.db, id, outcome, reason, code, s.now) == Ok(t)
    ensures id in t.jobs && t.jobs == s.db.jobs[id := t.jobs[id]]
    ensures |t.events| == |s.db.events| + 1 && s.db.events <= t.events
    ensures Closed(s, id, outcome, code, t.jobs[id], t.events[|s.db.events|])
    ensures !s.db.jobs[id].cancelRequested ==> t.jobs[id].reason == reason
  {
  }

  lemma RecoveryChanges(s: State, l: Step, id: Id, t: Db)
    requires l.RecoverOne? && s.worker.Recovering? && s.worker.todo != [] && s.worker.todo[0] == id
    requires id in s.db.jobs && s.db.jobs[id].state == Running
    requires Finished(s.db, id, Interrupted, Some(WorkerLost), None, s.now) == Ok(t)
    ensures OneRow(s, l, t, id)
  {
    FinishCloses(s, id, Interrupted, Some(WorkerLost), None, t);
    assert IsLost(s, l, id, t.jobs[id], t.events[|s.db.events|]);
  }

  lemma EndChanges(s: State, l: Step, id: Id, t: Db)
    requires l.Finish? && s.worker.Executing? && s.worker.job == id && Ran(s.worker.looks, l.error)
    requires id in s.db.jobs && s.db.jobs[id].state == Running
    requires var exit := Verdict(s.worker.looks, s.db.jobs[id].work.timeout, l.error, l.status);
             Finished(s.db, id, exit.outcome, exit.reason, exit.code, s.now) == Ok(t)
    ensures OneRow(s, l, t, id)
  {
    var exit := Verdict(s.worker.looks, s.db.jobs[id].work.timeout, l.error, l.status);
    RanEnds(s.worker.looks, l.error);
    VerdictIs(s.worker.looks, s.db.jobs[id].work.timeout, l.error, l.status);
    FinishCloses(s, id, exit.outcome, exit.reason, exit.code, t);
    assert IsOver(s, l, id, t.jobs[id], t.events[|s.db.events|]);
  }

  lemma RunningIsThere(db: Db, worker: Worker, id: Id)
    requires WorkerSound(db, worker)
    requires (worker.Recovering? && worker.todo != [] && worker.todo[0] == id) ||
             (worker.Executing? && worker.job == id)
    ensures id in db.jobs && db.jobs[id].state == Running
  {
    assert id in RunningIds(db);
  }

  /** A step on a row that is there already. */
  lemma RowSteps(s: State, l: Step) returns (id: Id)
    requires Inv(s) && Enabled(s, l) && (l.Cancel? || l.Claim? || l.RecoverOne? || l.Finish?)
    ensures OneRow(s, l, Do(s, l).db, id)
  {
    match l
    case Claim(i) =>
      id := i;
      ClaimChanges(s, l, Do(s, l).db);
    case Cancel(i) =>
      id := i;
      CancelChanges(s, l, Do(s, l).db);
    case RecoverOne =>
      id := s.worker.todo[0];
      RunningIsThere(s.db, s.worker, id);
      RecoveryChanges(s, l, id, Do(s, l).db);
    case Finish(_, _) =>
      id := s.worker.job;
      RunningIsThere(s.db, s.worker, id);
      EndChanges(s, l, id, Do(s, l).db);
  }

  /** The row came about, or changed if it did, in one of the ways above. */
  ghost predicate Caused(s: State, l: Step, t: Db, id: Id) {
    && (id !in s.db.jobs ==> exists a: Asked :: NewRow(s, l, t, id, a))
    && (id in s.db.jobs && id in t.jobs && t.jobs[id] != s.db.jobs[id] ==> OneRow(s, l, t, id))
  }

  lemma CausedByOne(s: State, l: Step, t: Db, id: Id, i: Id)
    requires OneRow(s, l, t, i) && id in t.jobs
    ensures Caused(s, l, t, id)
  {
  }

  lemma CausedByAsking(s: State, l: Step, t: Db, id: Id)
    requires t.jobs == s.db.jobs || exists i, a :: NewRow(s, l, t, i, a)
    requires id in t.jobs
    ensures Caused(s, l, t, id)
  {
  }

  /**
   * Whatever any part of the system does, a row appears only as somebody asked for it, and changes only by being
   * started, asked to stop, withdrawn, lost or ended, as above.
   */
  lemma EveryChangeHasACause(s: State, l: Step, id: Id)
    requires Inv(s) && Enabled(s, l) && id in Do(s, l).db.jobs
    ensures Caused(s, l, Do(s, l).db, id)
  {
    if l.Submit? || l.Retry? || l.QueueRun? {
      AskingMakes(s, l);
      CausedByAsking(s, l, Do(s, l).db, id);
    } else if l.Cancel? || l.Claim? || l.RecoverOne? || l.Finish? {
      var i := RowSteps(s, l);
      CausedByOne(s, l, Do(s, l).db, id, i);
    } else {
      RowsStay(s, l);
    }
  }

  /** What a row keeps for good from the moment it is made. */
  predicate SameRequest(a: Job, b: Job) {
    a.work == b.work && a.created == b.created && a.ready == b.ready && a.parent == b.parent
  }

  lemma ClosedKeeps(s: State, id: Id, outcome: JobState, code: Option<int>, job: Job, e: Event)
    requires id in s.db.jobs && Closed(s, id, outcome, code, job, e)
    ensures SameRequest(s.db.jobs[id], job) && job.started == s.db.jobs[id].started
  {
  }

  lemma ChangesKeepRequests(s: State, l: Step, id: Id, job: Job, e: Event)
    requires id in s.db.jobs && Changes(s, l, id, job, e)
    ensures SameRequest(s.db.jobs[id], job)
    ensures job.started != s.db.jobs[id].started ==> Starts(s, l, id, job, e)
    ensures s.db.jobs[id].state in {Queued, Running}
    ensures job.state !in {Queued, Running} ==>
              IsWithdrawn(s, l, id, job, e) || IsLost(s, l, id, job, e) || IsOver(s, l, id, job, e)
  {
    if IsLost(s, l, id, job, e) {
      ClosedKeeps(s, id, Interrupted, None, job, e);
    } else if IsOver(s, l, id, job, e) {
      var exit: Exit :| ExitOf(s.worker.looks, s.db.jobs[id].work.timeout, l.error, l.status, exit) &&
        Closed(s, id, exit.outcome, exit.code, job, e);
      ClosedKeeps(s, id, exit.outcome, exit.code, job, e);
    }
  }

  // ----- over whole runs -----------------------------------------------------------------------------

  /** The state in which the n-th step was taken, and the tables it left. */
  ghost predicate Taken(run: seq<Step>, n: nat)
  {
    Follows(INITIAL, run) && n < |run| && Follows(INITIAL, run[..n]) && Follows(INITIAL, run[..n + 1])
  }

  ghost function StateAt(run: seq<Step>, n: nat): State
    requires Taken(run, n)
  {
    After(INITIAL, run[..n])
  }

  ghost function TablesAfter(run: seq<Step>, n: nat): Db
    requires Taken(run, n)
  {
    After(INITIAL, run[..n + 1]).db
  }

  lemma LastIsTaken(run: seq<Step>)
    requires Follows(INITIAL, run) && run != []
    ensures var n := |run| - 1;
            && Taken(run, n) && StateAt(run, n) == After(INITIAL, run[..n]) && Inv(StateAt(run, n))
            && Enabled(StateAt(run, n), run[n])
            && TablesAfter(run, n) == After(INITIAL, run).db == Do(StateAt(run, n), run[n]).db
  {
    var n := |run| - 1;
    assert run[..n + 1] == run;
    InitiallySound();
    RunKeeps(INITIAL, run[..n]);
  }

  lemma EarlierIsTaken(run: seq<Step>, n: nat)
    requires Follows(INITIAL, run) && run != [] && Taken(run[..|run| - 1], n)
    ensures Taken(run, n) && run[n] == run[..|run| - 1][n]
    ensures StateAt(run, n) == StateAt(run[..|run| - 1], n) && TablesAfter(run, n) == TablesAfter(run[..|run| - 1], n)
  {
    assert run[..|run| - 1][..n] == run[..n] && run[..|run| - 1][..n + 1] == run[..n + 1];
  }

  /** One step further, a row is the same, or the step changed it. */
  lemma OneStepOn(run: seq<Step>, id: Id) returns (s: State, l: Step, t: Db)
    requires Follows(INITIAL, run) && id in After(INITIAL, run).db.jobs
    ensures run != [] && Taken(run, |run| - 1) && s == StateAt(run, |run| - 1) == After(INITIAL, run[..|run| - 1])
    ensures l == run[|run| - 1] && t == TablesAfter(run, |run| - 1) == After(INITIAL, run).db && s.db.events <= t.events
    ensures id in s.db.jobs && s.db.jobs[id] != t.jobs[id] ==>
              |t.events| == |s.db.events| + 1 && Changes(s, l, id, t.jobs[id], t.events[|s.db.events|])
    ensures id !in s.db.jobs ==> exists a: Asked :: NewRow(s, l, t, id, a)
  {
    LastIsTaken(run);
    s, l, t := StateAt(run, |run| - 1), run[|run| - 1], TablesAfter(run, |run| - 1);
    EveryChangeHasACause(s, l, id);
    StepEvolves(s, l);
  }

  ghost predicate MadeAt(run: seq<Step>, n: nat, id: Id, a: Asked, job: Job) {
    && Taken(run, n) && NewRow(StateAt(run, n), run[n], TablesAfter(run, n), id, a)
    && SameRequest(TablesAfter(run, n).jobs[id], job)
  }

  /**
   * Every job was asked for by one step of the run, and its row still says what was asked: what to run and where, when
   * it was made, that it is not ready before its delay has passed, and whose retry it is.
   */
  lemma {:induction false} EveryJobWasAskedFor(run: seq<Step>, id: Id) returns (n: nat, a: Asked)
    requires Follows(INITIAL, run) && id in After(INITIAL, run).db.jobs
    ensures MadeAt(run, n, id, a, After(INITIAL, run).db.jobs[id])
    decreases run
  {
    var m := |run| - 1;
    var s, l, t := OneStepOn(run, id);
    if id in s.db.jobs {
      n, a := EveryJobWasAskedFor(run[..m], id);
      EarlierIsTaken(run, n);
      if s.db.jobs[id] != t.jobs[id] {
        ChangesKeepRequests(s, l, id, t.jobs[id], t.events[|s.db.events|]);
      }
    } else {
      n := m;
      a :| NewRow(s, l, t, id, a);
    }
  }

  ghost predicate StartedAt(run: seq<Step>, n: nat, id: Id, job: Job) {
    && Taken(run, n) && id in StateAt(run, n).db.jobs && id in TablesAfter(run, n).jobs
    && |TablesAfter(run, n).events| > |StateAt(run, n).db.events|
    && Starts(StateAt(run, n), run[n], id, TablesAfter(run, n).jobs[id],
              TablesAfter(run, n).events[|StateAt(run, n).db.events|])
    && job.started == Some(StateAt(run, n).now) && job.ready <= StateAt(run, n).now
  }

  /** Every job that has been started was due then, and no job waiting then was to go before it. */
  lemma {:induction false} EveryStartWasDue(run: seq<Step>, id: Id) returns (n: nat)
    requires Follows(INITIAL, run) && id in After(INITIAL, run).db.jobs
    requires After(INITIAL, run).db.jobs[id].started.Some?
    ensures StartedAt(run, n, id, After(INITIAL, run).db.jobs[id])
    decreases run
  {
    var m := |run| - 1;
    var s, l, t := OneStepOn(run, id);
    if id in s.db.jobs && s.db.jobs[id] != t.jobs[id] {
      ChangesKeepRequests(s, l, id, t.jobs[id], t.events[|s.db.events|]);
    }
    if id in s.db.jobs && s.db.jobs[id].started == t.jobs[id].started {
      n := EveryStartWasDue(run[..m], id);
      EarlierIsTaken(run, n);
    } else {
      n := m;
    }
  }

  ghost predicate EndedAt(run: seq<Step>, n: nat, id: Id, db: Db) {
    && Taken(run, n) && id in StateAt(run, n).db.jobs && id in db.jobs
    && |StateAt(run, n).db.events| < |db.events|
    && var e := db.events[|StateAt(run, n).db.events|];
       || IsWithdrawn(StateAt(run, n), run[n], id, db.jobs[id], e)
       || IsLost(StateAt(run, n), run[n], id, db.jobs[id], e)
       || IsOver(StateAt(run, n), run[n], id, db.jobs[id], e)
  }

  /**
   * Every job that has ended was withdrawn, lost or brought to its end by one step of the run, and its row and event
   * still say what that step wrote: outcome, time, exit code and reason.
   */
  lemma {:induction false} EveryEndHasACause(run: seq<Step>, id: Id) returns (n: nat)
    requires Follows(INITIAL, run) && id in After(INITIAL, run).db.jobs
    requires After(INITIAL, run).db.jobs[id].state !in {Queued, Running}
    ensures EndedAt(run, n, id, After(INITIAL, run).db)
    decreases run
  {
    var m := |run| - 1;
    var s, l, t := OneStepOn(run, id);
    if id in s.db.jobs && s.db.jobs[id] != t.jobs[id] {
      ChangesKeepRequests(s, l, id, t.jobs[id], t.events[|s.db.events|]);
    }
    if id in s.db.jobs && s.db.jobs[id] == t.jobs[id] {
      n := EveryEndHasACause(run[..m], id);
      EarlierIsTaken(run, n);
    } else {
      n := m;
    }
  }
}
