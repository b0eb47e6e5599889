/**
 * One operator's queue with everybody who shares its database: the worker, the command line, timers, the notifier, and
 * crashes between any two transactions.
 */
module OperatorSystem {
  import opened Text
  import opened Tables
  import opened JobQueue
  import opened History
  import opened Scheduler
  import opened Progress
  import opened Execution
  import Notifier

  /** The holder of the worker lock. */
  datatype Worker = Down | Recovering(todo: seq<Id>) | Polling | Executing(job: Id, looks: seq<Look>)

  /** The holder of the task lock, between two transactions of one task command. */
  datatype Hold =
    | Free
    | Starting(name: Name, task: Task, scheduled: bool)
    | Testing(name: Name, task: Task)
    | Enabling(name: Name)
    | Removing(name: Name)

  /**
   * The whole state: `paths` is the directory that each path of the file system resolves to now, if it is one. Four
   * histories: `defs` is what each saved revision said, `fires` gives for each job queued by a timer the length of the
   * log at that moment, `dirs` for each linked run the directory its stored path resolved to when it was queued,
   * `ledger` what the worker saw of each job it finished.
   */
  datatype State = State(db: Db, now: real, worker: Worker, hold: Hold, note: Notifier.State,
                         paths: map<string, string>,
                         defs: map<Link, Work>, fires: map<Id, nat>, dirs: map<Id, string>, ledger: map<Id, seq<Look>>)

  const INITIAL := State(EMPTY, 0.0, Down, Free, Notifier.FRESH, map[], map[], map[], map[], map[])

  /** `at` is a clock reading made before the transaction; ids come from the environment. */
  datatype Step =
    | Tick(to: real)
    | Relink(paths: map<string, string>)
    | Submit(id: Id, q: Request, at: real)
    | Retry(id: Id, parent: Id, workspace: Option<string>, at: real)
    | Cancel(id: Id)
    | Review(target: Option<Id>, rows: seq<Id>)
    | WorkerStarts(rows: seq<Id>)
    | RecoverOne
    | Serve
    | Claim(id: Id)
    | Poll(look: Look)
    | Finish(error: Option<string>, status: Option<int>)
    | WorkerDies
    | SaveTask(name: Name, d: Definition, edit: bool)
    | BeginRun(name: Name, scheduled: bool)
    | QueueRun(id: Id, at: real)
    | BeginEnable(name: Name)
    | SetEnabled
    | TimerFails
    | BeginPause(name: Name, remove: bool)
    | Delete
    | Release
    | Notify(l: Notifier.Label)

  function RetryRequest(job: Job, parent: Id, workspace: Option<string>): Request {
    Request(job.work.kind, job.work.spec, workspace, job.work.timeout, 0, Some(parent))
  }

  /** The directory a stored path resolves to now. */
  function Resolved(paths: map<string, string>, path: string): Option<string> {
    if path in paths then Some(paths[path]) else None
  }

  function Ended(s: State, error: Option<string>, status: Option<int>): Exit
    requires s.worker.Executing? && s.worker.job in s.db.jobs && Ran(s.worker.looks, error)
  {
    Verdict(s.worker.looks, s.db.jobs[s.worker.job].work.timeout, error, status)
  }

  ghost predicate Enabled(s: State, l: Step) {
    match l
    case Tick(to) => s.now <= to
    // Directories come and go, and are replaced by links, at any time.
    case Relink(_) => true
    case Submit(id, q, at) => at <= s.now && Submitted(s.db, id, q, at).Ok?
    case Retry(id, parent, workspace, at) =>
      && at <= s.now && parent in s.db.jobs && s.db.jobs[parent].state.Terminal() &&
         s.db.jobs[parent].state != Succeeded
      && Submitted(s.db, id, RetryRequest(s.db.jobs[parent], parent, workspace), at).Ok?
    case Cancel(id) => CancelledJob(s.db, id, s.now).Ok?
    case Review(target, rows) =>
      && (target.Some? ==> target.value in s.db.jobs && s.db.jobs[target.value].state.Unsuccessful())
      && Lists(rows, OutstandingIds(s.db, target), s.db)
    case WorkerStarts(rows) => s.worker.Down? && Covers(rows, RunningIds(s.db))
    case RecoverOne => s.worker.Recovering? && s.worker.todo != [] && s.worker.todo[0] in s.db.jobs
    case Serve => s.worker.Recovering? && s.worker.todo == []
    case Claim(id) => s.worker.Polling? && IsNext(s.db, id, s.now)
    case Poll(look) =>
      && s.worker.Executing? && s.worker.job in s.db.jobs && FirstStop(s.worker.looks) == |s.worker.looks|
      && (look.requested <==> s.db.jobs[s.worker.job].cancelRequested)
    case Finish(error, status) => s.worker.Executing? && s.worker.job in s.db.jobs && Ran(s.worker.looks, error)
    case WorkerDies => true
    case SaveTask(name, d, edit) => s.hold.Free? && Saved(s.db, name, d, edit).Ok?
    case BeginRun(name, scheduled) =>
      s.hold.Free? && Got(s.db, name).Ok? && (scheduled ==> s.db.tasks[name].enabled)
    case QueueRun(id, at) =>
      && s.hold.Starting? && at <= s.now
      && Enqueued(s.db, s.hold.name, s.hold.task, id, Resolved(s.paths, s.hold.task.work.workspace), at).Ok?
    case BeginEnable(name) =>
      s.hold.Free? && Got(s.db, name).Ok? && Tested(s.db, Link(name, s.db.tasks[name].revision))
    case SetEnabled => s.hold.Testing? && s.hold.name in s.db.tasks
    case TimerFails => s.hold.Enabling? && s.hold.name in s.db.tasks
    case BeginPause(name, remove) => s.hold.Free? && Got(s.db, name).Ok?
    case Delete => s.hold.Removing? && s.hold.name in s.db.tasks
    // A task command that is done, gives up or is killed lets go of its lock.
    case Release => true
    case Notify(l) => Notifier.Enabled(s.note, l)
  }

  ghost function Do(s: State, l: Step): State
    requires Enabled(s, l)
  {
    match l
    case Tick(to) => s.(now := to)
    case Relink(paths) => s.(paths := paths)
    case Submit(id, q, at) => s.(db := Submitted(s.db, id, q, at).value)
    case Retry(id, parent, workspace, at) =>
      s.(db := Submitted(s.db, id, RetryRequest(s.db.jobs[parent], parent, workspace), at).value)
    case Cancel(id) => s.(db := CancelledJob(s.db, id, s.now).value)
    case Review(target, rows) => s.(db := AllAcknowledged(s.db, rows, s.now))
    case WorkerStarts(rows) => s.(worker := Recovering(rows))
    case RecoverOne =>
      s.(db := Finished(s.db, s.worker.todo[0], Interrupted, Some(WorkerLost), None, s.now).value,
         worker := Recovering(s.worker.todo[1..]))
    case Serve => s.(worker := Polling)
    case Claim(id) => s.(db := Claimed(s.db, id, s.now), worker := Executing(id, []))
    case Poll(look) => s.(worker := Executing(s.worker.job, s.worker.looks + [look]))
    case Finish(error, status) =>
      var exit := Ended(s, error, status);
      s.(db := Finished(s.db, s.worker.job, exit.outcome, exit.reason, exit.code, s.now).value,
         worker := Polling, ledger := s.ledger[s.worker.job := s.worker.looks])
    case WorkerDies => s.(worker := Down)
    case SaveTask(name, d, edit) =>
      var db := Saved(s.db, name, d, edit).value;
      s.(db := db, defs := s.defs[Link(name, db.tasks[name].revision) := d.work])
    case BeginRun(name, scheduled) => s.(hold := Starting(name, s.db.tasks[name], scheduled))
    case QueueRun(id, at) =>
      var path := s.hold.task.work.workspace;
      var (db, queued) := Enqueued(s.db, s.hold.name, s.hold.task, id, Resolved(s.paths, path), at).value;
      s.(db := db, hold := Free,
         fires := if s.hold.scheduled && queued.Some? then s.fires[id := |s.db.events|] else s.fires,
         dirs := if queued.Some? && path in s.paths then s.dirs[id := s.paths[path]] else s.dirs)
    case BeginEnable(name) => s.(hold := Testing(name, s.db.tasks[name]))
    case SetEnabled => s.(db := WithEnabled(s.db, s.hold.name, true), hold := Enabling(s.hold.name))
    case TimerFails => s.(db := WithEnabled(s.db, s.hold.name, false), hold := Free)
    case BeginPause(name, remove) =>
      s.(db := WithEnabled(s.db, name, false), hold := if remove then Removing(name) else Free)
    case Delete => s.(db := WithDeleted(s.db, s.hold.name), hold := Free)
    case Release => s.(hold := Free)
    case Notify(l) => s.(note := Notifier.Next(s.note, s.db.events, l))
  }

  // ----- the invariant ------------------------------------------------------------------

  /** At most one job runs, and the worker knows which. */
  ghost predicate WorkerSound(db: Db, worker: Worker) {
    && (forall a, b :: a in RunningIds(db) && b in RunningIds(db) ==> a == b)
    && (worker.Polling? ==> RunningIds(db) == {})
    && (worker.Recovering? ==> Covers(worker.todo, RunningIds(db)))
    && (worker.Executing? ==> worker.job in RunningIds(db))
    && (worker.Executing? && (exists i :: 0 <= i < |worker.looks| && worker.looks[i].requested) ==>
          db.jobs[worker.job].cancelRequested)
  }

  /** A job counts as succeeded only if the worker saw it end cleanly. */
  ghost predicate LedgerSound(db: Db, ledger: map<Id, seq<Look>>) {
    forall id :: id in db.jobs && db.jobs[id].state == Succeeded ==>
      id in ledger && exists k: nat :: EndsCleanly(ledger[id], k)
  }

  /** Every saved revision is on record, and every linked run asks for what its revision said. */
  ghost predicate DefinitionsKept(db: Db, defs: map<Link, Work>) {
    && (forall name :: name in db.tasks ==>
          Link(name, db.tasks[name].revision) in defs &&
              defs[Link(name, db.tasks[name].revision)] == db.tasks[name].work)
    && (forall l :: l in defs ==> l.task in db.tasks && l.revision <= db.tasks[l.task].revision)
    && (forall id :: id in db.links ==>
          id in db.jobs && db.links[id] in defs && Same(db.jobs[id].work, defs[db.links[id]]))
  }

  ghost predicate OneActive(db: Db) {
    forall a, b ::
      a in db.links && b in db.links && ActiveRun(db, db.links[a].task, a) && ActiveRun(db, db.links[a].task, b) ==>
      a == b
  }

  ghost predicate EnabledIsTested(db: Db) {
    forall name :: name in db.tasks && db.tasks[name].enabled ==>
      !db.tasks[name].deleted && Tested(db, Link(name, db.tasks[name].revision))
  }

  /** A run of the revision succeeded before event number n. */
  ghost predicate TestedBefore(db: Db, link: Link, n: nat) {
    exists t, i :: t in db.links && TestedBy(db, link, t) && 0 <= i < n && i < |db.events| && Ends(db.events[i], t)
  }

  /** Every job a timer queued follows a successful run of the same revision. */
  ghost predicate FiresSound(db: Db, fires: map<Id, nat>) {
    forall id :: id in fires ==>
      && id in db.links && fires[id] < |db.events|
      && db.events[fires[id]].job == id && db.events[fires[id]].mark == Became(Queued)
      && TestedBefore(db, db.links[id], fires[id])
  }

  ghost predicate HoldSound(db: Db, hold: Hold) {
    match hold
    case Free => true
    case Starting(name, task, scheduled) =>
      name in db.tasks && db.tasks[name] == task && !task.deleted && (scheduled ==> task.enabled)
    case Testing(name, task) => name in db.tasks && db.tasks[name] == task && !task.deleted &&
        Tested(db, Link(name, task.revision))
    case Enabling(name) => name in db.tasks
    case Removing(name) => name in db.tasks && !db.tasks[name].enabled
  }

  ghost predicate TasksSound(db: Db, defs: map<Link, Work>, fires: map<Id, nat>, hold: Hold) {
    DefinitionsKept(db, defs) && OneActive(db) && EnabledIsTested(db) && FiresSound(db, fires) && HoldSound(db, hold)
  }

  ghost predicate Inv(s: State) {
    && Sound(s.db) && WorkerSound(s.db, s.worker) && LedgerSound(s.db, s.ledger)
    && TasksSound(s.db, s.defs, s.fires, s.hold) && Notifier.Inv(s.note, s.db.events)
  }

  lemma InitiallySound()
    ensures Inv(INITIAL)
  {
    EmptyIsSound();
    Notifier.FreshIsSound([]);
  }

  // ----- transactions of the queue, seen from the scheduler ---------------------------------------

  lemma TestedBeforeStays(a: Db, b: Db, link: Link, n: nat)
    requires Evolves(a, b) && TestedBefore(a, link, n)
    ensures TestedBefore(b, link, n)
  {
    var t, i :| t in a.links && TestedBy(a, link, t) && 0 <= i < n && i < |a.events| && Ends(a.events[i], t);
    assert TestedBy(b, link, t) && b.events[i] == a.events[i];
  }

  lemma NoRunWakes(a: Db, b: Db)
    requires QueueStep(a, b) && OneActive(a) && forall id :: id in a.links ==> id in a.jobs
    ensures OneActive(b)
  {
    forall id, name | id in b.links && ActiveRun(b, name, id) ensures ActiveRun(a, name, id) {
      assert Keeps(a.jobs[id], b.jobs[id]);
    }
  }

  lemma TestsStay(a: Db, b: Db, fires: map<Id, nat>)
    requires Evolves(a, b) && a.tasks == b.tasks && a.links == b.links && EnabledIsTested(a) && FiresSound(a, fires)
    ensures EnabledIsTested(b) && FiresSound(b, fires)
  {
    forall name | name in b.tasks && b.tasks[name].enabled ensures Tested(b, Link(name, b.tasks[name].revision)) {
      TestedStays(a, b, Link(name, b.tasks[name].revision));
    }
    forall id | id in fires ensures TestedBefore(b, b.links[id], fires[id]) {
      TestedBeforeStays(a, b, b.links[id], fires[id]);
    }
  }

  lemma DefinitionsStay(a: Db, b: Db, defs: map<Link, Work>)
    requires QueueStep(a, b) && DefinitionsKept(a, defs)
    ensures DefinitionsKept(b, defs)
  {
    forall id | id in b.links ensures id in b.jobs && Same(b.jobs[id].work, defs[b.links[id]]) {
      assert Keeps(a.jobs[id], b.jobs[id]);
    }
  }

  /** A transaction of the queue disturbs nothing of the scheduler: it activates no run and undoes no test. */
  lemma QueueStepKeepsTasks(a: Db, b: Db, defs: map<Link, Work>, fires: map<Id, nat>, hold: Hold)
    requires QueueStep(a, b) && TasksSound(a, defs, fires, hold)
    ensures TasksSound(b, defs, fires, hold)
  {
    QueueStepEvolves(a, b);
    DefinitionsStay(a, b, defs);
    NoRunWakes(a, b);
    TestsStay(a, b, fires);
    if hold.Testing? {
      TestedStays(a, b, Link(hold.name, hold.task.revision));
    }
  }

  /** What every transaction of the queue shares; the worker's part is settled case by case. */
  lemma QueueStepKeeps(s: State, t: State)
    requires Inv(s) && QueueStep(s.db, t.db) && Sound(t.db)
    requires t.hold == s.hold && t.note == s.note && t.defs == s.defs && t.fires == s.fires
    requires WorkerSound(t.db, t.worker) && LedgerSound(t.db, t.ledger)
    ensures Inv(t)
  {
    QueueStepKeepsTasks(s.db, t.db, s.defs, s.fires, s.hold);
    Notifier.GrowthKeeps(s.note, s.db.events, t.db.events);
  }

  lemma SubmissionKeeps(s: State, t: State, id: Id, q: Request, at: real)
    requires Inv(s) && Submitted(s.db, id, q, at).Ok? && t == s.(db := Submitted(s.db, id, q, at).value)
    ensures Inv(t)
  {
    SubmitKeeps(s.db, id, q, at);
    SubmitSteps(s.db, id, q, at);
    assert RunningIds(t.db) == RunningIds(s.db);
    QueueStepKeeps(s, t);
  }

  lemma WithdrawalIsSound(db: Db, worker: Worker, ledger: map<Id, seq<Look>>, id: Id, now: real)
    requires WorkerSound(db, worker) && LedgerSound(db, ledger) && id in db.jobs && db.jobs[id].state == Queued
    ensures WorkerSound(Withdrawn(db, id, now), worker) && LedgerSound(Withdrawn(db, id, now), ledger)
  {
    assert RunningIds(Withdrawn(db, id, now)) == RunningIds(db);
  }

  lemma AskingIsSound(db: Db, worker: Worker, ledger: map<Id, seq<Look>>, id: Id, now: real)
    requires WorkerSound(db, worker) && LedgerSound(db, ledger) && id in db.jobs && db.jobs[id].state == Running
    ensures WorkerSound(AskedToStop(db, id, now), worker) && LedgerSound(AskedToStop(db, id, now), ledger)
  {
    assert RunningIds(AskedToStop(db, id, now)) == RunningIds(db);
  }

  lemma CancellationKeeps(s: State, t: State, id: Id)
    requires Inv(s) && CancelledJob(s.db, id, s.now).Ok? && t == s.(db := CancelledJob(s.db, id, s.now).value)
    ensures Inv(t)
  {
    CancelKeeps(s.db, id, s.now);
    CancelSteps(s.db, id, s.now);
    if s.db.jobs[id].state == Queued {
      WithdrawalIsSound(s.db, s.worker, s.ledger, id, s.now);
    } else {
      AskingIsSound(s.db, s.worker, s.ledger, id, s.now);
    }
    QueueStepKeeps(s, t);
  }

  lemma ListedIsReviewable(db: Db, target: Option<Id>, rows: seq<Id>)
    requires Lists(rows, OutstandingIds(db, target), db)
    ensures Reviewable(db, rows)
  {
    forall i | 0 <= i < |rows| ensures Outstanding(db, rows[i]) {
      assert rows[i] in OutstandingIds(db, target);
    }
  }

  lemma ReviewKeeps(s: State, t: State, target: Option<Id>, rows: seq<Id>)
    requires Inv(s) && Lists(rows, OutstandingIds(s.db, target), s.db) &&
             t == s.(db := AllAcknowledged(s.db, rows, s.now))
    ensures Inv(t)
  {
    ListedIsReviewable(s.db, target, rows);
    AllAcknowledgedKeeps(s.db, rows, s.now);
    ReviewSteps(s.db, rows, s.now);
    assert RunningIds(t.db) == RunningIds(s.db);
    QueueStepKeeps(s, t);
  }

  lemma ClaimingKeeps(s: State, t: State, id: Id)
    requires Inv(s) && s.worker.Polling? && IsNext(s.db, id, s.now)
    requires t == s.(db := Claimed(s.db, id, s.now), worker := Executing(id, []))
    ensures Inv(t)
  {
    ClaimKeeps(s.db, id, s.now);
    ClaimSteps(s.db, id, s.now);
    assert RunningIds(t.db) == {id};
    QueueStepKeeps(s, t);
  }

  lemma CoversRest(rows: seq<Id>, ids: set<Id>)
    requires rows != [] && Covers(rows, ids)
    ensures Covers(rows[1..], ids - {rows[0]})
  {
    forall id | id in ids - {rows[0]} ensures id in rows[1..] {
      var i :| 0 <= i < |rows| && rows[i] == id;
      assert rows[1..][i - 1] == id;
    }
  }

  lemma RecoveryIsSound(db: Db, todo: seq<Id>, ledger: map<Id, seq<Look>>, now: real)
    requires Sound(db) && todo != [] && WorkerSound(db, Recovering(todo)) && LedgerSound(db, ledger)
    ensures var r := Finished(db, todo[0], Interrupted, Some(WorkerLost), None, now);
            && r.Ok? && Sound(r.value) && QueueStep(db, r.value)
            && WorkerSound(r.value, Recovering(todo[1..])) && LedgerSound(r.value, ledger)
  {
    assert todo[0] in RunningIds(db);
    FinishKeeps(db, todo[0], Interrupted, Some(WorkerLost), None, now);
    FinishSteps(db, todo[0], Interrupted, Some(WorkerLost), None, now);
    assert RunningIds(Finished(db, todo[0], Interrupted, Some(WorkerLost), None, now).value) ==
           RunningIds(db) - {todo[0]};
    CoversRest(todo, RunningIds(db));
  }

  lemma RecoveryKeeps(s: State, t: State)
    requires Inv(s) && s.worker.Recovering? && s.worker.todo != [] && s.worker.todo[0] in s.db.jobs
    requires t == s.(db := Finished(s.db, s.worker.todo[0], Interrupted, Some(WorkerLost), None, s.now).value,
                     worker := Recovering(s.worker.todo[1..]))
    ensures Inv(t)
  {
    RecoveryIsSound(s.db, s.worker.todo, s.ledger, s.now);
    QueueStepKeeps(s, t);
  }

  lemma FinishedRunIsSound(db: Db, worker: Worker, ledger: map<Id, seq<Look>>, state: JobState, reason: Option<Note>,
                           code: Option<int>, now: real)
    requires Sound(db) && WorkerSound(db, worker) && LedgerSound(db, ledger) && worker.Executing? && state.Terminal()
    requires worker.job in db.jobs && (state == Cancelled ==> db.jobs[worker.job].cancelRequested)
    requires state == Succeeded ==> exists k: nat :: EndsCleanly(worker.looks, k)
    ensures var r := Finished(db, worker.job, state, reason, code, now);
            && r.Ok? && Sound(r.value) && QueueStep(db, r.value)
            && WorkerSound(r.value, Polling) && LedgerSound(r.value, ledger[worker.job := worker.looks])
  {
    assert worker.job in RunningIds(db);
    FinishKeeps(db, worker.job, state, reason, code, now);
    FinishSteps(db, worker.job, state, reason, code, now);
    var after := Finished(db, worker.job, state, reason, code, now).value;
    assert RunningIds(db) == {worker.job};
    forall id | id in after.jobs ensures after.jobs[id].state != Running {
      assert id in RunningIds(db) <==> id in db.jobs && db.jobs[id].state == Running;
    }
    assert RunningIds(after) == {};
    var book := ledger[worker.job := worker.looks];
    forall id | id in after.jobs && after.jobs[id].state == Succeeded
        ensures id in book && exists k: nat :: EndsCleanly(book[id], k) {
      if id != worker.job {
        assert db.jobs[id].state == Succeeded;
        var k: nat :| EndsCleanly(ledger[id], k);
        assert EndsCleanly(book[id], k);
      } else {
        var k: nat :| EndsCleanly(worker.looks, k);
        assert EndsCleanly(book[id], k);
      }
    }
  }

  lemma FinishingKeeps(s: State, t: State, error: Option<string>, status: Option<int>)
    requires Inv(s) && s.worker.Executing? && s.worker.job in s.db.jobs && Ran(s.worker.looks, error)
    requires var exit := Ended(s, error, status);
             t == s.(db := Finished(s.db, s.worker.job, exit.outcome, exit.reason, exit.code, s.now).value,
                     worker := Polling, ledger := s.ledger[s.worker.job := s.worker.looks])
    ensures Inv(t)
  {
    var exit := Ended(s, error, status);
    EndedIsJustified(s, error, status);
    FinishedRunIsSound(s.db, s.worker, s.ledger, exit.outcome, exit.reason, exit.code, s.now);
    QueueStepKeeps(s, t);
  }

  /** A run ends as cancelled only on record, and as succeeded only if it ended cleanly. */
  lemma EndedIsJustified(s: State, error: Option<string>, status: Option<int>)
    requires WorkerSound(s.db, s.worker) && s.worker.Executing? && s.worker.job in s.db.jobs &&
             Ran(s.worker.looks, error)
    ensures Ended(s, error, status).outcome.Terminal()
    ensures Ended(s, error, status).outcome == Cancelled ==> s.db.jobs[s.worker.job].cancelRequested
    ensures Ended(s, error, status).outcome == Succeeded ==> exists k: nat :: EndsCleanly(s.worker.looks, k)
  {
    var timeout := s.db.jobs[s.worker.job].work.timeout;
    SucceededIffClean(s.worker.looks, timeout, error, status);
    CancelledIffSeenFirst(s.worker.looks, timeout, error, status);
  }

  // ----- transactions of the scheduler --------------------------------------------------------

  lemma FiredElsewhere(a: Db, b: Db, fires: map<Id, nat>)
    requires b == a.(tasks := b.tasks) && FiresSound(a, fires)
    ensures FiresSound(b, fires)
  {
    forall id | id in fires ensures TestedBefore(b, b.links[id], fires[id]) {
      var k, i :| k in a.links && TestedBy(a, a.links[id], k) && 0 <= i < fires[id] && i < |a.events| &&
          Ends(a.events[i], k);
      assert TestedBy(b, b.links[id], k);
    }
  }

  /** A change to the tasks alone leaves log, links and jobs as they are. */
  lemma TasksOnly(s: State, t: State)
    requires Inv(s) && t.db == s.db.(tasks := t.db.tasks) && t.note == s.note && t.worker == s.worker
    requires t.ledger == s.ledger && t.fires == s.fires
    ensures Sound(t.db) && WorkerSound(t.db, t.worker) && LedgerSound(t.db, t.ledger) &&
            Notifier.Inv(t.note, t.db.events)
    ensures OneActive(t.db) && FiresSound(t.db, t.fires)
  {
    forall id: Id ensures Replay(t.db.events, id) == Stored(t.db, id) {
      assert Replay(s.db.events, id) == Stored(s.db, id);
    }
    assert RunningIds(t.db) == RunningIds(s.db);
    FiredElsewhere(s.db, t.db, s.fires);
    forall a, b | a in t.db.links && b in t.db.links && ActiveRun(t.db, t.db.links[a].task, a) &&
        ActiveRun(t.db, t.db.links[a].task, b)
      ensures a == b
    {
      assert ActiveRun(s.db, s.db.links[a].task, a) && ActiveRun(s.db, s.db.links[a].task, b);
    }
  }

  lemma TestedElsewhere(a: Db, b: Db, link: Link)
    requires b == a.(tasks := b.tasks) && Tested(a, link)
    ensures Tested(b, link)
  {
    var id :| id in a.links && TestedBy(a, link, id);
    assert TestedBy(b, link, id);
  }

  lemma SavedIsOnRecord(db: Db, defs: map<Link, Work>, name: Name, d: Definition, edit: bool)
    requires DefinitionsKept(db, defs) && Saved(db, name, d, edit).Ok?
    ensures var after := Saved(db, name, d, edit).value;
            && name in after.tasks && after == db.(tasks := db.tasks[name := after.tasks[name]])
            && !after.tasks[name].enabled && Link(name, after.tasks[name].revision) !in defs
            && DefinitionsKept(after, defs[Link(name, after.tasks[name].revision) := d.work])
  {
  }

  lemma SavingKeeps(s: State, t: State, name: Name, d: Definition, edit: bool)
    requires Inv(s) && s.hold.Free? && Saved(s.db, name, d, edit).Ok?
    requires t == s.(db := Saved(s.db, name, d, edit).value, defs := t.defs) && name in t.db.tasks
    requires t.defs == s.defs[Link(name, t.db.tasks[name].revision) := d.work]
    ensures Inv(t)
  {
    SavedIsOnRecord(s.db, s.defs, name, d, edit);
    TasksOnly(s, t);
    EnabledElsewhere(s.db, t.db, name);
  }

  /** Writing one task row that is paused, or is tested and not removed, keeps every enabled task tested. */
  lemma EnabledElsewhere(a: Db, b: Db, name: Name)
    requires EnabledIsTested(a) && name in b.tasks && b == a.(tasks := a.tasks[name := b.tasks[name]])
    requires b.tasks[name].enabled ==> !b.tasks[name].deleted && Tested(a, Link(name, b.tasks[name].revision))
    ensures EnabledIsTested(b)
  {
    forall n | n in b.tasks && b.tasks[n].enabled ensures !b.tasks[n].deleted &&
        Tested(b, Link(n, b.tasks[n].revision)) {
      TestedElsewhere(a, b, Link(n, b.tasks[n].revision));
    }
  }

  /** Only the switches of one task change. */
  predicate Switched(a: Db, b: Db, name: Name) {
    && name in a.tasks && name in b.tasks && b == a.(tasks := a.tasks[name := b.tasks[name]])
    && a.tasks[name].work == b.tasks[name].work && a.tasks[name].revision == b.tasks[name].revision
  }

  lemma SwitchingIsSound(s: State, t: State, name: Name)
    requires Inv(s) && Switched(s.db, t.db, name) && t == s.(db := t.db, hold := t.hold) && HoldSound(t.db, t.hold)
    requires t.db.tasks[name].enabled ==>
               !t.db.tasks[name].deleted && Tested(s.db, Link(name, t.db.tasks[name].revision))
    ensures Inv(t)
  {
    TasksOnly(s, t);
    EnabledElsewhere(s.db, t.db, name);
    DefinitionsSurviveSwitching(s.db, t.db, s.defs, name);
  }

  lemma DefinitionsSurviveSwitching(a: Db, b: Db, defs: map<Link, Work>, name: Name)
    requires DefinitionsKept(a, defs) && Switched(a, b, name)
    ensures DefinitionsKept(b, defs)
  {
  }

  lemma BeginningKeeps(s: State, t: State)
    requires Inv(s) && t == s.(hold := t.hold) && HoldSound(s.db, t.hold)
    ensures Inv(t)
  {
  }

  /** The terminal event of a successful run is in the log. */
  lemma TestedIsLogged(db: Db, link: Link)
    requires Sound(db) && Tested(db, link)
    ensures TestedBefore(db, link, |db.events|)
  {
    var t :| t in db.links && TestedBy(db, link, t);
    assert Replay(db.events, t) == Stored(db, t);
    HappensOnce(db.events, t);
    var i :| 0 <= i < |db.events| && Ends(db.events[i], t);
    assert Ends(db.events[i], t);
  }

  /**
   * Queueing a linked run: it follows the definition, is the task's only active run, and if a timer queued it was
   * tested.
   */
  lemma QueueingKeeps(s: State, t: State, id: Id, workspace: Option<string>, at: real)
    requires Inv(s) && s.hold.Starting? && !(exists k :: k in s.db.links && ActiveRun(s.db, s.hold.name, k))
    requires Submitted(s.db, id, RunRequest(s.hold.task, workspace), at).Ok?
    requires var mid := Submitted(s.db, id, RunRequest(s.hold.task, workspace), at).value;
             t == s.(db := mid.(links := mid.links[id := Link(s.hold.name, s.hold.task.revision)]), hold := Free,
                     dirs := t.dirs,
                     fires := if s.hold.scheduled then s.fires[id := |s.db.events|] else s.fires)
    ensures Inv(t)
  {
    var q := RunRequest(s.hold.task, workspace);
    var mid := Submitted(s.db, id, q, at).value;
    SubmissionKeeps(s, s.(db := mid), id, q, at);
    SubmitSteps(s.db, id, q, at);
    LinkingKeeps(s, s.(db := mid), t, id);
  }

  /** `b` is `a` with one job linked that was not there before. */
  predicate Linked(a: Db, b: Db, id: Id, link: Link) {
    id !in a.links && id in a.jobs && b == a.(links := a.links[id := link])
  }

  lemma LinkingKeepsLog(a: Db, b: Db, id: Id, link: Link, worker: Worker)
    requires Linked(a, b, id, link) && Sound(a) && WorkerSound(a, worker)
    ensures Sound(b) && WorkerSound(b, worker) && Evolves(a, b)
  {
    forall k: Id ensures Replay(b.events, k) == Stored(b, k) {
      assert Replay(a.events, k) == Stored(a, k);
    }
    assert RunningIds(b) == RunningIds(a);
  }

  lemma LinkingKeepsOneActive(a: Db, b: Db, id: Id, link: Link)
    requires Linked(a, b, id, link) && OneActive(a) && forall k :: k in a.links ==> !ActiveRun(a, link.task, k)
    ensures OneActive(b)
  {
    forall k, m | k in b.links && m in b.links && ActiveRun(b, b.links[k].task, k) && ActiveRun(b, b.links[k].task, m)
        ensures k == m {
      if k != id && m != id {
        assert ActiveRun(a, a.links[k].task, k) && ActiveRun(a, a.links[k].task, m);
      } else {
        var other := if k == id then m else k;
        assert other in a.links ==> !ActiveRun(a, link.task, other);
      }
    }
  }

  lemma LinkingKeepsTests(a: Db, b: Db, id: Id, link: Link)
    requires Linked(a, b, id, link) && Evolves(a, b) && EnabledIsTested(a)
    ensures EnabledIsTested(b)
  {
    forall n | n in b.tasks && b.tasks[n].enabled ensures Tested(b, Link(n, b.tasks[n].revision)) {
      TestedStays(a, b, Link(n, b.tasks[n].revision));
    }
  }

  lemma LinkingKeepsFires(a: Db, b: Db, id: Id, link: Link, fires: map<Id, nat>)
    requires Linked(a, b, id, link) && Evolves(a, b) && FiresSound(a, fires)
    ensures FiresSound(b, fires)
  {
    forall k | k in fires ensures TestedBefore(b, b.links[k], fires[k]) {
      TestedBeforeStays(a, b, a.links[k], fires[k]);
    }
  }

  lemma FiresThen(db: Db, fires: map<Id, nat>, id: Id, n: nat)
    requires FiresSound(db, fires) && id in db.links && n < |db.events|
    requires db.events[n].job == id && db.events[n].mark == Became(Queued) && TestedBefore(db, db.links[id], n)
    ensures FiresSound(db, fires[id := n])
  {
  }

  lemma TimerRunIsTested(a: Db, m: Db, b: Db, id: Id, link: Link, fires: map<Id, nat>)
    requires Sound(a) && Tested(a, link) && Evolves(a, m) && Linked(m, b, id, link) && Evolves(m, b) &&
             FiresSound(b, fires)
    requires |m.events| == |a.events| + 1 && m.events[|a.events|].job == id &&
             m.events[|a.events|].mark == Became(Queued)
    ensures FiresSound(b, fires[id := |a.events|])
  {
    TestedIsLogged(a, link);
    EvolvesOnwards(a, m, b);
    TestedBeforeStays(a, b, link, |a.events|);
    FiresThen(b, fires, id, |a.events|);
  }

  lemma LinkingKeepsDefinitions(a: Db, b: Db, id: Id, link: Link, defs: map<Link, Work>)
    requires Linked(a, b, id, link) && DefinitionsKept(a, defs) && link in defs && Same(a.jobs[id].work, defs[link])
    ensures DefinitionsKept(b, defs)
  {
  }

  lemma LinkingKeeps(s: State, m: State, t: State, id: Id)
    requires Inv(s) && Inv(m) && m == s.(db := m.db) && QueueStep(s.db, m.db) && s.hold.Starting? && id !in s.db.jobs
    requires Linked(m.db, t.db, id, Link(s.hold.name, s.hold.task.revision)) &&
             Same(m.db.jobs[id].work, s.hold.task.work)
    requires !exists k :: k in s.db.links && ActiveRun(s.db, s.hold.name, k)
    requires |m.db.events| == |s.db.events| + 1
    requires m.db.events[|s.db.events|].job == id && m.db.events[|s.db.events|].mark == Became(Queued)
    requires t == m.(db := t.db, hold := Free, dirs := t.dirs, fires := if s.hold.scheduled
                     then s.fires[id := |s.db.events|] else s.fires)
    ensures Inv(t)
  {
    var link := Link(s.hold.name, s.hold.task.revision);
    LinkingKeepsLog(m.db, t.db, id, link, m.worker);
    LinkingKeepsDefinitions(m.db, t.db, id, link, s.defs);
    NoneActive(s.db, m.db, s.hold.name);
    LinkingKeepsOneActive(m.db, t.db, id, link);
    LinkingKeepsTests(m.db, t.db, id, link);
    LinkingKeepsFires(m.db, t.db, id, link, s.fires);
    if s.hold.scheduled {
      QueueStepEvolves(s.db, m.db);
      TimerRunIsTested(s.db, m.db, t.db, id, link, s.fires);
    }
    assert LedgerSound(t.db, t.ledger);
  }

  lemma NoneActive(a: Db, b: Db, name: Name)
    requires QueueStep(a, b) && (forall k :: k in a.links ==> k in a.jobs && !ActiveRun(a, name, k))
    ensures forall k :: k in b.links ==> !ActiveRun(b, name, k)
  {
    forall k | k in b.links ensures !ActiveRun(b, name, k) {
      assert Keeps(a.jobs[k], b.jobs[k]);
      assert !ActiveRun(a, name, k);
    }
  }

  // ----- every step ----------------------------------------------------------------------------

  lemma RowsHaveNone(rows: seq<Id>, ids: set<Id>)
    requires Covers(rows, ids) && rows == []
    ensures ids == {}
  {
  }

  /** The worker's own state may change with the database as it is. */
  lemma WorkerMovesKeep(s: State, l: Step)
    requires Inv(s) && Enabled(s, l) && (l.Tick? || l.Relink? || l.WorkerStarts? || l.Serve? || l.Poll? ||
                                         l.WorkerDies?)
    ensures Inv(Do(s, l))
  {
    if l.Serve? {
      RowsHaveNone(s.worker.todo, RunningIds(s.db));
    }
  }

  lemma OperatorStepsKeep(s: State, l: Step)
    requires Inv(s) && Enabled(s, l) && (l.Submit? || l.Retry? || l.Cancel? || l.Review?)
    ensures Inv(Do(s, l))
  {
    match l
    case Submit(id, q, at) => SubmissionKeeps(s, Do(s, l), id, q, at);
    case Retry(id, parent, workspace, at) =>
      SubmissionKeeps(s, Do(s, l), id, RetryRequest(s.db.jobs[parent], parent, workspace), at);
    case Cancel(id) => CancellationKeeps(s, Do(s, l), id);
    case Review(target, rows) => ReviewKeeps(s, Do(s, l), target, rows);
  }

  lemma WorkerStepsKeep(s: State, l: Step)
    requires Inv(s) && Enabled(s, l) && (l.RecoverOne? || l.Claim? || l.Finish?)
    ensures Inv(Do(s, l))
  {
    match l
    case RecoverOne => RecoveryKeeps(s, Do(s, l));
    case Claim(id) => ClaimingKeeps(s, Do(s, l), id);
    case Finish(error, status) => FinishingKeeps(s, Do(s, l), error, status);
  }

  lemma SwitchStepsKeep(s: State, l: Step)
    requires Inv(s) && Enabled(s, l) && (l.SetEnabled? || l.TimerFails? || l.BeginPause? || l.Delete?)
    ensures Inv(Do(s, l))
  {
    SwitchingIsSound(s, Do(s, l), if l.BeginPause? then l.name else s.hold.name);
  }

  lemma RunStepKeeps(s: State, l: Step)
    requires Inv(s) && Enabled(s, l) && l.QueueRun?
    ensures Inv(Do(s, l))
  {
    if exists k :: k in s.db.links && ActiveRun(s.db, s.hold.name, k) {
      BeginningKeeps(s, Do(s, l));
    } else {
      QueueingKeeps(s, Do(s, l), l.id, Resolved(s.paths, s.hold.task.work.workspace), l.at);
    }
  }

  lemma TaskStepsKeep(s: State, l: Step)
    requires Inv(s) && Enabled(s, l) && (l.SaveTask? || l.BeginRun? || l.BeginEnable? || l.Release?)
    ensures Inv(Do(s, l))
  {
    if l.SaveTask? {
      SavedIsOnRecord(s.db, s.defs, l.name, l.d, l.edit);
      SavingKeeps(s, Do(s, l), l.name, l.d, l.edit);
    } else {
      BeginningKeeps(s, Do(s, l));
    }
  }

  /** The invariant of the whole system survives every step. */
  lemma StepKeeps(s: State, l: Step)
    requires Inv(s) && Enabled(s, l)
    ensures Inv(Do(s, l))
  {
    if l.Submit? || l.Retry? || l.Cancel? || l.Review? {
      OperatorStepsKeep(s, l);
    } else if l.RecoverOne? || l.Claim? || l.Finish? {
      WorkerStepsKeep(s, l);
    } else if l.SetEnabled? || l.TimerFails? || l.BeginPause? || l.Delete? {
      SwitchStepsKeep(s, l);
    } else if l.Notify? {
      Notifier.StepKeeps(s.note, s.db.events, l.l);
    } else if l.QueueRun? {
      RunStepKeeps(s, l);
    } else if l.SaveTask? || l.BeginRun? || l.BeginEnable? || l.Release? {
      TaskStepsKeep(s, l);
    } else {
      WorkerMovesKeep(s, l);
    }
  }

  // ----- whole runs -----------------------------------------------------------------------------

  /** Each step is possible where the ones before it lead. */
  ghost predicate Follows(s: State, run: seq<Step>)
    decreases |run|, 0
  {
    run == [] || (Follows(s, run[..|run| - 1]) && Enabled(After(s, run[..|run| - 1]), run[|run| - 1]))
  }

  ghost function After(s: State, run: seq<Step>): State
    requires Follows(s, run)
    decreases |run|, 1
  {
    if run == [] then s else Do(After(s, run[..|run| - 1]), run[|run| - 1])
  }

  lemma {:induction false} RunKeeps(s: State, run: seq<Step>)
    requires Inv(s) && Follows(s, run)
    ensures Inv(After(s, run))
    decreases run
  {
    if run != [] {
      RunKeeps(s, run[..|run| - 1]);
      StepKeeps(After(s, run[..|run| - 1]), run[|run| - 1]);
    }
  }
}
