/** Revisioned schedules on top of the queue (tasks.py). */
module Scheduler {
  import opened Text
  import opened Tables
  import opened JobQueue

  datatype TaskFault =
    | BadName | UnknownTask | NameTaken | MustPause | NotReady | NotTested | UnitFailure | Refused(fault: Fault)

  datatype Definition = Definition(calendar: string, catchUp: bool, work: Work)

  predicate NameChar(c: char) {
    'a' <= c <= 'z' || '0' <= c <= '9'
  }

  predicate ValidName(name: Name) {
    && 1 <= |name| <= 48 && NameChar(name[0])
    && forall i :: 0 < i < |name| ==> NameChar(name[i]) || name[i] == '-'
  }

  function Got(db: Db, name: Name): Result<Task, TaskFault> {
    if !ValidName(name) then Err(BadName)
    else if name !in db.tasks || db.tasks[name].deleted then Err(UnknownTask)
    else Ok(db.tasks[name])
  }

  // ----- saving a definition -----------------------------------------------------

  /**
   * A new name starts paused at revision 1; a removed name stays taken; an edit needs a paused task and a new revision.
   */
  function Saved(db: Db, name: Name, d: Definition, edit: bool): Result<Db, TaskFault> {
    if !ValidName(name) then Err(BadName)
    else if !edit then
      if name in db.tasks then Err(NameTaken)
      else Ok(db.(tasks := db.tasks[name := Task(d.calendar, d.catchUp, d.work, false, 1, false)]))
    else if Got(db, name).Err? then Err(Got(db, name).error)
    else
      var task := db.tasks[name];
      if task.enabled then Err(MustPause)
      else Ok(db.(tasks := db.tasks[name := task.(calendar := d.calendar, catchUp := d.catchUp, work := d.work,
                                                  revision := task.revision + 1)]))
  }

  method Save(db: Database, name: Name, d: Definition, edit: bool) returns (fault: Option<TaskFault>)
    modifies db`tasks
    ensures match Saved(old(db.View()), name, d, edit)
            case Err(e) => fault == Some(e) && db.View() == old(db.View())
            case Ok(after) => fault.None? && db.View() == after
  {
    if !ValidName(name) {
      return Some(BadName);
    }
    if edit {
      if name !in db.tasks || db.tasks[name].deleted {
        return Some(UnknownTask);
      }
      var task := db.tasks[name];
      if task.enabled {
        return Some(MustPause);
      }
      db.tasks := db.tasks[name := task.(calendar := d.calendar, catchUp := d.catchUp, work := d.work,
                                         revision := task.revision + 1)];
    } else {
      if name in db.tasks {
        return Some(NameTaken);
      }
      db.tasks := db.tasks[name := Task(d.calendar, d.catchUp, d.work, false, 1, false)];
    }
    fault := None;
  }

  // ----- queueing a run -------------------------------------------------------------

  /** A linked run of the task that is queued or running. */
  predicate ActiveRun(db: Db, name: Name, id: Id) {
    id in db.links && id in db.jobs && db.links[id].task == name && db.jobs[id].state.Active()
  }

  /** The directory is resolved again now; `workspace` is what it resolves to, if it still is a directory. */
  function RunRequest(task: Task, workspace: Option<string>): Request {
    Request(task.work.kind, task.work.spec, workspace, task.work.timeout, 0, None)
  }

  /** The transaction of `enqueue`: none if a run is still active, else one queued job linked to the revision. */
  function Enqueued(db: Db, name: Name, task: Task, id: Id, workspace: Option<string>,
                    now: real): Result<(Db, Option<Id>), TaskFault> {
    if exists k :: k in db.links && ActiveRun(db, name, k) then Ok((db, None))
    else
      match Submitted(db, id, RunRequest(task, workspace), now)
      case Err(e) => Err(Refused(e))
      case Ok(next) => Ok((next.(links := next.links[id := Link(name, task.revision)]), Some(id)))
  }

  /** What a manual run or a firing does to the database, and what it answers. */
  function EnqueueResult(db: Db, name: Name, scheduled: bool, ready: bool, id: Id, workspace: Option<string>,
                         now: real):
    (Db, Result<Option<Id>, TaskFault>)
  {
    match Got(db, name)
    case Err(e) => (db, Err(e))
    case Ok(task) =>
      if scheduled && !task.enabled then (db, Ok(None))
      else if !ready then (db, Err(NotReady))
      else match Enqueued(db, name, task, id, workspace, now)
        case Err(e) => (db, Err(e))
        case Ok((after, queued)) => (after, Ok(queued))
  }

  /** A manual run, or a timer firing (`scheduled`), which does nothing while the task is paused. */
  method Enqueue(db: Database, name: Name, scheduled: bool, ready: bool, id: Id, workspace: Option<string>, now: real)
    returns (r: Result<Option<Id>, TaskFault>)
    modifies db`jobs, db`events, db`links
    ensures (db.View(), r) == EnqueueResult(old(db.View()), name, scheduled, ready, id, workspace, now)
  {
    if !ValidName(name) {
      return Err(BadName);
    }
    if name !in db.tasks || db.tasks[name].deleted {
      return Err(UnknownTask);
    }
    var task := db.tasks[name];
    if scheduled && !task.enabled {
      return Ok(None);
    }
    if !ready {
      return Err(NotReady);
    }
    if exists k :: k in db.links && ActiveRun(db.View(), name, k) {
      return Ok(None);
    }
    var fault := db.Submit(id, RunRequest(task, workspace), now);
    if fault.Some? {
      return Err(Refused(fault.value));
    }
    db.links := db.links[id := Link(name, task.revision)];
    r := Ok(Some(id));
  }

  // ----- enabling, pausing, removing ------------------------------------------------------

  /** A linked run of exactly this revision has succeeded. */
  predicate TestedBy(db: Db, link: Link, id: Id) {
    id in db.links && id in db.jobs && db.links[id] == link && db.jobs[id].state == Succeeded
  }

  predicate Tested(db: Db, link: Link) {
    exists id :: id in db.links && TestedBy(db, link, id)
  }

  function WithEnabled(db: Db, name: Name, flag: bool): Db
    requires name in db.tasks
  {
    db.(tasks := db.tasks[name := db.tasks[name].(enabled := flag)])
  }

  function WithDeleted(db: Db, name: Name): Db
    requires name in db.tasks
  {
    db.(tasks := db.tasks[name := db.tasks[name].(deleted := true)])
  }

  /** Only a tested revision is enabled; if its timer does not start, it is disabled again. */
  function EnableResult(db: Db, name: Name, ready: bool, units: bool, timer: bool): (Db, Option<TaskFault>) {
    match Got(db, name)
    case Err(e) => (db, Some(e))
    case Ok(task) =>
      if !ready then (db, Some(NotReady))
      else if !Tested(db, Link(name, task.revision)) then (db, Some(NotTested))
      else if !units then (db, Some(UnitFailure))
      else (WithEnabled(db, name, timer), if timer then None else Some(UnitFailure))
  }

  /** Disabled first, removed only once the timer is stopped. */
  function PauseResult(db: Db, name: Name, remove: bool, owned: bool, timer: bool): (Db, Option<TaskFault>) {
    match Got(db, name)
    case Err(e) => (db, Some(e))
    case Ok(task) =>
      if !owned then (db, Some(UnitFailure))
      else if !timer then (WithEnabled(db, name, false), Some(UnitFailure))
      else (if remove then WithDeleted(WithEnabled(db, name, false), name) else WithEnabled(db, name, false), None)
  }

  /** `units` says whether the unit files could be written and loaded, `timer` whether the timer could be started. */
  method Enable(db: Database, name: Name, ready: bool, units: bool, timer: bool) returns (fault: Option<TaskFault>)
    modifies db`tasks
    ensures (db.View(), fault) == EnableResult(old(db.View()), name, ready, units, timer)
  {
    if !ValidName(name) {
      return Some(BadName);
    }
    if name !in db.tasks || db.tasks[name].deleted {
      return Some(UnknownTask);
    }
    if !ready {
      return Some(NotReady);
    }
    if !(exists id :: id in db.links && TestedBy(db.View(), Link(name, db.tasks[name].revision), id)) {
      return Some(NotTested);
    }
    if !units {
      return Some(UnitFailure);
    }
    db.tasks := db.tasks[name := db.tasks[name].(enabled := true)];
    if !timer {
      db.tasks := db.tasks[name := db.tasks[name].(enabled := false)];
      assert db.tasks == old(db.tasks)[name := old(db.tasks)[name].(enabled := false)];
      return Some(UnitFailure);
    }
    fault := None;
  }

  /** `owned` says whether the unit files are ours to touch, `timer` whether the timer could be stopped and unloaded. */
  method Pause(db: Database, name: Name, remove: bool, owned: bool, timer: bool) returns (fault: Option<TaskFault>)
    modifies db`tasks
    ensures (db.View(), fault) == PauseResult(old(db.View()), name, remove, owned, timer)
  {
    if !ValidName(name) {
      return Some(BadName);
    }
    if name !in db.tasks || db.tasks[name].deleted {
      return Some(UnknownTask);
    }
    if !owned {
      return Some(UnitFailure);
    }
    db.tasks := db.tasks[name := db.tasks[name].(enabled := false)];
    if !timer {
      return Some(UnitFailure);
    }
    if remove {
      db.tasks := db.tasks[name := db.tasks[name].(deleted := true)];
    }
    fault := None;
  }

  // ----- what a queued run has of its task -----------------------------------------------------

  /** The same kind, specification and timeout; the directory is resolved separately for every run. */
  predicate Same(a: Work, b: Work) {
    a.kind == b.kind && a.spec == b.spec && a.timeout == b.timeout
  }
}
