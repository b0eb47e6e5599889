/** The durable queue of jobs.py: each transaction as a function of the tables, and the object that runs them. */
module JobQueue {
  import opened Text
  import opened Tables

  datatype Fault = BadWorkspace | BadRange | DuplicateId | UnknownJob | AlreadyFinished | NotReviewable

  function Logged(db: Db, id: Id, at: real, mark: Mark, detail: Option<Note>): Db {
    db.(events := db.events + [Event(id, at, mark, detail)])
  }

  // ----- submit, finish, cancel ------------------------------------------------

  /** A request to run something; `workspace` is the resolved directory, or none if it is not one. */
  datatype Request = Request(kind: string, spec: string, workspace: Option<string>, timeout: int, delay: int,
                             parent: Option<Id>)

  function NewJob(q: Request, now: real): Job
    requires q.workspace.Some?
  {
    Job(Work(q.kind, q.spec, q.workspace.value, q.timeout), Queued, now, now + q.delay as real,
        None, None, None, None, false, q.parent)
  }

  function Submitted(db: Db, id: Id, q: Request, now: real): Result<Db, Fault> {
    if q.workspace.None? then Err(BadWorkspace)
    else if !(1 <= q.timeout <= 604800 && 0 <= q.delay <= 31536000) then Err(BadRange)
    else if id in db.jobs then Err(DuplicateId)
    else
      var detail := if q.parent.Some? then Some(RetryOf(q.parent.value)) else None;
      Ok(Logged(db.(jobs := db.jobs[id := NewJob(q, now)]), id, now, Became(Queued), detail))
  }

  /** A pending cancellation overrides the outcome; a finished job is left alone. */
  function Finished(db: Db, id: Id, state: JobState, reason: Option<Note>, code: Option<int>,
                    now: real): Result<Db, Fault> {
    if id !in db.jobs then Err(UnknownJob)
    else
      var job := db.jobs[id];
      if job.state.Terminal() then Ok(db)
      else
        var outcome := if job.cancelRequested then Cancelled else state;
        var why := if job.cancelRequested then Some(ByOperator) else reason;
        Ok(Logged(db.(jobs := db.jobs[id := job.(state := outcome, finished := Some(now), exitCode := code,
                                                 reason := why)]),
                  id, now, Became(outcome), why))
  }

  /** A queued job is cancelled on the spot, a running one asked to stop. */
  function Withdrawn(db: Db, id: Id, now: real): Db
    requires id in db.jobs
  {
    Logged(db.(jobs := db.jobs[id := db.jobs[id].(state := Cancelled, finished := Some(now),
                                                  reason := Some(BeforeExecution))]),
           id, now, Became(Cancelled), Some(BeforeExecution))
  }

  function AskedToStop(db: Db, id: Id, now: real): Db
    requires id in db.jobs
  {
    Logged(db.(jobs := db.jobs[id := db.jobs[id].(cancelRequested := true)]), id, now, CancelAsked, None)
  }

  function CancelledJob(db: Db, id: Id, now: real): Result<Db, Fault> {
    if id !in db.jobs then Err(UnknownJob)
    else if db.jobs[id].state.Terminal() then Err(AlreadyFinished)
    else if db.jobs[id].state == Queued then Ok(Withdrawn(db, id, now))
    else Ok(AskedToStop(db, id, now))
  }

  // ----- claim -------------------------------------------------------------------

  /** The order of the queue: by readiness, then by creation. */
  predicate Before(a: Job, b: Job) {
    a.ready < b.ready || (a.ready == b.ready && a.created < b.created)
  }

  predicate Waiting(db: Db, id: Id, now: real) {
    id in db.jobs && db.jobs[id].state == Queued && db.jobs[id].ready <= now
  }

  /** `id` is a first ready job; exact ties may be broken either way. */
  predicate IsNext(db: Db, id: Id, now: real) {
    Waiting(db, id, now) && forall k :: k in db.jobs && Waiting(db, k, now) ==> !Before(db.jobs[k], db.jobs[id])
  }

  function Claimed(db: Db, id: Id, now: real): Db
    requires id in db.jobs
  {
    Logged(db.(jobs := db.jobs[id := db.jobs[id].(state := Running, started := Some(now))]), id, now, Became(Running),
           None)
  }

  // ----- acknowledge ---------------------------------------------------------------

  predicate Outstanding(db: Db, id: Id) {
    && id in db.jobs && db.jobs[id].state.Unsuccessful()
    && !(id in db.acks && db.acks[id].state == db.jobs[id].state)
  }

  function OutstandingIds(db: Db, target: Option<Id>): set<Id> {
    set id | id in db.jobs && Outstanding(db, id) && (target.None? || target.value == id)
  }

  function Acknowledged(db: Db, id: Id, now: real): Db
    requires id in db.jobs
  {
    Logged(db.(acks := db.acks[id := Ack(db.jobs[id].state, now)]), id, now, Reviewed,
           Some(OutcomeReviewed(db.jobs[id].state)))
  }

  function AllAcknowledged(db: Db, rows: seq<Id>, now: real): Db
    requires forall i :: 0 <= i < |rows| ==> rows[i] in db.jobs
    decreases rows
  {
    if rows == [] then db else AllAcknowledged(Acknowledged(db, rows[0], now), rows[1..], now)
  }

  /** The rows of a query without `ORDER BY`: each id once. */
  predicate Covers(rows: seq<Id>, ids: set<Id>) {
    && (forall i :: 0 <= i < |rows| ==> rows[i] in ids)
    && (forall id :: id in ids ==> id in rows)
    && (forall i, j :: 0 <= i < j < |rows| ==> rows[i] != rows[j])
  }

  /** The order of texts, character by character. */
  predicate TextBefore(a: string, b: string)
    decreases |a|
  {
    b != "" && (a == "" || a[0] < b[0] || (a[0] == b[0] && TextBefore(a[1..], b[1..])))
  }

  lemma {:induction false} TextOrderIsTotal(a: string, b: string)
    ensures a == b || TextBefore(a, b) || TextBefore(b, a)
    decreases |a|
  {
    if a != "" && b != "" && a[0] == b[0] {
      TextOrderIsTotal(a[1..], b[1..]);
      assert a == [a[0]] + a[1..] && b == [b[0]] + b[1..];
    }
  }

  lemma {:induction false} TextOrderIsTransitive(a: string, b: string, c: string)
    requires TextBefore(a, b) && TextBefore(b, c)
    ensures TextBefore(a, c)
    decreases |a|
  {
    if a != "" && a[0] == b[0] == c[0] {
      TextOrderIsTransitive(a[1..], b[1..], c[1..]);
    }
  }

  /** The order `created, id`. */
  predicate Earlier(jobs: map<Id, Job>, a: Id, b: Id)
    requires a in jobs && b in jobs
  {
    jobs[a].created < jobs[b].created || (jobs[a].created == jobs[b].created && TextBefore(a, b))
  }

  lemma EarlierIsTotal(jobs: map<Id, Job>, a: Id, b: Id)
    requires a in jobs && b in jobs
    ensures a == b || Earlier(jobs, a, b) || Earlier(jobs, b, a)
  {
    TextOrderIsTotal(a, b);
  }

  lemma EarlierIsTransitive(jobs: map<Id, Job>, a: Id, b: Id, c: Id)
    requires a in jobs && b in jobs && c in jobs && Earlier(jobs, a, b) && Earlier(jobs, b, c)
    ensures Earlier(jobs, a, c)
  {
    if TextBefore(a, b) && TextBefore(b, c) {
      TextOrderIsTransitive(a, b, c);
    }
  }

  /** The rows of a query that says `ORDER BY created, id`. */
  predicate Lists(rows: seq<Id>, ids: set<Id>, db: Db) {
    && Covers(rows, ids) && (forall i :: 0 <= i < |rows| ==> rows[i] in db.jobs)
    && (forall i, j :: 0 <= i < j < |rows| ==> Earlier(db.jobs, rows[i], rows[j]))
  }

  // ----- recover ---------------------------------------------------------------------

  function RunningIds(db: Db): set<Id> {
    set id | id in db.jobs && db.jobs[id].state == Running
  }

  function Recovered(db: Db, rows: seq<Id>, now: real): Db
    requires forall i :: 0 <= i < |rows| ==> rows[i] in db.jobs
    decreases rows
  {
    if rows == [] then db
    else
      var next := Finished(db, rows[0], Interrupted, Some(WorkerLost), None, now).value;
      Recovered(next, rows[1..], now)
  }

  // ----- snapshot ----------------------------------------------------------------------

  function IdsIn(db: Db, state: JobState): set<Id> {
    set id | id in db.jobs && db.jobs[id].state == state
  }

  /** The number of jobs in a state, and of those the ones that still need review. */
  function Count(db: Db, state: JobState): nat {
    |IdsIn(db, state)|
  }

  function AttentionIn(db: Db, state: JobState): set<Id> {
    set id | id in db.jobs && db.jobs[id].state == state && Outstanding(db, id)
  }

  function Attention(db: Db, state: JobState): nat {
    |AttentionIn(db, state)|
  }

  // ----- restored copies (prepare_queue in backup.py) ---------------------------------------

  function PendingIds(db: Db): set<Id> {
    set id | id in db.jobs && db.jobs[id].state.Active()
  }

  function Quarantined(db: Db, id: Id, now: real): Db
    requires id in db.jobs
  {
    var job := db.jobs[id];
    var why := Some(RestoredFrom(job.state));
    Logged(db.(jobs := db.jobs[id := job.(state := Interrupted, finished := Some(now), reason := why,
                                          cancelRequested := false)]),
           id, now, Became(Interrupted), why)
  }

  function AllQuarantined(db: Db, rows: seq<Id>, now: real): Db
    requires forall i :: 0 <= i < |rows| ==> rows[i] in db.jobs
    decreases rows
  {
    if rows == [] then db else AllQuarantined(Quarantined(db, rows[0], now), rows[1..], now)
  }

  function Disabled(db: Db): Db {
    db.(tasks := map name | name in db.tasks :: db.tasks[name].(enabled := false))
  }

  // ----- the database object -------------------------------------------------------------------

  /** The open database; every method is one transaction, undone when it refuses. */
  class Database {
    var jobs: map<Id, Job>
    var events: seq<Event>
    var acks: map<Id, Ack>
    var tasks: map<Name, Task>
    var links: map<Id, Link>

    constructor ()
      ensures View() == EMPTY
    {
      jobs, events, acks, tasks, links := map[], [], map[], map[], map[];
    }

    function View(): Db
      reads this
    {
      Db(jobs, events, acks, tasks, links)
    }

    method Record(id: Id, at: real, mark: Mark, detail: Option<Note>)
      modifies this`events
      ensures View() == Logged(old(View()), id, at, mark, detail)
    {
      events := events + [Event(id, at, mark, detail)];
    }

    method Submit(id: Id, q: Request, now: real) returns (fault: Option<Fault>)
      modifies this`jobs, this`events
      ensures match Submitted(old(View()), id, q, now)
              case Err(e) => fault == Some(e) && View() == old(View())
              case Ok(db) => fault.None? && View() == db
    {
      if q.workspace.None? {
        return Some(BadWorkspace);
      }
      if !(1 <= q.timeout <= 604800 && 0 <= q.delay <= 31536000) {
        return Some(BadRange);
      }
      if id in jobs {
        return Some(DuplicateId);
      }
      jobs := jobs[id := NewJob(q, now)];
      Record(id, now, Became(Queued), if q.parent.Some? then Some(RetryOf(q.parent.value)) else None);
      fault := None;
    }

    method Finish(id: Id, state: JobState, reason: Option<Note>, code: Option<int>, now: real)
      returns (fault: Option<Fault>)
      modifies this`jobs, this`events
      ensures match Finished(old(View()), id, state, reason, code, now)
              case Err(e) => fault == Some(e) && View() == old(View())
              case Ok(db) => fault.None? && View() == db
    {
      if id !in jobs {
        return Some(UnknownJob);
      }
      var job := jobs[id];
      if job.state.Terminal() {
        return None;
      }
      var outcome, why := state, reason;
      if job.cancelRequested {
        outcome, why := Cancelled, Some(ByOperator);
      }
      jobs := jobs[id := job.(state := outcome, finished := Some(now), exitCode := code, reason := why)];
      Record(id, now, Became(outcome), why);
      fault := None;
    }

    method Cancel(id: Id, now: real) returns (fault: Option<Fault>)
      modifies this`jobs, this`events
      ensures match CancelledJob(old(View()), id, now)
              case Err(e) => fault == Some(e) && View() == old(View())
              case Ok(db) => fault.None? && View() == db
    {
      if id !in jobs {
        return Some(UnknownJob);
      }
      var job := jobs[id];
      if job.state.Terminal() {
        return Some(AlreadyFinished);
      }
      if job.state == Queued {
        jobs := jobs[id := job.(state := Cancelled, finished := Some(now), reason := Some(BeforeExecution))];
        Record(id, now, Became(Cancelled), Some(BeforeExecution));
      } else {
        jobs := jobs[id := job.(cancelRequested := true)];
        Record(id, now, CancelAsked, None);
      }
      fault := None;
    }

    /** The query `ORDER BY ready, created LIMIT 1`. */
    method FirstReady(now: real) returns (best: Option<Id>)
      ensures best.None? ==> forall id :: id in jobs ==> !Waiting(View(), id, now)
      ensures best.None? ==> forall id :: id in jobs && jobs[id].state == Queued ==> now < jobs[id].ready
      ensures best.Some? ==> IsNext(View(), best.value, now)
    {
      best := None;
      var todo := jobs.Keys;
      while todo != {}
        invariant todo <= jobs.Keys
        invariant best.None? ==> forall id :: id in jobs && id !in todo ==> !Waiting(View(), id, now)
        invariant best.Some? ==> Waiting(View(), best.value, now)
        invariant best.Some? ==> forall id :: id in jobs && id !in todo && Waiting(View(), id, now) ==>
                    !Before(jobs[id], jobs[best.value])
        decreases todo
      {
        var id :| id in todo;
        todo := todo - {id};
        if jobs[id].state == Queued && jobs[id].ready <= now {
          if best.None? || Before(jobs[id], jobs[best.value]) {
            best := Some(id);
          }
        }
      }
    }

    method Claim(now: real) returns (claimed: Option<Id>)
      modifies this`jobs, this`events
      ensures claimed.None? ==> View() == old(View()) && forall id :: id in jobs ==> !Waiting(View(), id, now)
      ensures claimed.None? ==> forall id :: id in jobs && jobs[id].state == Queued ==> now < jobs[id].ready
      ensures claimed.Some? ==>
                IsNext(old(View()), claimed.value, now) && View() == Claimed(old(View()), claimed.value, now)
    {
      claimed := FirstReady(now);
      if claimed.Some? {
        jobs := jobs[claimed.value := jobs[claimed.value].(state := Running, started := Some(now))];
        Record(claimed.value, now, Became(Running), None);
      }
    }

    /** The rows for a set of ids, oldest first. */
    method Rows(ids: set<Id>) returns (rows: seq<Id>)
      requires ids <= jobs.Keys
      ensures Lists(rows, ids, View())
    {
      rows := [];
      var todo := ids;
      while todo != {}
        invariant todo <= ids
        invariant Lists(rows, ids - todo, View())
        invariant forall i, id :: 0 <= i < |rows| && id in todo ==> Earlier(jobs, rows[i], id)
        decreases todo
      {
        var first := Oldest(todo);
        rows := rows + [first];
        todo := todo - {first};
      }
      assert ids - todo == ids;
    }

    method Oldest(ids: set<Id>) returns (first: Id)
      requires ids != {} && ids <= jobs.Keys
      ensures first in ids && forall id :: id in ids && id != first ==> Earlier(jobs, first, id)
    {
      first :| first in ids;
      var todo := ids - {first};
      while todo != {}
        invariant todo <= ids && first in ids
        invariant forall id :: id in ids && id !in todo && id != first ==> Earlier(jobs, first, id)
        decreases todo
      {
        var id :| id in todo;
        EarlierIsTotal(jobs, id, first);
        if Earlier(jobs, id, first) {
          forall k | k in ids && k !in todo && k != first ensures Earlier(jobs, id, k) {
            EarlierIsTransitive(jobs, id, first, k);
          }
          first := id;
        }
        todo := todo - {id};
      }
    }

    method Acknowledge(target: Option<Id>, now: real) returns (r: Result<seq<Id>, Fault>)
      modifies this`acks, this`events
      ensures r.Err? ==> View() == old(View()) && target.Some?
      ensures target.Some? && target.value !in old(jobs) ==> r == Err(UnknownJob)
      ensures target.Some? && target.value in old(jobs) &&
                old(jobs)[target.value].state !in {Failed, TimedOut, Interrupted} ==>
                r == Err(NotReviewable)
      ensures (target.None? ||
               (target.value in old(jobs) && old(jobs)[target.value].state in {Failed, TimedOut, Interrupted})) ==>
                r.Ok? && Lists(r.value, OutstandingIds(old(View()), target), old(View())) &&
                View() == AllAcknowledged(old(View()), r.value, now)
    {
      if target.Some? {
        if target.value !in jobs {
          return Err(UnknownJob);
        }
        if !jobs[target.value].state.Unsuccessful() {
          return Err(NotReviewable);
        }
      }
      var rows := Rows(OutstandingIds(View(), target));
      var k := 0;
      while k < |rows|
        invariant 0 <= k <= |rows|
        invariant jobs == old(jobs) && Lists(rows, OutstandingIds(old(View()), target), old(View()))
        invariant AllAcknowledged(old(View()), rows, now) == AllAcknowledged(View(), rows[k..], now)
      {
        assert rows[k..][1..] == rows[k + 1..];
        acks := acks[rows[k] := Ack(jobs[rows[k]].state, now)];
        Record(rows[k], now, Reviewed, Some(OutcomeReviewed(jobs[rows[k]].state)));
        k := k + 1;
      }
      r := Ok(rows);
    }

    method Recover(now: real) returns (ghost rows: seq<Id>)
      modifies this`jobs, this`events
      ensures Covers(rows, RunningIds(old(View()))) && forall i :: 0 <= i < |rows| ==> rows[i] in old(jobs)
      ensures View() == Recovered(old(View()), rows, now)
    {
      var list := Rows(RunningIds(View()));
      rows := list;
      var k := 0;
      while k < |list|
        invariant 0 <= k <= |list| && jobs.Keys == old(jobs).Keys
        invariant Lists(list, RunningIds(old(View())), old(View())) && rows == list
        invariant Recovered(old(View()), list, now) == Recovered(View(), list[k..], now)
      {
        assert list[k..][1..] == list[k + 1..];
        var fault := Finish(list[k], Interrupted, Some(WorkerLost), None, now);
        k := k + 1;
      }
    }

    /** `snapshot`: for every state the number of jobs, and the number that need review. */
    method Snapshot() returns (counts: map<JobState, nat>, attention: map<JobState, nat>)
      ensures forall s :: s in counts <==> Count(View(), s) > 0
      ensures forall s :: s in counts ==> counts[s] == Count(View(), s)
      ensures forall s :: s in attention <==> Attention(View(), s) > 0
      ensures forall s :: s in attention ==> attention[s] == Attention(View(), s)
    {
      counts, attention := map[], map[];
      var states := [Queued, Running, Succeeded, Failed, Cancelled, TimedOut, Interrupted];
      var k := 0;
      while k < 7
        invariant 0 <= k <= 7
        invariant forall s :: s in counts <==> s in states[..k] && Count(View(), s) > 0
        invariant forall s :: s in counts ==> counts[s] == Count(View(), s)
        invariant forall s :: s in attention <==> s in states[..k] && Attention(View(), s) > 0
        invariant forall s :: s in attention ==> attention[s] == Attention(View(), s)
      {
        var s := states[k];
        assert states[..k + 1] == states[..k] + [s];
        if Count(View(), s) > 0 {
          counts := counts[s := Count(View(), s)];
        }
        if Attention(View(), s) > 0 {
          attention := attention[s := Attention(View(), s)];
        }
        k := k + 1;
      }
      forall s: JobState ensures s in states {
        EveryState(states, s);
      }
      assert states[..7] == states;
    }

    method Quarantine(id: Id, now: real)
      requires id in jobs
      modifies this`jobs, this`events
      ensures View() == Quarantined(old(View()), id, now)
    {
      var why := Some(RestoredFrom(jobs[id].state));
      jobs := jobs[id := jobs[id].(state := Interrupted, finished := Some(now), reason := why,
                                   cancelRequested := false)];
      Record(id, now, Became(Interrupted), why);
    }

    /** `prepare_queue` on the database of a restored copy: nothing in it may run. */
    method PrepareRestored(now: real) returns (count: nat, ghost rows: seq<Id>)
      modifies this`jobs, this`events, this`tasks
      ensures Covers(rows, PendingIds(old(View()))) && count == |rows| &&
              forall i :: 0 <= i < |rows| ==> rows[i] in old(jobs)
      ensures View() == Disabled(AllQuarantined(old(View()), rows, now))
    {
      var pending := Rows(PendingIds(View()));
      rows, count := pending, |pending|;
      var k := 0;
      while k < |pending|
        invariant 0 <= k <= |pending| && jobs.Keys == old(jobs).Keys
        invariant forall i :: 0 <= i < |pending| ==> pending[i] in old(jobs)
        invariant AllQuarantined(old(View()), pending, now) == AllQuarantined(View(), pending[k..], now)
      {
        assert pending[k..][1..] == pending[k + 1..];
        Quarantine(pending[k], now);
        k := k + 1;
      }
      tasks := map name | name in tasks :: tasks[name].(enabled := false);
    }
  }

  lemma EveryState(states: seq<JobState>, s: JobState)
    requires states == [Queued, Running, Succeeded, Failed, Cancelled, TimedOut, Interrupted]
    ensures s in states
  {
    assert states[0] == Queued && states[1] == Running && states[2] == Succeeded && states[3] == Failed;
    assert states[4] == Cancelled && states[5] == TimedOut && states[6] == Interrupted;
  }
}
