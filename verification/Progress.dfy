/** What no transaction of the queue or the scheduler takes back. */
module Progress {
  import opened Text
  import opened Tables
  import opened JobQueue
  import opened History
  import opened Scheduler

  /** A job never changes what it was asked to do, never runs twice, and never leaves a final state. */
  predicate Keeps(a: Job, b: Job) {
    && a.work == b.work && a.created == b.created && a.ready == b.ready && a.parent == b.parent
    && (a.state.Terminal() ==> a == b)
    && (a.state == Running ==> b.state != Queued)
    && (a.state == Queued && a != b ==> b.state != Queued)
  }

  ghost predicate KeepsJobs(a: Db, b: Db) {
    forall id :: id in a.jobs ==> id in b.jobs && Keeps(a.jobs[id], b.jobs[id])
  }

  /** A transaction of the queue: it touches jobs, log and reviews only, and the jobs it adds are queued. */
  ghost predicate QueueStep(a: Db, b: Db) {
    && KeepsJobs(a, b) && a.events <= b.events && a.tasks == b.tasks && a.links == b.links
    && (forall id :: id in b.jobs && id !in a.jobs ==> b.jobs[id].state == Queued)
    && (forall id :: id in a.acks ==> id in b.acks && b.acks[id] == a.acks[id])
  }

  ghost predicate Evolves(a: Db, b: Db) {
    && KeepsJobs(a, b) && a.events <= b.events
    && (forall id :: id in a.acks ==> id in b.acks && b.acks[id] == a.acks[id])
    && (forall id :: id in a.links ==> id in b.links && b.links[id] == a.links[id])
    && (forall name :: name in a.tasks ==> name in b.tasks && a.tasks[name].revision <= b.tasks[name].revision)
    && (forall name :: name in a.tasks && a.tasks[name].deleted ==> b.tasks[name].deleted)
  }

  lemma SubmitSteps(db: Db, id: Id, q: Request, now: real)
    requires Submitted(db, id, q, now).Ok?
    ensures QueueStep(db, Submitted(db, id, q, now).value)
  {
  }

  lemma FinishSteps(db: Db, id: Id, state: JobState, reason: Option<Note>, code: Option<int>, now: real)
    requires Finished(db, id, state, reason, code, now).Ok? && db.jobs[id].state != Queued && state.Terminal()
    ensures QueueStep(db, Finished(db, id, state, reason, code, now).value)
  {
  }

  lemma WithdrawSteps(db: Db, id: Id, now: real)
    requires id in db.jobs && db.jobs[id].state == Queued
    ensures QueueStep(db, Withdrawn(db, id, now))
  {
  }

  lemma AskSteps(db: Db, id: Id, now: real)
    requires id in db.jobs && db.jobs[id].state == Running
    ensures QueueStep(db, AskedToStop(db, id, now))
  {
  }

  lemma CancelSteps(db: Db, id: Id, now: real)
    requires CancelledJob(db, id, now).Ok?
    ensures QueueStep(db, CancelledJob(db, id, now).value)
  {
    if db.jobs[id].state == Queued {
      WithdrawSteps(db, id, now);
    } else {
      AskSteps(db, id, now);
    }
  }

  lemma ClaimSteps(db: Db, id: Id, now: real)
    requires id in db.jobs && db.jobs[id].state == Queued
    ensures QueueStep(db, Claimed(db, id, now))
  {
  }

  lemma {:induction false} ReviewSteps(db: Db, rows: seq<Id>, now: real)
    requires Sound(db) && Reviewable(db, rows)
    ensures QueueStep(db, AllAcknowledged(db, rows, now))
    decreases rows
  {
    if rows != [] {
      OneReviewed(db, rows, now);
      ReviewSteps(Acknowledged(db, rows[0], now), rows[1..], now);
    }
  }

  lemma QueueStepEvolves(a: Db, b: Db)
    requires QueueStep(a, b)
    ensures Evolves(a, b)
  {
  }

  lemma EvolvesOnwards(a: Db, b: Db, c: Db)
    requires Evolves(a, b) && Evolves(b, c)
    ensures Evolves(a, c)
  {
    forall id | id in a.jobs ensures id in c.jobs && Keeps(a.jobs[id], c.jobs[id]) {
      assert Keeps(a.jobs[id], b.jobs[id]) && Keeps(b.jobs[id], c.jobs[id]);
    }
  }

  /** A revision that was tested stays tested. */
  lemma TestedStays(a: Db, b: Db, link: Link)
    requires Evolves(a, b) && Tested(a, link)
    ensures Tested(b, link)
  {
    var id :| id in a.links && TestedBy(a, link, id);
    assert TestedBy(b, link, id);
  }
}
