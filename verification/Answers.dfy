/** What the commands of the queue answer, and what they leave in the tables, row by row. */
module Answers {
  import opened Text
  import opened Tables
  import opened JobQueue
  import opened History
  import opened Execution

  /**
   * A request is taken exactly if its directory, timeout and delay are in order and its id is new; then the worker may
   * start the job from the end of its delay on, and not before.
   */
  lemma SubmittedIff(db: Db, id: Id, q: Request, now: real, later: real)
    ensures Submitted(db, id, q, now).Ok? <==>
              q.workspace.Some? && 1 <= q.timeout <= 604800 && 0 <= q.delay <= 31536000 && id !in db.jobs
    ensures Submitted(db, id, q, now).Ok? ==>
              var t := Submitted(db, id, q, now).value;
              && (Waiting(t, id, later) <==> now + q.delay as real <= later)
              && t.acks == db.acks && t.tasks == db.tasks && t.links == db.links
  {
  }

  /** Exactly the jobs that are queued or running can be cancelled; ending a job that has ended changes nothing. */
  lemma CancelledIff(db: Db, id: Id, state: JobState, reason: Option<Note>, code: Option<int>, now: real)
    ensures CancelledJob(db, id, now).Ok? <==> id in db.jobs && db.jobs[id].state in {Queued, Running}
    ensures CancelledJob(db, id, now).Ok? ==>
              var t := CancelledJob(db, id, now).value;
              t.acks == db.acks && t.tasks == db.tasks && t.links == db.links
    ensures id in db.jobs && db.jobs[id].state !in {Queued, Running} ==>
              Finished(db, id, state, reason, code, now) == Ok(db)
    ensures Finished(db, id, state, reason, code, now).Ok? <==> id in db.jobs
  {
  }

  // ----- the order of rows ---------------------------------------------------------------------------

  /** Up to here the texts agree; then the first ends, or has the smaller character. */
  predicate DifferFrom(a: string, b: string, n: nat) {
    && n <= |a| && n < |b| && (n == |a| || a[n] < b[n])
    && forall i :: 0 <= i < n ==> a[i] == b[i]
  }

  lemma {:induction false} DifferBefore(a: string, b: string, n: nat)
    requires DifferFrom(a, b, n)
    ensures TextBefore(a, b)
    decreases n
  {
    if n > 0 {
      assert a[0] == b[0];
      DifferBefore(a[1..], b[1..], n - 1);
    }
  }

  lemma {:induction false} FirstDifference(a: string, b: string) returns (n: nat)
    requires TextBefore(a, b)
    ensures DifferFrom(a, b, n)
    decreases |a|
  {
    n := 0;
    if a != "" && !(a[0] < b[0]) {
      var rest := FirstDifference(a[1..], b[1..]);
      n := rest + 1;
      forall i | 0 <= i < n ensures a[i] == b[i] {
        assert i > 0 ==> a[1..][i - 1] == b[1..][i - 1];
      }
    }
  }

  /** Rows come by the time they were made; of the same time, by the first character in which their ids differ. */
  lemma OrderIs(jobs: map<Id, Job>, a: Id, b: Id)
    requires a in jobs && b in jobs
    ensures Earlier(jobs, a, b) <==>
              jobs[a].created < jobs[b].created ||
              (jobs[a].created == jobs[b].created && exists n: nat :: DifferFrom(a, b, n))
  {
    if TextBefore(a, b) {
      var n := FirstDifference(a, b);
      assert DifferFrom(a, b, n);
    }
    if n: nat :| DifferFrom(a, b, n) {
      DifferBefore(a, b, n);
    }
  }

  // ----- reviews ---------------------------------------------------------------------------------

  /** The unsuccessful outcomes, as the log tells a review of them. */
  function Word(state: JobState): string
    requires state in {Failed, TimedOut, Interrupted}
  {
    match state
    case Failed => "failed"
    case TimedOut => "timed_out"
    case Interrupted => "interrupted"
  }

  /** A review of this job in its present state, told at this time. */
  predicate IsReview(e: Event, db: Db, id: Id, now: real)
    requires id in db.jobs && db.jobs[id].state in {Failed, TimedOut, Interrupted}
  {
    && e.job == id && e.at == now && e.mark == Reviewed
    && Says(e.detail, "Reviewed " + Word(db.jobs[id].state) + " outcome; cleared login attention")
  }

  /** A job asks for review while it has an unsuccessful outcome of which no review is on record. */
  predicate AsksForReview(db: Db, id: Id) {
    && id in db.jobs && db.jobs[id].state in {Failed, TimedOut, Interrupted}
    && (id in db.acks ==> db.acks[id].state != db.jobs[id].state)
  }

  lemma OutstandingIs(db: Db, target: Option<Id>, id: Id)
    ensures id in OutstandingIds(db, target) <==> AsksForReview(db, id) && (target == None || target == Some(id))
  {
  }

  /** Each review records the outcome and the time. */
  lemma {:induction false} AcksAre(db: Db, rows: seq<Id>, now: real)
    requires Sound(db) && Reviewable(db, rows)
    ensures forall id :: id in AllAcknowledged(db, rows, now).acks <==> id in db.acks || id in rows
    ensures forall id :: id in AllAcknowledged(db, rows, now).acks ==>
              AllAcknowledged(db, rows, now).acks[id] ==
              if id in rows then Ack(db.jobs[id].state, now) else db.acks[id]
    decreases rows
  {
    if rows != [] {
      OneReviewed(db, rows, now);
      AcksAre(Acknowledged(db, rows[0], now), rows[1..], now);
      assert rows == [rows[0]] + rows[1..];
    }
  }

  /** The event of the i-th review. */
  predicate TellsReview(db: Db, rows: seq<Id>, now: real, t: Db, i: nat)
    requires i < |rows|
  {
    && |db.events| + i < |t.events| && AsksForReview(db, rows[i])
    && IsReview(t.events[|db.events| + i], db, rows[i], now)
  }

  /**
   * Reviewing leaves exactly this: of each job that asked for it, or of the one that was named, outcome and time
   * are on record and one event is in the log, in the order of the rows; everything else is as it was.
   */
  lemma ReviewsAre(db: Db, rows: seq<Id>, now: real)
    requires Sound(db) && Reviewable(db, rows)
    ensures var t := AllAcknowledged(db, rows, now);
            && t == db.(acks := t.acks, events := t.events)
            && |t.events| == |db.events| + |rows| && db.events <= t.events
            && (forall id :: id in t.acks <==> id in db.acks || id in rows)
            && (forall id :: id in t.acks ==>
                  t.acks[id] == if id in rows then Ack(db.jobs[id].state, now) else db.acks[id])
            && (forall i :: 0 <= i < |rows| ==> TellsReview(db, rows, now, t, i))
  {
    AcksAre(db, rows, now);
    AllAcknowledgedKeeps(db, rows, now);
    forall i | 0 <= i < |rows| ensures TellsReview(db, rows, now, AllAcknowledged(db, rows, now), i) {
      assert Outstanding(db, rows[i]);
    }
  }

  // ----- counts -----------------------------------------------------------------------------------

  function IdsOf(db: Db, states: set<JobState>): set<Id> {
    set id | id in db.jobs && db.jobs[id].state in states
  }

  lemma TwoStates(db: Db, a: JobState, b: JobState)
    requires a != b
    ensures |IdsOf(db, {a, b})| == Count(db, a) + Count(db, b)
  {
    assert IdsOf(db, {a, b}) == IdsIn(db, a) + IdsIn(db, b) && IdsIn(db, a) !! IdsIn(db, b);
  }

  /** The counts of `snapshot` count each job once. */
  lemma CountsAreOfAll(db: Db)
    ensures Count(db, Queued) + Count(db, Running) + Count(db, Succeeded) + Count(db, Cancelled) +
            (Count(db, Failed) + Count(db, TimedOut) + Count(db, Interrupted)) == |db.jobs|
  {
    TwoStates(db, Queued, Running);
    TwoStates(db, Succeeded, Cancelled);
    CountsAddUp(db);
    ThreeParts(db.jobs.Keys, IdsOf(db, {Queued, Running}), IdsOf(db, {Succeeded, Cancelled}), UnsuccessfulIds(db));
  }

  /** A state has a count exactly if some job is in it. */
  lemma CountedIff(db: Db, state: JobState)
    ensures Count(db, state) > 0 <==> exists id :: id in db.jobs && db.jobs[id].state == state
    ensures Attention(db, state) > 0 <==> exists id :: AsksForReview(db, id) && db.jobs[id].state == state
  {
    if id :| id in db.jobs && db.jobs[id].state == state {
      assert id in IdsIn(db, state);
    }
    if Count(db, state) > 0 {
      var id :| id in IdsIn(db, state);
    }
    if id :| AsksForReview(db, id) && db.jobs[id].state == state {
      assert id in AttentionIn(db, state);
    }
    if Attention(db, state) > 0 {
      var id :| id in AttentionIn(db, state);
      assert AsksForReview(db, id);
    }
  }

  // ----- restored copies -------------------------------------------------------------------------------

  /** A pending job of a restored copy, as the copy has it. */
  predicate IsShelved(was: Job, job: Job, now: real) {
    && was.state in {Queued, Running}
    && job == was.(state := Interrupted, finished := Some(now), reason := job.reason, cancelRequested := false)
    && Says(job.reason, "Restored " + (if was.state == Queued then "queued" else "running") +
                        " job; review workspace and credentials, then explicitly retry")
  }

  /**
   * A prepared copy: the jobs that were queued or running are interrupted and say why, all others and the old log are
   * as they were, each interruption is one event, and no schedule is enabled.
   */
  lemma RestoredRowsAre(db: Db, rows: seq<Id>, now: real)
    requires Sound(db) && Covers(rows, PendingIds(db)) && forall i :: 0 <= i < |rows| ==> rows[i] in db.jobs
    ensures var t := Disabled(AllQuarantined(db, rows, now));
            && t.jobs.Keys == db.jobs.Keys && t.acks == db.acks && t.links == db.links
            && (forall id :: id in db.jobs && db.jobs[id].state !in {Queued, Running} ==> t.jobs[id] == db.jobs[id])
            && (forall id :: id in db.jobs && db.jobs[id].state in {Queued, Running} ==>
                  IsShelved(db.jobs[id], t.jobs[id], now))
            && t.tasks.Keys == db.tasks.Keys
            && (forall name :: name in db.tasks ==> t.tasks[name] == db.tasks[name].(enabled := false))
    ensures var t := Disabled(AllQuarantined(db, rows, now));
            && |t.events| == |db.events| + |rows| && db.events <= t.events
            && (forall id :: id in rows <==> id in db.jobs && db.jobs[id].state in {Queued, Running})
            && (forall i, j :: 0 <= i < j < |rows| ==> rows[i] != rows[j])
            && forall i :: 0 <= i < |rows| ==>
                 t.events[|db.events| + i] == Event(rows[i], now, Became(Interrupted), t.jobs[rows[i]].reason)
  {
    RestoredCopyIsInert(db, rows, now);
    forall id ensures id in rows <==> id in db.jobs && db.jobs[id].state in {Queued, Running} {
      assert id in PendingIds(db) <==> id in db.jobs && db.jobs[id].state in {Queued, Running};
    }
  }
}
