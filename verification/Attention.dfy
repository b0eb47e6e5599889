/** Exactly which events of the log are notified, and that no unsuccessful job goes unreported. */
module Attention {
  import opened Text
  import opened Tables
  import opened JobQueue
  import opened History
  import opened OperatorSystem
  import Notifier

  /** Event number k says that a job failed, ran out of time or was interrupted. */
  predicate IsBad(events: seq<Event>, k: nat) {
    1 <= k <= |events| && events[k - 1].mark in {Became(Failed), Became(TimedOut), Became(Interrupted)}
  }

  lemma AskingIsBad(events: seq<Event>, k: nat)
    ensures Notifier.Asking(events, k) <==> IsBad(events, k)
  {
  }

  /**
   * The webhook took exactly the bad events: each between the start and the saved cursor was taken if and only if it is
   * one, and anything taken is a bad event after the start. Only one event past the cursor may have been taken, the
   * first bad one there.
   */
  ghost predicate TookTheBad(note: Notifier.State, events: seq<Event>) {
    && (forall a :: a in note.accepted ==> note.start < a && IsBad(events, a))
    && (note.cursor.None? ==> note.accepted == [])
    && (note.cursor.Some? ==>
          var last := note.cursor.value.sequence;
          && note.start <= last <= |events|
          && (forall k: nat :: note.start < k <= last ==> (k in note.accepted <==> IsBad(events, k)))
          && (forall a, k: nat :: a in note.accepted && last < k < a ==> !IsBad(events, k)))
  }

  lemma SoundTookTheBad(note: Notifier.State, events: seq<Event>)
    requires Notifier.Inv(note, events)
    ensures TookTheBad(note, events)
  {
    forall k: nat ensures Notifier.Asking(events, k) <==> IsBad(events, k) {
      AskingIsBad(events, k);
    }
    forall a, k: nat | note.cursor.Some? && a in note.accepted && note.cursor.value.sequence < k < a
      ensures !IsBad(events, k)
    {
      assert Notifier.Quiet(events, note.cursor.value.sequence, a);
      assert !Notifier.Asking(events, k);
    }
  }

  /** Over every run of the notifier, whatever fails and wherever it crashes, while the log only grows. */
  lemma ExactlyTheBadAreTaken(log: seq<Event>, run: seq<Notifier.Moment>)
    requires Notifier.Follows(Notifier.FRESH, run) && Notifier.Grows(log, run)
    ensures TookTheBad(Notifier.After(Notifier.FRESH, run), Notifier.LastLog(log, run))
  {
    Notifier.FreshIsSound(log);
    Notifier.RunKeeps(Notifier.FRESH, log, run);
    SoundTookTheBad(Notifier.After(Notifier.FRESH, run), Notifier.LastLog(log, run));
  }

  /** Step n configures the notifier, or begins its first check, when the log has this many events. */
  predicate Begins(run: seq<Notifier.Moment>, n: nat, start: nat) {
    && n < |run| && |run[n].events| == start
    && (run[n].step == Notifier.Label.Configure || run[n].step == Notifier.Label.Start)
  }

  ghost predicate BeginsSomewhere(run: seq<Notifier.Moment>, start: nat) {
    exists n: nat :: Begins(run, n, start)
  }

  lemma BegunEarlier(run: seq<Notifier.Moment>, start: nat)
    requires run != [] && BeginsSomewhere(run[..|run| - 1], start)
    ensures BeginsSomewhere(run, start)
  {
    var n: nat :| Begins(run[..|run| - 1], n, start);
    assert Begins(run, n, start);
  }

  /** Notification starts at the end the log had when it was configured or, without that, first checked. */
  lemma {:induction false} StartIsAnEnd(run: seq<Notifier.Moment>)
    requires Notifier.Follows(Notifier.FRESH, run)
    ensures var s := Notifier.After(Notifier.FRESH, run);
            && (s.cursor.Some? ==> BeginsSomewhere(run, s.start))
            && (s.phase.Storing? ==> BeginsSomewhere(run, s.phase.position.sequence))
            && (s.cursor.Some? || s.phase.Idle? || s.phase.Storing?)
    decreases |run|
  {
    if run != [] {
      var before, last := run[..|run| - 1], run[|run| - 1];
      StartIsAnEnd(before);
      var s := Notifier.After(Notifier.FRESH, before);
      if s.cursor.Some? {
        BegunEarlier(run, s.start);
      }
      if s.phase.Storing? {
        BegunEarlier(run, s.phase.position.sequence);
      }
      if last.step.Configure? || last.step.Start? {
        assert Begins(run, |run| - 1, |last.events|);
      }
    }
  }

  /** The event that tells the end of a job, by its number. */
  predicate TellsTheEnd(db: Db, id: Id, k: nat) {
    1 <= k <= |db.events| && db.events[k - 1].job == id && id in db.jobs &&
    db.events[k - 1].mark == Became(db.jobs[id].state)
  }

  /** Every unsuccessful job has one event that says so, and an event that says so is of such a job. */
  lemma BadJobsAreTold(db: Db, id: Id) returns (k: nat)
    requires Sound(db) && id in db.jobs && db.jobs[id].state in {Failed, TimedOut, Interrupted}
    ensures TellsTheEnd(db, id, k) && IsBad(db.events, k)
    ensures forall j: nat :: IsBad(db.events, j) && db.events[j - 1].job == id ==> j == k
  {
    assert Replay(db.events, id) == Stored(db, id);
    HappensOnce(db.events, id);
    var i :| 0 <= i < |db.events| && Ends(db.events[i], id);
    k := i + 1;
    forall j: nat | IsBad(db.events, j) && db.events[j - 1].job == id ensures j == k {
      assert Ends(db.events[j - 1], id);
    }
  }

  lemma ToldJobsAreBad(db: Db, k: nat)
    requires Sound(db) && IsBad(db.events, k)
    ensures TellsTheEnd(db, db.events[k - 1].job, k)
  {
    var id := db.events[k - 1].job;
    assert Replay(db.events, id) == Stored(db, id);
    HappensOnce(db.events, id);
    assert Ends(db.events[k - 1], id);
  }

  /**
   * In the whole system: a job that is stored as failed, timed out or interrupted has one event that says so, and if
   * that lies between the start of notification and the saved cursor, the webhook took it. Whatever it took is such an
   * event: its job is stored with the very outcome it tells.
   */
  lemma NoBadJobGoesUnreported(run: seq<Step>, id: Id) returns (k: nat)
    requires Follows(INITIAL, run) && id in After(INITIAL, run).db.jobs
    requires After(INITIAL, run).db.jobs[id].state in {Failed, TimedOut, Interrupted}
    ensures var s := After(INITIAL, run);
            && TellsTheEnd(s.db, id, k)
            && (s.note.cursor.Some? && s.note.start < k <= s.note.cursor.value.sequence ==> k in s.note.accepted)
  {
    InitiallySound();
    RunKeeps(INITIAL, run);
    var s := After(INITIAL, run);
    k := BadJobsAreTold(s.db, id);
    SoundTookTheBad(s.note, s.db.events);
  }

  lemma NothingElseIsReported(run: seq<Step>, a: nat)
    requires Follows(INITIAL, run) && a in After(INITIAL, run).note.accepted
    ensures var s := After(INITIAL, run);
            && 1 <= a <= |s.db.events| && TellsTheEnd(s.db, s.db.events[a - 1].job, a)
            && s.db.jobs[s.db.events[a - 1].job].state in {Failed, TimedOut, Interrupted}
  {
    InitiallySound();
    RunKeeps(INITIAL, run);
    var s := After(INITIAL, run);
    SoundTookTheBad(s.note, s.db.events);
    ToldJobsAreBad(s.db, a);
  }
}
