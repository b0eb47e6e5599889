/** The event log as history: what replaying it gives, and what each transaction of the queue keeps. */
module History {
  import opened Text
  import opened Tables
  import opened JobQueue

  /** What the events so far say of one job. */
  datatype Past = Absent | Seen(state: JobState, cancel: bool, ack: Option<JobState>) | Corrupt

  /**
   * The legal next events. A job starts once, runs at most once, ends at most once; it ends cancelled out of a run
   * exactly when cancellation was asked for; only a restored copy interrupts a queued job or drops a pending
   * cancellation; an outcome is reviewed at most once.
   */
  function Apply(p: Past, mark: Mark): Past {
    match mark
    case CancelAsked => if p.Seen? && p.state == Running then p.(cancel := true) else Corrupt
    case Reviewed => if p.Seen? && p.state.Unsuccessful() && p.ack.None? then p.(ack := Some(p.state)) else Corrupt
    case Became(Queued) => if p.Absent? then Seen(Queued, false, None) else Corrupt
    case Became(Running) => if p.Seen? && p.state == Queued then p.(state := Running) else Corrupt
    case Became(Interrupted) => if p.Seen? && p.state.Active() then p.(state := Interrupted, cancel := false)
        else Corrupt
    case Became(s) =>
      if p.Seen? && p.state == Queued && s == Cancelled then p.(state := s)
      else if p.Seen? && p.state == Running && (p.cancel <==> s == Cancelled) then p.(state := s)
      else Corrupt
  }

  /** Replaying the events of one job in sequence order. */
  function Replay(events: seq<Event>, id: Id): Past {
    if events == [] then Absent
    else
      var e, before := events[|events| - 1], Replay(events[..|events| - 1], id);
      if e.job == id then Apply(before, e.mark) else before
  }

  /** What the tables say of one job. */
  function Stored(db: Db, id: Id): Past {
    if id !in db.jobs then Absent
    else Seen(db.jobs[id].state, db.jobs[id].cancelRequested, if id in db.acks then Some(db.acks[id].state) else None)
  }

  /** The log is a faithful history of the tables. */
  ghost predicate Faithful(db: Db) {
    forall id: Id :: Replay(db.events, id) == Stored(db, id)
  }

  /** Every acknowledgment is of a finished, unsuccessful job and records its very outcome. */
  predicate AcksSound(db: Db) {
    forall id :: id in db.acks ==>
      id in db.jobs && db.jobs[id].state.Unsuccessful() && db.acks[id].state == db.jobs[id].state
  }

  ghost predicate Sound(db: Db) {
    Faithful(db) && AcksSound(db)
  }

  // ----- one event at a time -------------------------------------------------------

  lemma ReplayOne(events: seq<Event>, e: Event, id: Id)
    ensures Replay(events + [e], id) == if e.job == id then Apply(Replay(events, id), e.mark) else Replay(events, id)
  {
    assert (events + [e])[..|events|] == events;
  }

  /** A transaction that touches one job and logs the matching event keeps the log faithful. */
  lemma Extended(db: Db, after: Db, e: Event)
    requires Faithful(db) && after.events == db.events + [e]
    requires forall id: Id :: id != e.job ==> Stored(after, id) == Stored(db, id)
    requires Stored(after, e.job) == Apply(Stored(db, e.job), e.mark)
    ensures Faithful(after)
  {
    forall id: Id ensures Replay(after.events, id) == Stored(after, id) {
      ReplayOne(db.events, e, id);
      assert Replay(db.events, id) == Stored(db, id);
    }
  }

  lemma EmptyIsSound()
    ensures Sound(EMPTY)
  {
  }

  lemma SubmitKeeps(db: Db, id: Id, q: Request, now: real)
    requires Sound(db) && Submitted(db, id, q, now).Ok?
    ensures Sound(Submitted(db, id, q, now).value)
  {
    var after := Submitted(db, id, q, now).value;
    Extended(db, after, after.events[|db.events|]);
  }

  /**
   * Finishing keeps the history faithful when the job is already done, or running with an outcome `cancelled` only
   * if cancellation was asked for. (An interrupted queued job is a restored one; see `QuarantineKeeps`.)
   */
  lemma FinishKeeps(db: Db, id: Id, state: JobState, reason: Option<Note>, code: Option<int>, now: real)
    requires Sound(db) && id in db.jobs && db.jobs[id].state != Queued && state.Terminal()
    requires state == Cancelled ==> db.jobs[id].cancelRequested || db.jobs[id].state.Terminal()
    ensures Finished(db, id, state, reason, code, now).Ok?
    ensures Sound(Finished(db, id, state, reason, code, now).value)
  {
    var after := Finished(db, id, state, reason, code, now).value;
    if db.jobs[id].state == Running {
      Extended(db, after, after.events[|db.events|]);
    }
  }

  lemma WithdrawKeeps(db: Db, id: Id, now: real)
    requires Sound(db) && id in db.jobs && db.jobs[id].state == Queued
    ensures Sound(Withdrawn(db, id, now))
  {
    var after := Withdrawn(db, id, now);
    Extended(db, after, after.events[|db.events|]);
  }

  lemma AskKeeps(db: Db, id: Id, now: real)
    requires Sound(db) && id in db.jobs && db.jobs[id].state == Running
    ensures Sound(AskedToStop(db, id, now))
  {
    var after := AskedToStop(db, id, now);
    Extended(db, after, after.events[|db.events|]);
  }

  lemma CancelKeeps(db: Db, id: Id, now: real)
    requires Sound(db) && CancelledJob(db, id, now).Ok?
    ensures Sound(CancelledJob(db, id, now).value)
  {
    if db.jobs[id].state == Queued {
      WithdrawKeeps(db, id, now);
    } else {
      AskKeeps(db, id, now);
    }
  }

  lemma ClaimKeeps(db: Db, id: Id, now: real)
    requires Sound(db) && id in db.jobs && db.jobs[id].state == Queued
    ensures Sound(Claimed(db, id, now))
  {
    var after := Claimed(db, id, now);
    Extended(db, after, after.events[|db.events|]);
  }

  lemma AcknowledgeKeeps(db: Db, id: Id, now: real)
    requires Sound(db) && Outstanding(db, id)
    ensures Sound(Acknowledged(db, id, now))
  {
    var after := Acknowledged(db, id, now);
    Extended(db, after, after.events[|db.events|]);
  }

  lemma QuarantineKeeps(db: Db, id: Id, now: real)
    requires Sound(db) && id in db.jobs && db.jobs[id].state.Active()
    ensures Sound(Quarantined(db, id, now))
  {
    var after := Quarantined(db, id, now);
    Extended(db, after, after.events[|db.events|]);
  }

  // ----- what a faithful log implies ---------------------------------------------------

  predicate Runs(e: Event, id: Id) {
    e.job == id && e.mark == Became(Running)
  }

  predicate Ends(e: Event, id: Id) {
    e.job == id && e.mark.Became? && e.mark.state.Terminal()
  }

  predicate Asks(e: Event, id: Id) {
    e.job == id && e.mark == CancelAsked
  }

  /** At most one running event and one terminal event; the terminal one names the outcome. */
  lemma {:induction false} HappensOnce(events: seq<Event>, id: Id)
    requires Replay(events, id) != Corrupt
    ensures forall i, j :: 0 <= i < j < |events| ==> !(Runs(events[i], id) && Runs(events[j], id))
    ensures forall i, j :: 0 <= i < j < |events| ==> !(Ends(events[i], id) && Ends(events[j], id))
    ensures forall i :: 0 <= i < |events| && Runs(events[i], id) ==>
            Replay(events, id).Seen? && Replay(events, id).state != Queued
    ensures forall i :: 0 <= i < |events| && Ends(events[i], id) ==>
              Replay(events, id).Seen? && events[i].mark.state == Replay(events, id).state
    ensures Replay(events, id).Seen? && Replay(events, id).state.Terminal() ==>
              exists i :: 0 <= i < |events| && Ends(events[i], id)
  {
    if events != [] {
      var n := |events| - 1;
      HappensOnce(events[..n], id);
      assert forall i :: 0 <= i < n ==> events[..n][i] == events[i];
      if Replay(events, id).Seen? && Replay(events, id).state.Terminal() && !Ends(events[n], id) {
        var i :| 0 <= i < n && Ends(events[..n][i], id);
        assert Ends(events[i], id);
      }
    }
  }

  /** A pending cancellation is in the log, and nothing but a restore forgets one. */
  lemma {:induction false} CancelIsLogged(events: seq<Event>, id: Id)
    requires Replay(events, id) != Corrupt
    ensures Replay(events, id).Seen? && Replay(events, id).cancel ==>
            exists i :: 0 <= i < |events| && Asks(events[i], id)
    ensures (exists i :: 0 <= i < |events| && Asks(events[i], id)) ==>
              Replay(events, id).Seen? && (Replay(events, id).cancel || Replay(events, id).state == Interrupted)
    ensures Replay(events, id).Seen? && Replay(events, id).state == Queued ==> !Replay(events, id).cancel
  {
    if events != [] {
      var n := |events| - 1;
      CancelIsLogged(events[..n], id);
      assert forall i :: 0 <= i < n ==> events[..n][i] == events[i];
      if Replay(events, id).Seen? && Replay(events, id).cancel && !Asks(events[n], id) {
        var i :| 0 <= i < n && Asks(events[..n][i], id);
        assert Asks(events[i], id);
      }
      if i :| 0 <= i < |events| && Asks(events[i], id) {
        if i < n {
          assert Asks(events[..n][i], id);
        }
      }
    }
  }

  /**
   * A job that ran ends cancelled exactly when the operator's request is in the log, unless a restore interrupted it.
   */
  lemma {:induction false} CancelledMeansAsked(events: seq<Event>, id: Id)
    requires Replay(events, id) != Corrupt
    requires exists i :: 0 <= i < |events| && Runs(events[i], id)
    ensures Replay(events, id).Seen? && Replay(events, id).state.Terminal() &&
            Replay(events, id).state != Interrupted ==>
              (Replay(events, id).state == Cancelled <==> exists i :: 0 <= i < |events| && Asks(events[i], id))
  {
    RanAndEnded(events, id);
    CancelIsLogged(events, id);
  }

  lemma {:induction false} RanAndEnded(events: seq<Event>, id: Id)
    requires Replay(events, id) != Corrupt
    requires exists i :: 0 <= i < |events| && Runs(events[i], id)
    ensures Replay(events, id).Seen? && Replay(events, id).state != Queued
    ensures Replay(events, id).state.Terminal() && Replay(events, id).state != Interrupted ==>
              (Replay(events, id).state == Cancelled <==> Replay(events, id).cancel)
  {
    var n := |events| - 1;
    var i :| 0 <= i < |events| && Runs(events[i], id);
    if i < n {
      assert Runs(events[..n][i], id);
      RanAndEnded(events[..n], id);
    }
  }

  // ----- attention ------------------------------------------------------------------------

  /** The jobs with an unsuccessful outcome. */
  function UnsuccessfulIds(db: Db): set<Id> {
    set id | id in db.jobs && db.jobs[id].state.Unsuccessful()
  }

  lemma ThreeParts<T>(whole: set<T>, a: set<T>, b: set<T>, c: set<T>)
    requires a !! b && a !! c && b !! c
    requires forall x :: x in whole <==> x in a || x in b || x in c
    ensures |whole| == |a| + |b| + |c|
  {
    assert whole == (a + b) + c;
    assert |a + b| == |a| + |b|;
    assert |(a + b) + c| == |a + b| + |c|;
  }

  lemma CountsAddUp(db: Db)
    ensures |UnsuccessfulIds(db)| == Count(db, Failed) + Count(db, TimedOut) + Count(db, Interrupted)
  {
    var whole, a, b, c := UnsuccessfulIds(db), IdsIn(db, Failed), IdsIn(db, TimedOut), IdsIn(db, Interrupted);
    forall id ensures id in whole <==> id in a || id in b || id in c {
    }
    ThreeParts(whole, a, b, c);
  }

  lemma AttentionAddsUp(db: Db)
    ensures |OutstandingIds(db, None)| == Attention(db, Failed) + Attention(db, TimedOut) + Attention(db, Interrupted)
  {
    var whole, a, b, c := OutstandingIds(db, None), AttentionIn(db, Failed), AttentionIn(db, TimedOut),
        AttentionIn(db, Interrupted);
    forall id ensures id in whole <==> id in a || id in b || id in c {
    }
    ThreeParts(whole, a, b, c);
  }

  /**
   * Attention is conserved: over the three unsuccessful states, what needs review plus what was acknowledged is what
   * failed; no other state asks for attention.
   */
  lemma AttentionIsConserved(db: Db)
    requires AcksSound(db)
    ensures Attention(db, Failed) + Attention(db, TimedOut) + Attention(db, Interrupted) + |db.acks| ==
            Count(db, Failed) + Count(db, TimedOut) + Count(db, Interrupted)
    ensures forall s: JobState :: !s.Unsuccessful() ==> Attention(db, s) == 0
  {
    CountsAddUp(db);
    AttentionAddsUp(db);
    var open := OutstandingIds(db, None);
    assert open !! db.acks.Keys && open + db.acks.Keys == UnsuccessfulIds(db);
    assert |open + db.acks.Keys| == |open| + |db.acks.Keys|;
    forall s: JobState | !s.Unsuccessful() ensures Attention(db, s) == 0 {
      assert AttentionIn(db, s) == {};
    }
  }

  lemma RowsHaveIds(rows: seq<Id>, ids: set<Id>)
    requires Covers(rows, ids)
    ensures rows != [] ==> ids != {}
  {
    if rows != [] {
      assert rows[0] in ids;
    }
  }

  predicate Reviewable(db: Db, rows: seq<Id>) {
    && (forall i :: 0 <= i < |rows| ==> Outstanding(db, rows[i]))
    && (forall i, j :: 0 <= i < j < |rows| ==> rows[i] != rows[j])
  }

  lemma OneReviewed(db: Db, rows: seq<Id>, now: real)
    requires Sound(db) && rows != [] && Reviewable(db, rows)
    ensures Sound(Acknowledged(db, rows[0], now)) && Reviewable(Acknowledged(db, rows[0], now), rows[1..])
  {
    AcknowledgeKeeps(db, rows[0], now);
    forall i | 0 <= i < |rows[1..]| ensures Outstanding(Acknowledged(db, rows[0], now), rows[1..][i]) {
      assert rows[1..][i] == rows[i + 1] && Outstanding(db, rows[i + 1]);
    }
  }

  /** Acknowledging the rows of a query records exactly them, logs one review each, in order, and touches no job. */
  lemma {:induction false} AllAcknowledgedKeeps(db: Db, rows: seq<Id>, now: real)
    requires Sound(db) && Reviewable(db, rows)
    ensures Sound(AllAcknowledged(db, rows, now))
    ensures var after := AllAcknowledged(db, rows, now);
            after.jobs == db.jobs && after.tasks == db.tasks && after.links == db.links
    ensures forall id :: id in AllAcknowledged(db, rows, now).acks <==> id in db.acks || id in rows
    ensures AllAcknowledged(db, rows, now).events ==
            db.events + seq(|rows|, i requires 0 <= i < |rows| => Event(rows[i], now, Reviewed,
                    Some(OutcomeReviewed(db.jobs[rows[i]].state))))
    decreases rows
  {
    if rows != [] {
      OneReviewed(db, rows, now);
      AllAcknowledgedKeeps(Acknowledged(db, rows[0], now), rows[1..], now);
    }
  }

  /**
   * Acknowledging everything takes the outstanding jobs, empties attention, keeps every count, and repeats as a no-op.
   */
  lemma AcknowledgeAllEmptiesAttention(db: Db, rows: seq<Id>, now: real)
    requires Sound(db) && Lists(rows, OutstandingIds(db, None), db)
    ensures Sound(AllAcknowledged(db, rows, now)) && OutstandingIds(AllAcknowledged(db, rows, now), None) == {}
    ensures forall s ::
              Count(AllAcknowledged(db, rows, now), s) == Count(db, s) &&
              Attention(AllAcknowledged(db, rows, now), s) == 0
    ensures forall again :: Lists(again, OutstandingIds(AllAcknowledged(db, rows, now), None),
                                  AllAcknowledged(db, rows, now)) ==>
              AllAcknowledged(AllAcknowledged(db, rows, now), again, now) == AllAcknowledged(db, rows, now)
  {
    forall i | 0 <= i < |rows| ensures Outstanding(db, rows[i]) {
      assert rows[i] in OutstandingIds(db, None);
    }
    AllAcknowledgedKeeps(db, rows, now);
    var after := AllAcknowledged(db, rows, now);
    forall id ensures !Outstanding(after, id) {
      if Outstanding(db, id) {
        assert id in OutstandingIds(db, None);
      }
    }
    assert OutstandingIds(after, None) == {};
    forall s ensures Count(after, s) == Count(db, s) && Attention(after, s) == 0 {
      assert IdsIn(after, s) == IdsIn(db, s) && AttentionIn(after, s) == {};
    }
    forall again | Lists(again, OutstandingIds(after, None), after) ensures again == [] {
      RowsHaveIds(again, OutstandingIds(after, None));
    }
  }

  // ----- recovery and restored copies ---------------------------------------------------------

  predicate AllIn(db: Db, rows: seq<Id>, state: set<JobState>) {
    && (forall i :: 0 <= i < |rows| ==> rows[i] in db.jobs && db.jobs[rows[i]].state in state)
    && (forall i, j :: 0 <= i < j < |rows| ==> rows[i] != rows[j])
  }

  function Lost(job: Job, now: real): Job {
    if job.cancelRequested then job.(state := Cancelled, finished := Some(now), exitCode := None,
                                     reason := Some(ByOperator))
    else job.(state := Interrupted, finished := Some(now), exitCode := None, reason := Some(WorkerLost))
  }

  function LostEvent(id: Id, job: Job, now: real): Event {
    Event(id, now, Became(Lost(job, now).state), Lost(job, now).reason)
  }

  lemma LostOnce(db: Db, rows: seq<Id>, now: real)
    requires Sound(db) && rows != [] && AllIn(db, rows, {Running})
    ensures var id := rows[0];
            var next := db.(jobs := db.jobs[id := Lost(db.jobs[id], now)],
                            events := db.events + [LostEvent(id, db.jobs[id], now)]);
            && Finished(db, id, Interrupted, Some(WorkerLost), None, now) == Ok(next)
            && Sound(next) && AllIn(next, rows[1..], {Running}) && id !in rows[1..]
            && forall k :: k in rows[1..] ==> next.jobs[k] == db.jobs[k]
  {
    FinishKeeps(db, rows[0], Interrupted, Some(WorkerLost), None, now);
    forall i | 0 <= i < |rows[1..]| ensures rows[1..][i] == rows[i + 1] && rows[i + 1] != rows[0] {
    }
  }

  /** Recovery ends each running job once, as lost or as cancelled when that was asked for, and changes nothing else. */
  lemma {:induction false} RecoveredKeeps(db: Db, rows: seq<Id>, now: real)
    requires Sound(db) && AllIn(db, rows, {Running})
    ensures Sound(Recovered(db, rows, now))
    ensures Recovered(db, rows, now) == db.(jobs := Recovered(db, rows, now).jobs,
                                            events := Recovered(db, rows, now).events)
    ensures Recovered(db, rows, now).jobs.Keys == db.jobs.Keys
    ensures forall id :: id in db.jobs ==>
              Recovered(db, rows, now).jobs[id] == if id in rows then Lost(db.jobs[id], now) else db.jobs[id]
    ensures Recovered(db, rows, now).events ==
            db.events + seq(|rows|, i requires 0 <= i < |rows| => LostEvent(rows[i], db.jobs[rows[i]], now))
    decreases rows
  {
    if rows != [] {
      LostOnce(db, rows, now);
      var next := Finished(db, rows[0], Interrupted, Some(WorkerLost), None, now).value;
      RecoveredKeeps(next, rows[1..], now);
    }
  }

  function Shelved(job: Job, now: real): Job {
    job.(state := Interrupted, finished := Some(now), reason := Some(RestoredFrom(job.state)), cancelRequested := false)
  }

  lemma {:induction false} QuarantinedKeeps(db: Db, rows: seq<Id>, now: real)
    requires Sound(db) && AllIn(db, rows, {Queued, Running})
    ensures Sound(AllQuarantined(db, rows, now))
    ensures AllQuarantined(db, rows, now) ==
            db.(jobs := AllQuarantined(db, rows, now).jobs, events := AllQuarantined(db, rows, now).events)
    ensures AllQuarantined(db, rows, now).jobs.Keys == db.jobs.Keys
    ensures forall id :: id in db.jobs ==>
              AllQuarantined(db, rows, now).jobs[id] == if id in rows then Shelved(db.jobs[id], now) else db.jobs[id]
    ensures AllQuarantined(db, rows, now).events ==
            db.events + seq(|rows|, i requires 0 <= i < |rows| =>
              Event(rows[i], now, Became(Interrupted), Some(RestoredFrom(db.jobs[rows[i]].state))))
    decreases rows
  {
    if rows != [] {
      QuarantineKeeps(db, rows[0], now);
      forall i | 0 <= i < |rows[1..]| ensures rows[1..][i] == rows[i + 1] && rows[i + 1] != rows[0] {
      }
      QuarantinedKeeps(Quarantined(db, rows[0], now), rows[1..], now);
    }
  }

  /**
   * A prepared copy of a restored queue is inert and well formed: nothing in it is queued or running, no schedule is
   * enabled, finished jobs and the old log are untouched, exactly one interrupted event is added per formerly pending
   * job, and the log is again a faithful history.
   */
  lemma RestoredCopyIsInert(db: Db, rows: seq<Id>, now: real)
    requires Sound(db) && Covers(rows, PendingIds(db)) && forall i :: 0 <= i < |rows| ==> rows[i] in db.jobs
    ensures var copy := Disabled(AllQuarantined(db, rows, now));
            && Sound(copy) && PendingIds(copy) == {} && copy.acks == db.acks && copy.links == db.links
            && copy.jobs.Keys == db.jobs.Keys && copy.tasks.Keys == db.tasks.Keys
    ensures forall name :: name in db.tasks ==>
              Disabled(AllQuarantined(db, rows, now)).tasks[name] == db.tasks[name].(enabled := false)
    ensures forall id :: id in db.jobs ==>
              Disabled(AllQuarantined(db, rows, now)).jobs[id] ==
              (if db.jobs[id].state.Terminal() then db.jobs[id] else Shelved(db.jobs[id], now))
    ensures Disabled(AllQuarantined(db, rows, now)).events ==
            db.events + seq(|rows|, i requires 0 <= i < |rows| =>
              Event(rows[i], now, Became(Interrupted), Some(RestoredFrom(db.jobs[rows[i]].state))))
  {
    QuarantinedKeeps(db, rows, now);
    var before, copy := AllQuarantined(db, rows, now), Disabled(AllQuarantined(db, rows, now));
    forall id: Id ensures Replay(copy.events, id) == Stored(copy, id) {
      assert Replay(before.events, id) == Stored(before, id);
    }
    forall id | id in db.jobs ensures id in rows <==> db.jobs[id].state.Active() {
      assert id in PendingIds(db) <==> db.jobs[id].state.Active();
    }
    assert PendingIds(copy) == {};
  }
}
