/**
 * The notification cursor over the event log (notifications.py): small steps, any of which may be the last before a
 * crash.
 */
module Notifier {
  import opened Text
  import opened Tables
  import opened JobQueue
  import opened History

  /** The saved place in the log: whose log it is, and the last event dealt with. */
  datatype Cursor = Cursor(identity: Option<Id>, sequence: nat)

  /** Where one run stands between two file operations or sends; `short` says the batch is the last of its reading. */
  datatype Phase =
    | Idle
    | Storing(position: Cursor, checking: bool)
    | Loaded
    | Positioned(position: Cursor)
    | Batch(position: Cursor, rows: seq<nat>, sent: bool, short: bool)
    | Closing(position: Cursor)

  /**
   * `cursor` is the state file, absent before the first use. Two histories: `start` is the event number after which
   * notification was set to begin, `accepted` the event numbers the webhook took since then, in the order it took them.
   */
  datatype State = State(cursor: Option<Cursor>, phase: Phase, start: nat, accepted: seq<nat>)

  const FRESH := State(None, Idle, 0, [])
  const BATCH := 20

  predicate HexId(id: Id) {
    |id| == 16 && forall i :: 0 <= i < 16 ==> '0' <= id[i] <= '9' || 'a' <= id[i] <= 'f'
  }

  predicate ValidCursor(c: Cursor) {
    c.identity.None? || HexId(c.identity.value)
  }

  function Position(events: seq<Event>): Cursor {
    Cursor(if events == [] then None else Some(events[0].job), |events|)
  }

  /** The saved cursor belongs to another log than the one now found, or lies beyond its end. */
  predicate Replaced(saved: Cursor, position: Cursor) {
    (saved.identity.Some? && saved.identity != position.identity) || saved.sequence > position.sequence
  }

  predicate AsksAttention(e: Event) {
    e.mark.Became? && e.mark.state.Unsuccessful()
  }

  /** Event number k asks for attention. */
  predicate Asking(events: seq<Event>, k: nat) {
    1 <= k <= |events| && AsksAttention(events[k - 1])
  }

  /** The numbers in (from, to] of the events that ask for attention, ascending. */
  function Attentions(events: seq<Event>, from: nat, last: nat): (r: seq<nat>)
    ensures forall i :: 0 <= i < |r| ==> from < r[i] <= last && Asking(events, r[i])
    ensures forall k: nat :: from < k <= last && Asking(events, k) ==> k in r
    ensures forall i, j :: 0 <= i < j < |r| ==> r[i] < r[j]
    decreases last
  {
    if last <= from then []
    else
      var before := Attentions(events, from, last - 1);
      if Asking(events, last) then before + [last] else before
  }

  function FirstRows(all: seq<nat>): seq<nat> {
    if |all| <= BATCH then all else all[..BATCH]
  }

  // ----- the steps ------------------------------------------------------------------

  datatype Label = Configure | Start | Save | Look | Branch | Accept | Lose | Reject | Advance | Close | Crash

  predicate Enabled(s: State, l: Label) {
    match l
    case Configure => s.phase.Idle?
    case Start => s.phase.Idle?
    case Save => s.phase.Storing?
    case Look => s.phase.Loaded? && s.cursor.Some?
    case Branch => s.phase.Positioned? && s.cursor.Some?
    case Accept => s.phase.Batch? && s.phase.rows != [] && !s.phase.sent
    case Lose => s.phase.Batch? && s.phase.rows != [] && !s.phase.sent
    case Reject => s.phase.Batch? && s.phase.rows != [] && !s.phase.sent
    case Advance => s.phase.Batch? && s.phase.rows != [] && s.phase.sent
    case Close => s.phase.Closing?
    case Crash => true
  }

  /** One step; `events` is the log at that moment. */
  function Next(s: State, events: seq<Event>, l: Label): State
    requires Enabled(s, l)
  {
    match l
    case Configure => s.(phase := Storing(Position(events), false))
    case Start => if s.cursor.None? then s.(phase := Storing(Position(events), true)) else s.(phase := Loaded)
    case Save => State(Some(s.phase.position), if s.phase.checking then Loaded else Idle, s.phase.position.sequence, [])
    case Look => if ValidCursor(s.cursor.value) then s.(phase := Positioned(Position(events))) else s.(phase := Idle)
    case Branch => s.(phase := Chosen(s.cursor.value, s.phase.position, events))
    // The webhook takes the event; it takes it but the answer is lost; it does not take it.
    case Accept => s.(phase := s.phase.(sent := true), accepted := s.accepted + [s.phase.rows[0]])
    case Lose => s.(phase := Idle, accepted := s.accepted + [s.phase.rows[0]])
    case Reject => s.(phase := Idle)
    case Advance =>
      s.(cursor := Some(Cursor(s.phase.position.identity, s.phase.rows[0])),
         phase := Remaining(s.phase.position, s.phase.rows[1..], s.phase.short))
    case Close => s.(cursor := Some(s.phase.position), phase := Idle)
    case Crash => s.(phase := Idle)
  }

  /** A replaced log is skipped to its end; otherwise the next rows are read, if the log grew. */
  function Chosen(saved: Cursor, position: Cursor, events: seq<Event>): Phase {
    if Replaced(saved, position) then Closing(position)
    else if position.sequence > saved.sequence then
      var rows := FirstRows(Attentions(events, saved.sequence, position.sequence));
      Remaining(position, rows, |rows| < BATCH)
    else Idle
  }

  /** After its last row a short batch moves on to the position that was read. */
  function Remaining(position: Cursor, rows: seq<nat>, short: bool): Phase {
    if rows != [] then Batch(position, rows, false, short) else if short then Closing(position) else Idle
  }

  // ----- the invariant ------------------------------------------------------------------

  /** A cursor that was taken from this log, which may have grown since. */
  predicate Belongs(c: Cursor, events: seq<Event>) {
    && c.sequence <= |events|
    && c.identity == if c.sequence == 0 then None else Some(events[0].job)
  }

  ghost predicate Quiet(events: seq<Event>, from: nat, before: nat) {
    forall k: nat :: from < k < before ==> !Asking(events, k)
  }

  /** Everything that asked for attention between the start and the cursor was accepted. */
  ghost predicate Delivered(s: State, events: seq<Event>)
    requires s.cursor.Some?
  {
    forall k: nat :: s.start < k <= s.cursor.value.sequence && Asking(events, k) ==> k in s.accepted
  }

  /** Acceptances come in log order, and at most the first event after the cursor may have been accepted already. */
  ghost predicate Ordered(s: State, events: seq<Event>)
    requires s.cursor.Some?
  {
    && (forall i, j :: 0 <= i < j < |s.accepted| ==> s.accepted[i] <= s.accepted[j])
    && (forall a :: a in s.accepted ==> s.start < a && Asking(events, a))
    && (forall a :: a in s.accepted ==> a <= s.cursor.value.sequence || Quiet(events, s.cursor.value.sequence, a))
  }

  /** The rows still to send: everything that asks for attention from the cursor up to the last of them, in order. */
  ghost predicate Pending(c: Cursor, position: Cursor, rows: seq<nat>, short: bool, events: seq<Event>) {
    && (forall i :: 0 <= i < |rows| ==> c.sequence < rows[i] <= position.sequence && Asking(events, rows[i]))
    && (forall i, j :: 0 <= i < j < |rows| ==> rows[i] < rows[j])
    && (rows != [] ==> forall k: nat :: c.sequence < k <= rows[|rows| - 1] && Asking(events, k) ==> k in rows)
    && (short ==> forall k: nat :: c.sequence < k <= position.sequence && Asking(events, k) ==> k in rows)
  }

  ghost predicate PhaseSound(s: State, events: seq<Event>) {
    match s.phase
    case Idle => true
    case Storing(p, _) => Belongs(p, events)
    case Loaded => s.cursor.Some?
    case Positioned(p) => s.cursor.Some? && Belongs(p, events) && s.cursor.value.sequence <= p.sequence
    case Batch(p, rows, sent, short) =>
      && s.cursor.Some? && Belongs(p, events) && rows != [] && Pending(s.cursor.value, p, rows, short, events)
      && (sent ==> rows[0] in s.accepted)
    case Closing(p) =>
      s.cursor.Some? && Belongs(p, events) && s.cursor.value.sequence <= p.sequence &&
          Pending(s.cursor.value, p, [], true, events)
  }

  ghost predicate Inv(s: State, events: seq<Event>) {
    && (s.cursor.None? ==> s.accepted == [])
    && (s.cursor.Some? ==> s.start <= s.cursor.value.sequence && Belongs(s.cursor.value, events))
    && (s.cursor.Some? ==> Delivered(s, events) && Ordered(s, events))
    && PhaseSound(s, events)
  }

  lemma FreshIsSound(events: seq<Event>)
    ensures Inv(FRESH, events)
  {
  }

  lemma AskingStays(events: seq<Event>, more: seq<Event>)
    requires events <= more
    ensures forall k: nat :: k <= |events| ==> (Asking(events, k) <==> Asking(more, k))
  {
    forall k: nat | k <= |events| ensures Asking(events, k) <==> Asking(more, k) {
      if 1 <= k {
        assert events[k - 1] == more[k - 1];
      }
    }
  }

  /** The log growing under a run, whatever it is doing, disturbs nothing. */
  lemma GrowthKeeps(s: State, events: seq<Event>, more: seq<Event>)
    requires Inv(s, events) && events <= more
    ensures Inv(s, more)
  {
    AskingStays(events, more);
    assert events != [] ==> events[0] == more[0];
  }

  /** The first rows of an ascending list hold everything in it up to their last. */
  lemma FirstRowsAreFirst(all: seq<nat>, k: nat)
    requires forall i, j :: 0 <= i < j < |all| ==> all[i] < all[j]
    requires k in all && FirstRows(all) != [] && k <= FirstRows(all)[|FirstRows(all)| - 1]
    ensures k in FirstRows(all)
  {
    var i :| 0 <= i < |all| && all[i] == k;
    assert i < |FirstRows(all)| && FirstRows(all)[i] == k;
  }

  lemma FirstOfAllPending(all: seq<nat>, c: Cursor, p: Cursor, events: seq<Event>)
    requires forall i :: 0 <= i < |all| ==> c.sequence < all[i] <= p.sequence && Asking(events, all[i])
    requires forall k: nat :: c.sequence < k <= p.sequence && Asking(events, k) ==> k in all
    requires forall i, j :: 0 <= i < j < |all| ==> all[i] < all[j]
    ensures Pending(c, p, FirstRows(all), |FirstRows(all)| < BATCH, events)
  {
    var rows := FirstRows(all);
    forall k: nat | rows != [] && c.sequence < k <= rows[|rows| - 1] && Asking(events, k) ensures k in rows {
      FirstRowsAreFirst(all, k);
    }
  }

  lemma FirstRowsArePending(c: Cursor, p: Cursor, events: seq<Event>)
    requires c.sequence < p.sequence
    ensures var rows := FirstRows(Attentions(events, c.sequence, p.sequence));
            Pending(c, p, rows, |rows| < BATCH, events)
  {
    FirstOfAllPending(Attentions(events, c.sequence, p.sequence), c, p, events);
  }

  /** While the log is not replaced, a check never takes the branch that skips to its end. */
  lemma ResetNeverFires(s: State, events: seq<Event>)
    requires Inv(s, events) && s.phase.Positioned?
    ensures !Replaced(s.cursor.value, s.phase.position)
  {
  }

  lemma AcceptedOnce(s: State, events: seq<Event>)
    requires Inv(s, events) && s.phase.Batch?
    ensures forall i :: 0 <= i < |s.accepted| ==> s.accepted[i] <= s.phase.rows[0]
    ensures Quiet(events, s.cursor.value.sequence, s.phase.rows[0])
  {
    forall i | 0 <= i < |s.accepted| ensures s.accepted[i] <= s.phase.rows[0] {
      assert s.accepted[i] in s.accepted;
    }
  }

  lemma RestIsPending(c: Cursor, p: Cursor, rows: seq<nat>, short: bool, events: seq<Event>)
    requires rows != [] && Pending(c, p, rows, short, events)
    ensures Pending(Cursor(p.identity, rows[0]), p, rows[1..], short, events)
  {
    var rest := rows[1..];
    forall k: nat | rows[0] < k && k in rows ensures k in rest {
      var i :| 0 <= i < |rows| && rows[i] == k;
      assert rest[i - 1] == k;
    }
    assert rest != [] ==> rest[|rest| - 1] == rows[|rows| - 1];
  }

  lemma AdvanceKeeps(s: State, events: seq<Event>)
    requires Inv(s, events) && Enabled(s, Advance)
    ensures Inv(Next(s, events, Advance), events)
  {
    var p, rows, next := s.phase.position, s.phase.rows, Next(s, events, Advance);
    AcceptedOnce(s, events);
    RestIsPending(s.cursor.value, p, rows, s.phase.short, events);
    forall k: nat | s.start < k <= rows[0] && Asking(events, k) ensures k in s.accepted {
    }
    forall a | a in s.accepted ensures a <= rows[0] {
      var i :| 0 <= i < |s.accepted| && s.accepted[i] == a;
    }
    assert Delivered(next, events) && Ordered(next, events);
    assert PhaseSound(next, events);
  }

  lemma BranchKeeps(s: State, events: seq<Event>)
    requires Inv(s, events) && Enabled(s, Branch)
    ensures Inv(Next(s, events, Branch), events)
  {
    ResetNeverFires(s, events);
    if s.phase.position.sequence > s.cursor.value.sequence {
      FirstRowsArePending(s.cursor.value, s.phase.position, events);
    }
  }

  /** One more acceptance of the row that is first past the cursor. */
  lemma AcceptanceKeeps(s: State, t: State, events: seq<Event>)
    requires Inv(s, events) && s.phase.Batch? && t == s.(phase := t.phase, accepted := s.accepted + [s.phase.rows[0]])
    ensures Delivered(t, events) && Ordered(t, events)
  {
    AcceptedOnce(s, events);
    forall k: nat | s.start < k <= s.cursor.value.sequence && Asking(events, k) ensures k in t.accepted {
      assert k in s.accepted;
    }
  }

  lemma AcceptKeeps(s: State, events: seq<Event>)
    requires Inv(s, events) && Enabled(s, Accept)
    ensures Inv(Next(s, events, Accept), events)
  {
    AcceptanceKeeps(s, Next(s, events, Accept), events);
  }

  lemma LoseKeeps(s: State, events: seq<Event>)
    requires Inv(s, events) && Enabled(s, Lose)
    ensures Inv(Next(s, events, Lose), events)
  {
    AcceptanceKeeps(s, Next(s, events, Lose), events);
  }

  lemma SaveKeeps(s: State, events: seq<Event>)
    requires Inv(s, events) && Enabled(s, Save)
    ensures Inv(Next(s, events, Save), events)
  {
  }

  lemma CloseKeeps(s: State, events: seq<Event>)
    requires Inv(s, events) && Enabled(s, Close)
    ensures Inv(Next(s, events, Close), events)
  {
  }

  /** Steps that write and send nothing. */
  lemma ReadingKeeps(s: State, events: seq<Event>, l: Label)
    requires Inv(s, events) && Enabled(s, l) && l in {Configure, Start, Look, Reject, Crash}
    ensures Inv(Next(s, events, l), events)
  {
  }

  /** Every step, failed send and crash keeps the invariant. */
  lemma StepKeeps(s: State, events: seq<Event>, l: Label)
    requires Inv(s, events) && Enabled(s, l)
    ensures Inv(Next(s, events, l), events)
  {
    if l == Branch {
      BranchKeeps(s, events);
    } else if l == Accept {
      AcceptKeeps(s, events);
    } else if l == Lose {
      LoseKeeps(s, events);
    } else if l == Advance {
      AdvanceKeeps(s, events);
    } else if l == Save {
      SaveKeeps(s, events);
    } else if l == Close {
      CloseKeeps(s, events);
    } else {
      ReadingKeeps(s, events, l);
    }
  }

  // ----- whole runs ------------------------------------------------------------------------

  /** A step and the log it found. */
  datatype Moment = Moment(events: seq<Event>, step: Label)

  /** Each step is possible where the ones before it lead. */
  predicate Follows(s: State, run: seq<Moment>)
    decreases |run|, 0
  {
    run == [] || (Follows(s, run[..|run| - 1]) && Enabled(After(s, run[..|run| - 1]), run[|run| - 1].step))
  }

  function After(s: State, run: seq<Moment>): State
    requires Follows(s, run)
    decreases |run|, 1
  {
    if run == [] then s
    else Next(After(s, run[..|run| - 1]), run[|run| - 1].events, run[|run| - 1].step)
  }

  /** The log only grows: the queue is not replaced during the run. */
  predicate Grows(log: seq<Event>, run: seq<Moment>) {
    && (forall i :: 0 <= i < |run| ==> log <= run[i].events)
    && (forall i, j :: 0 <= i < j < |run| ==> run[i].events <= run[j].events)
  }

  function LastLog(log: seq<Event>, run: seq<Moment>): seq<Event> {
    if run == [] then log else run[|run| - 1].events
  }

  lemma {:induction false} RunKeeps(s: State, log: seq<Event>, run: seq<Moment>)
    requires Inv(s, log) && Follows(s, run) && Grows(log, run)
    ensures Inv(After(s, run), LastLog(log, run))
    decreases run
  {
    if run != [] {
      var n := |run| - 1;
      RunKeeps(s, log, run[..n]);
      var before := After(s, run[..n]);
      GrowthKeeps(before, LastLog(log, run[..n]), run[n].events);
      StepKeeps(before, run[n].events, run[n].step);
    }
  }

  /**
   * Whatever sends fail and wherever runs crash: every event that asks for attention between the start and the saved
   * cursor was accepted, acceptances are in log order, nothing before the start was sent, and no run is about to skip.
   */
  lemma DeliveryTheorem(log: seq<Event>, run: seq<Moment>)
    requires Follows(FRESH, run) && Grows(log, run)
    ensures var s := After(FRESH, run);
            var events := LastLog(log, run);
            && (s.cursor.Some? ==> forall k: nat :: s.start < k <= s.cursor.value.sequence && Asking(events, k) ==>
                k in s.accepted)
            && (forall i, j :: 0 <= i < j < |s.accepted| ==> s.accepted[i] <= s.accepted[j])
            && (forall a :: a in s.accepted ==> s.start < a && Asking(events, a))
            && (s.phase.Positioned? ==> !Replaced(s.cursor.value, s.phase.position))
  {
    FreshIsSound(log);
    RunKeeps(FRESH, log, run);
  }

  /**
   * Only the event in flight can be sent twice: what is about to be sent was accepted before only if it is the latest.
   */
  lemma OnlyTheEventInFlightRepeats(log: seq<Event>, run: seq<Moment>)
    requires Follows(FRESH, run) && Grows(log, run) && After(FRESH, run).phase.Batch? && !After(FRESH, run).phase.sent
    ensures var s := After(FRESH, run);
            && Quiet(LastLog(log, run), s.cursor.value.sequence, s.phase.rows[0])
            && (s.phase.rows[0] in s.accepted ==> s.accepted[|s.accepted| - 1] == s.phase.rows[0])
            && (s.phase.rows[0] !in s.accepted ==> forall a :: a in s.accepted ==> a < s.phase.rows[0])
  {
    FreshIsSound(log);
    RunKeeps(FRESH, log, run);
    var s := After(FRESH, run);
    AcceptedOnce(s, LastLog(log, run));
    if s.phase.rows[0] in s.accepted {
      var i :| 0 <= i < |s.accepted| && s.accepted[i] == s.phase.rows[0];
      assert s.accepted[i] <= s.accepted[|s.accepted| - 1];
    } else {
      forall a | a in s.accepted ensures a < s.phase.rows[0] {
        var i :| 0 <= i < |s.accepted| && s.accepted[i] == a;
      }
    }
  }

  predicate Reconfigures(run: seq<Moment>) {
    exists i :: 0 <= i < |run| && run[i].step == Save
  }

  /** Against an earlier state: the cursor has not gone back, and what was accepted since lies beyond where it was. */
  ghost predicate Settled(s: State, end: State)
    requires s.cursor.Some?
  {
    && end.cursor.Some? && s.cursor.value.sequence <= end.cursor.value.sequence && end.start == s.start
    && |s.accepted| <= |end.accepted| && end.accepted[..|s.accepted|] == s.accepted
    && forall i :: |s.accepted| <= i < |end.accepted| ==> s.cursor.value.sequence < end.accepted[i]
  }

  lemma SettledStep(s: State, now: State, events: seq<Event>, l: Label)
    requires s.cursor.Some? && Settled(s, now) && Inv(now, events) && Enabled(now, l) && l != Save
    ensures Settled(s, Next(now, events, l))
  {
    if l == Branch {
      ResetNeverFires(now, events);
    }
  }

  /** Until it is configured anew, the cursor never goes back and nothing at or below it is sent again. */
  lemma {:induction false} SettledIsSettled(s: State, log: seq<Event>, run: seq<Moment>)
    requires Inv(s, log) && s.cursor.Some? && Follows(s, run) && Grows(log, run) && !Reconfigures(run)
    ensures Settled(s, After(s, run))
    decreases run
  {
    if run != [] {
      var n := |run| - 1;
      assert forall i :: 0 <= i < n ==> run[..n][i] == run[i];
      SettledIsSettled(s, log, run[..n]);
      RunKeeps(s, log, run[..n]);
      GrowthKeeps(After(s, run[..n]), LastLog(log, run[..n]), run[n].events);
      assert run[n].step != Save;
      SettledStep(s, After(s, run[..n]), run[n].events, run[n].step);
    }
  }

  /** With a faithful log, different events that ask for attention are of different jobs. */
  lemma DistinctJobs(db: Db, a: nat, b: nat)
    requires Sound(db) && Asking(db.events, a) && Asking(db.events, b) && a != b
    ensures db.events[a - 1].job != db.events[b - 1].job
  {
    var id := db.events[a - 1].job;
    assert Replay(db.events, id) == Stored(db, id);
    HappensOnce(db.events, id);
    if a < b {
      assert !(Ends(db.events[a - 1], id) && Ends(db.events[b - 1], id));
    } else {
      assert !(Ends(db.events[a - 1], id) && Ends(db.events[b - 1], id));
    }
  }

  /** So the operator hears of a job at most once, but for the event in flight. */
  lemma OncePerJob(db: Db, log: seq<Event>, run: seq<Moment>, a: nat, b: nat)
    requires Sound(db) && Follows(FRESH, run) && Grows(log, run) && LastLog(log, run) == db.events
    requires a in After(FRESH, run).accepted && b in After(FRESH, run).accepted && a != b
    ensures 1 <= a <= |db.events| && 1 <= b <= |db.events| && db.events[a - 1].job != db.events[b - 1].job
  {
    DeliveryTheorem(log, run);
    DistinctJobs(db, a, b);
  }

  // ----- the check itself -----------------------------------------------------------------------

  datatype Answer = Taken | TakenButLost | Refused

  /** A run of steps from s to `end` that finds no other logs than these. */
  ghost predicate Leads(s: State, run: seq<Moment>, end: State, logs: set<seq<Event>>) {
    Follows(s, run) && After(s, run) == end && forall i :: 0 <= i < |run| ==> run[i].events in logs
  }

  lemma NoStep(s: State, logs: set<seq<Event>>)
    ensures Leads(s, [], s, logs)
  {
  }

  lemma Then(s: State, run: seq<Moment>, now: State, logs: set<seq<Event>>, events: seq<Event>, l: Label)
    requires Leads(s, run, now, logs) && Enabled(now, l) && events in logs
    ensures Leads(s, run + [Moment(events, l)], Next(now, events, l), logs)
  {
    assert (run + [Moment(events, l)])[..|run|] == run;
  }

  /** The saved identity is none, or looks like the id of a job. */
  predicate IsJobId(identity: Option<Id>) {
    identity.Some? ==> |identity.value| == 16 && forall c :: c in identity.value ==> c in "0123456789abcdef"
  }

  lemma ValidIsJobId(c: Cursor)
    ensures ValidCursor(c) <==> IsJobId(c.identity)
  {
    forall x: char ensures x in "0123456789abcdef" <==> '0' <= x <= '9' || 'a' <= x <= 'f' {
      HexChar(x);
    }
    if c.identity.Some? && HexId(c.identity.value) {
      forall x | x in c.identity.value ensures x in "0123456789abcdef" {
        var i :| 0 <= i < 16 && c.identity.value[i] == x;
      }
    }
    if c.identity.Some? && IsJobId(c.identity) {
      forall i | 0 <= i < 16 ensures c.identity.value[i] in "0123456789abcdef" {
        assert c.identity.value[i] in c.identity.value;
      }
    }
  }

  lemma HexChar(x: char)
    ensures x in "0123456789abcdef" <==> '0' <= x <= '9' || 'a' <= x <= 'f'
  {
    var digits := "0123456789abcdef";
    if '0' <= x <= '9' {
      assert digits[x as int - '0' as int] == x;
    }
    if 'a' <= x <= 'f' {
      assert digits[10 + (x as int - 'a' as int)] == x;
    }
  }

  /** The notifier between runs is its state file; the other fields are the histories of the model. */
  class Checker {
    var cursor: Option<Cursor>
    ghost var now: State
    ghost var run: seq<Moment>

    constructor ()
      ensures cursor.None? && now == FRESH && run == []
    {
      cursor, now, run := None, FRESH, [];
    }

    /** The state file is as the steps taken so far leave it. */
    ghost predicate Valid(s: State, logs: set<seq<Event>>)
      reads this
    {
      cursor == now.cursor && Leads(s, run, now, logs)
    }

    /** Notes a step just taken; `file` is what it wrote. */
    method Step(file: Option<Cursor>, ghost events: seq<Event>, ghost l: Label, ghost s: State,
                ghost logs: set<seq<Event>>)
      requires Valid(s, logs) && Enabled(now, l) && events in logs && file == Next(now, events, l).cursor
      modifies this
      ensures Valid(s, logs) && now == Next(old(now), events, l)
    {
      Then(s, run, now, logs, events, l);
      cursor, now, run := file, Next(now, events, l), run + [Moment(events, l)];
    }

    method Configure(first: seq<Event>)
      requires cursor == now.cursor && now.phase.Idle?
      modifies this
      ensures Valid(old(now), {first})
      ensures now == State(Some(Cursor(if first == [] then None else Some(first[0].job), |first|)), Idle, |first|, [])
    {
      ghost var s, logs := now, {first};
      run := [];
      NoStep(s, logs);
      Step(cursor, first, Label.Configure, s, logs);
      Step(Some(Position(first)), first, Save, s, logs);
    }

    /**
     * One check of the queue. `first`, `look` and `branch` are the logs it finds at its three readings, `answers` what
     * the webhook does with each send. It is a run of the steps above, and unless it fails it gets as far as the
     * position it read or through a full batch of 20. Without a state file it starts from the end of the log it finds
     * first. A state file whose identity is not 16 lower-case hexadecimal
     * digits makes it fail before anything is sent; apart from that only a send that fails does.
     */
    method Check(first: seq<Event>, look: seq<Event>, branch: seq<Event>, answers: nat -> Answer)
      returns (sent: nat, ok: bool)
      requires cursor == now.cursor && now.phase.Idle?
      modifies this
      ensures Valid(old(now), {first, look, branch}) && now.phase.Idle?
      ensures sent <= 20 && (ok ==> sent == 20 || (cursor.Some? && cursor.value.sequence == |look|))
      ensures ok && old(cursor).Some? ==> |now.accepted| == |old(now).accepted| + sent
      ensures now.start == if old(cursor).None? then |first| else old(now).start
      ensures old(cursor).Some? && !IsJobId(old(cursor).value.identity) ==>
                !ok && sent == 0 && cursor == old(cursor) && now.accepted == old(now).accepted
      ensures old(cursor).Some? && IsJobId(old(cursor).value.identity) && (forall i: nat :: answers(i) == Taken) ==> ok
    {
      ghost var s, logs := now, {first, look, branch};
      run, sent, ok := [], 0, false;
      NoStep(s, logs);
      Step(cursor, first, Start, s, logs);
      if cursor.None? {
        Step(Some(Position(first)), first, Save, s, logs);
      }
      ValidIsJobId(cursor.value);
      Step(cursor, look, Label.Look, s, logs);
      if ValidCursor(cursor.value) {
        sent, ok := Deliver(Position(look), branch, answers, s, logs);
      }
    }

    method Deliver(position: Cursor, events: seq<Event>, answers: nat -> Answer, ghost s: State,
                   ghost logs: set<seq<Event>>)
      returns (sent: nat, ok: bool)
      requires Valid(s, logs) && events in logs && cursor.Some? && now.phase == Positioned(position)
      modifies this
      ensures Valid(s, logs) && now.phase.Idle?
      ensures sent <= 20 && (ok ==> sent == 20 || (cursor.Some? && cursor.value.sequence == position.sequence))
      ensures now.start == old(now).start && (ok ==> |now.accepted| == |old(now).accepted| + sent)
      ensures (forall i: nat :: answers(i) == Taken) ==> ok
    {
      Step(cursor, events, Branch, s, logs);
      sent, ok := 0, true;
      if Replaced(cursor.value, position) {
        Step(Some(position), events, Close, s, logs);
      } else if position.sequence > cursor.value.sequence {
        var rows := FirstRows(Attentions(events, cursor.value.sequence, position.sequence));
        sent, ok := SendRows(position, rows, events, answers, s, logs);
      }
    }

    /** The batch of one check: the cursor is saved after every send, and moves to the position after a short batch. */
    method SendRows(position: Cursor, rows: seq<nat>, events: seq<Event>, answers: nat -> Answer, ghost s: State,
                    ghost logs: set<seq<Event>>)
      returns (sent: nat, ok: bool)
      requires Valid(s, logs) && events in logs && now.phase == Remaining(position, rows, |rows| < BATCH) &&
               |rows| <= BATCH
      modifies this
      ensures Valid(s, logs) && now.phase.Idle?
      ensures sent <= 20 && (ok ==> sent == 20 || cursor == Some(position))
      ensures now.start == old(now).start && (ok ==> |now.accepted| == |old(now).accepted| + sent)
      ensures (forall i: nat :: answers(i) == Taken) ==> ok
    {
      sent := 0;
      while sent < |rows|
        invariant 0 <= sent <= |rows| && Valid(s, logs)
        invariant now.phase == Remaining(position, rows[sent..], |rows| < BATCH)
        invariant now.start == old(now).start && |now.accepted| == |old(now).accepted| + sent
      {
        assert rows[sent..][1..] == rows[sent + 1..];
        match answers(sent) {
          case Refused =>
            Step(cursor, events, Reject, s, logs);
            return sent, false;
          case TakenButLost =>
            Step(cursor, events, Lose, s, logs);
            return sent, false;
          case Taken =>
            Step(cursor, events, Accept, s, logs);
            Step(Some(Cursor(position.identity, rows[sent])), events, Advance, s, logs);
            sent := sent + 1;
        }
      }
      if |rows| < BATCH {
        Step(Some(position), events, Close, s, logs);
      }
      ok := true;
    }
  }
}
