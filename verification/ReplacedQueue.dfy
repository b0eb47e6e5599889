/** What the notifier never sends after its queue was replaced by another one, whether it notices or not. */
module ReplacedQueue {
  import opened Text
  import opened Tables
  import opened JobQueue
  import opened History
  import opened Notifier

  /** The saved cursor was taken from some log. */
  predicate Taken(c: Cursor) {
    c.identity.None? <==> c.sequence == 0
  }

  /** The i-th step reads this position of the log. */
  predicate Reads(run: seq<Moment>, i: nat, p: Cursor) {
    i < |run| && run[i].step == Look && p == Position(run[i].events)
  }

  ghost predicate Looked(run: seq<Moment>, p: Cursor) {
    exists i: nat :: Reads(run, i, p)
  }

  /** What was accepted since the state `s`. */
  function Since(s: State, t: State): seq<nat>
    requires s.accepted <= t.accepted
  {
    t.accepted[|s.accepted|..]
  }

  /** Nothing has been decided about the other log yet: the cursor is still the old one, nothing was sent. */
  ghost predicate Undecided(s: State, t: State, events: seq<Event>, run: seq<Moment>)
    requires s.cursor.Some?
  {
    && t.cursor == s.cursor && t.accepted == s.accepted
    && match t.phase
       case Idle => true
       case Storing(_, _) => true
       case Loaded => true
       case Positioned(p) => Belongs(p, events) && Looked(run, p)
       case Closing(p) => Belongs(p, events) && Looked(run, p) && Replaced(s.cursor.value, p)
       case Batch(_, _, _, _) => false
  }

  /** The state as if notification of the other log had been set to begin after event number `skip`. */
  function Rebased(s: State, t: State, skip: nat): State
    requires s.accepted <= t.accepted
  {
    State(t.cursor, t.phase, skip, Since(s, t))
  }

  /** One reading decides: recognised as another log, all of it is skipped; otherwise what the old cursor had passed. */
  ghost predicate Decides(s: State, skip: nat, run: seq<Moment>)
    requires s.cursor.Some?
  {
    exists i: nat, p: Cursor :: Reads(run, i, p) &&
      skip == if Replaced(s.cursor.value, p) then p.sequence else s.cursor.value.sequence
  }

  ghost predicate Decided(s: State, t: State, events: seq<Event>, run: seq<Moment>, skip: nat)
    requires s.cursor.Some?
  {
    s.accepted <= t.accepted && t.cursor.Some? && Inv(Rebased(s, t, skip), events) && Decides(s, skip, run)
  }

  ghost predicate Follower(s: State, t: State, events: seq<Event>, run: seq<Moment>)
    requires s.cursor.Some?
  {
    Undecided(s, t, events, run) || exists skip: nat :: Decided(s, t, events, run, skip)
  }

  lemma LookedStays(run: seq<Moment>, m: Moment, p: Cursor)
    requires Looked(run, p)
    ensures Looked(run + [m], p)
  {
    var i: nat :| Reads(run, i, p);
    assert (run + [m])[i] == run[i] && Reads(run + [m], i, p);
  }

  lemma DecidesStays(s: State, skip: nat, run: seq<Moment>, m: Moment)
    requires s.cursor.Some? && Decides(s, skip, run)
    ensures Decides(s, skip, run + [m])
  {
    var i: nat, p: Cursor :| Reads(run, i, p) &&
      skip == if Replaced(s.cursor.value, p) then p.sequence else s.cursor.value.sequence;
    assert (run + [m])[i] == run[i] && Reads(run + [m], i, p);
  }

  /** The log may grow meanwhile. */
  lemma GrowthFollows(s: State, t: State, events: seq<Event>, more: seq<Event>, run: seq<Moment>)
    requires s.cursor.Some? && Follower(s, t, events, run) && events <= more
    ensures Follower(s, t, more, run)
  {
    if Undecided(s, t, events, run) {
      assert events != [] ==> events[0] == more[0];
      assert Undecided(s, t, more, run);
    } else {
      var skip: nat :| Decided(s, t, events, run, skip);
      GrowthKeeps(Rebased(s, t, skip), events, more);
      assert Decided(s, t, more, run, skip);
    }
  }

  /** A cursor that is not seen to be of another log is taken to belong to this one. */
  lemma UnseenBelongs(c: Cursor, p: Cursor, events: seq<Event>)
    requires Taken(c) && Belongs(p, events) && !Replaced(c, p)
    ensures Belongs(c, events) && c.sequence <= p.sequence
  {
  }

  lemma FreshStart(c: Cursor, phase: Phase, events: seq<Event>)
    requires Belongs(c, events)
    requires phase.Idle? ||
             (phase.Positioned? && Belongs(phase.position, events) && c.sequence <= phase.position.sequence)
    ensures Inv(State(Some(c), phase, c.sequence, []), events)
  {
  }

  lemma BranchFollows(s: State, t: State, events: seq<Event>, run: seq<Moment>)
    requires s.cursor.Some? && Taken(s.cursor.value) && Undecided(s, t, events, run) && Notifier.Enabled(t, Branch)
    ensures Follower(s, Next(t, events, Branch), events, run + [Moment(events, Branch)])
  {
    var c, p, n := s.cursor.value, t.phase.position, Next(t, events, Branch);
    var longer := run + [Moment(events, Branch)];
    LookedStays(run, Moment(events, Branch), p);
    if Replaced(c, p) {
      assert Undecided(s, n, events, longer);
    } else {
      UnseenBelongs(c, p, events);
      var base := State(Some(c), t.phase, c.sequence, []);
      FreshStart(c, t.phase, events);
      BranchKeeps(base, events);
      assert Rebased(s, n, c.sequence) == Next(base, events, Branch);
      var i: nat :| Reads(longer, i, p);
      assert Decides(s, c.sequence, longer);
      assert Decided(s, n, events, longer, c.sequence);
    }
  }

  lemma CloseFollows(s: State, t: State, events: seq<Event>, run: seq<Moment>)
    requires s.cursor.Some? && Undecided(s, t, events, run) && Notifier.Enabled(t, Close)
    ensures Follower(s, Next(t, events, Close), events, run + [Moment(events, Close)])
  {
    var p, n, longer := t.phase.position, Next(t, events, Close), run + [Moment(events, Close)];
    LookedStays(run, Moment(events, Close), p);
    var i: nat :| Reads(longer, i, p);
    FreshStart(p, Idle, events);
    assert Rebased(s, n, p.sequence) == State(Some(p), Idle, p.sequence, []);
    assert Decided(s, n, events, longer, p.sequence);
  }

  lemma UndecidedStep(s: State, t: State, events: seq<Event>, run: seq<Moment>, l: Label)
    requires s.cursor.Some? && Taken(s.cursor.value) && Undecided(s, t, events, run) && Notifier.Enabled(t, l) &&
             l != Save
    ensures Follower(s, Next(t, events, l), events, run + [Moment(events, l)])
  {
    var longer := run + [Moment(events, l)];
    if l == Branch {
      BranchFollows(s, t, events, run);
    } else if l == Close {
      CloseFollows(s, t, events, run);
    } else {
      if l == Look {
        assert longer[|run|] == Moment(events, l) && Reads(longer, |run|, Position(events));
        assert Looked(longer, Position(events));
      }
      assert Undecided(s, Next(t, events, l), events, longer);
    }
  }

  lemma RebasedStep(s: State, t: State, events: seq<Event>, l: Label, skip: nat)
    requires s.accepted <= t.accepted && Notifier.Enabled(t, l) && l != Save
    ensures Notifier.Enabled(Rebased(s, t, skip), l) && s.accepted <= Next(t, events, l).accepted
    ensures Rebased(s, Next(t, events, l), skip) == Next(Rebased(s, t, skip), events, l)
  {
  }

  lemma DecidedStep(s: State, t: State, events: seq<Event>, run: seq<Moment>, l: Label, skip: nat)
    requires s.cursor.Some? && Decided(s, t, events, run, skip) && Notifier.Enabled(t, l) && l != Save
    ensures Decided(s, Next(t, events, l), events, run + [Moment(events, l)], skip)
  {
    RebasedStep(s, t, events, l, skip);
    StepKeeps(Rebased(s, t, skip), events, l);
    DecidesStays(s, skip, run, Moment(events, l));
  }

  lemma FollowerStep(s: State, t: State, events: seq<Event>, run: seq<Moment>, l: Label)
    requires s.cursor.Some? && Taken(s.cursor.value) && Follower(s, t, events, run) && Notifier.Enabled(t, l) &&
             l != Save
    ensures Follower(s, Next(t, events, l), events, run + [Moment(events, l)])
  {
    if Undecided(s, t, events, run) {
      UndecidedStep(s, t, events, run, l);
    } else {
      var skip: nat :| Decided(s, t, events, run, skip);
      DecidedStep(s, t, events, run, l, skip);
    }
  }

  lemma {:induction false} RunFollows(s: State, other: seq<Event>, run: seq<Moment>)
    requires s.cursor.Some? && Taken(s.cursor.value) && s.phase.Idle?
    requires Follows(s, run) && Grows(other, run) && !Reconfigures(run)
    ensures Follower(s, After(s, run), LastLog(other, run), run)
    decreases run
  {
    if run == [] {
      assert Undecided(s, s, other, []);
    } else {
      var n := |run| - 1;
      assert forall i :: 0 <= i < n ==> run[..n][i] == run[i];
      RunFollows(s, other, run[..n]);
      var before := After(s, run[..n]);
      GrowthFollows(s, before, LastLog(other, run[..n]), run[n].events, run[..n]);
      assert run[n].step != Save;
      FollowerStep(s, before, run[n].events, run[..n], run[n].step);
      assert run == run[..n] + [Moment(run[n].events, run[n].step)];
    }
  }

  /** Sent are exactly the attention events of the other log past `skip`, up to the cursor, in order. */
  ghost predicate SendsExactlyPast(s: State, t: State, events: seq<Event>, skip: nat) {
    && s.accepted <= t.accepted && t.cursor.Some?
    && (forall k: nat :: k <= t.cursor.value.sequence && Asking(events, k) ==> (k in Since(s, t) <==> skip < k))
    && (forall a :: a in Since(s, t) ==> skip < a && Asking(events, a))
    && (forall i, j :: 0 <= i < j < |Since(s, t)| ==> Since(s, t)[i] <= Since(s, t)[j])
  }

  /**
   * Which attention events of another log are never sent: whatever other log the notifier finds, growing meanwhile, and
   * wherever its runs crash, it sends exactly those past a number `skip`, up to the cursor. Until a reading decides,
   * nothing is sent and the cursor stays. If that reading is recognised as of another log, `skip` is the length it had
   * then; otherwise it is the old cursor, as if the log were the old one.
   */
  lemma ReplacedQueueTheorem(s: State, other: seq<Event>, run: seq<Moment>) returns (skip: nat)
    requires s.cursor.Some? && Taken(s.cursor.value) && s.phase.Idle?
    requires Follows(s, run) && Grows(other, run) && !Reconfigures(run)
    ensures SendsExactlyPast(s, After(s, run), LastLog(other, run), skip)
    ensures Decides(s, skip, run) ||
            (skip == s.cursor.value.sequence && After(s, run).cursor == s.cursor &&
             After(s, run).accepted == s.accepted)
  {
    RunFollows(s, other, run);
    var t, events := After(s, run), LastLog(other, run);
    if Undecided(s, t, events, run) {
      skip := s.cursor.value.sequence;
      assert Since(s, t) == [];
    } else {
      skip :| Decided(s, t, events, run, skip);
    }
  }

  lemma GrownFrom(other: seq<Event>, run: seq<Moment>, i: nat)
    requires Grows(other, run) && i < |run|
    ensures other <= run[i].events
  {
  }

  /**
   * Not recognised at all: a log that the old cursor fits, such as a copy of the same queue that has grown past it. Its
   * attention events up to the old cursor are never sent, in no run; all later ones are, up to the cursor.
   */
  lemma UnseenCopySkips(s: State, other: seq<Event>, run: seq<Moment>)
    requires s.cursor.Some? && Taken(s.cursor.value) && s.phase.Idle? && Belongs(s.cursor.value, other)
    requires Follows(s, run) && Grows(other, run) && !Reconfigures(run)
    ensures SendsExactlyPast(s, After(s, run), LastLog(other, run), s.cursor.value.sequence)
  {
    var skip := ReplacedQueueTheorem(s, other, run);
    forall i | 0 <= i < |run| ensures !Replaced(s.cursor.value, Position(run[i].events)) {
      GrownFrom(other, run, i);
      assert other != [] ==> run[i].events[0] == other[0];
    }
  }

  /** A log is recognised as another one exactly if it has another first job or fewer events than were dealt with. */
  lemma SeenIff(c: Cursor, other: seq<Event>)
    requires Taken(c)
    ensures Replaced(c, Position(other)) <==> !Belongs(c, other)
    ensures Replaced(c, Position(other)) <==>
            |other| < c.sequence || (c.sequence > 0 && Some(other[0].job) != c.identity)
  {
  }

  /**
   * Recognised at every reading: a log that begins with another job. Whatever it held when the notifier first got
   * through a check is never sent, everything later is, up to the cursor.
   */
  lemma OtherQueueIsSkipped(s: State, other: seq<Event>, run: seq<Moment>) returns (skip: nat)
    requires s.cursor.Some? && Taken(s.cursor.value) && s.phase.Idle? && s.cursor.value.sequence > 0
    requires other != [] && Some(other[0].job) != s.cursor.value.identity
    requires Follows(s, run) && Grows(other, run) && !Reconfigures(run)
    ensures SendsExactlyPast(s, After(s, run), LastLog(other, run), skip)
    ensures (exists i: nat, p: Cursor :: Reads(run, i, p) && skip == p.sequence) ||
            (After(s, run).cursor == s.cursor && After(s, run).accepted == s.accepted)
  {
    skip := ReplacedQueueTheorem(s, other, run);
    if Decides(s, skip, run) {
      var c := s.cursor.value;
      var i: nat, p: Cursor :| Reads(run, i, p) && skip == if Replaced(c, p) then p.sequence else c.sequence;
      GrownFrom(other, run, i);
      assert run[i].events[0] == other[0];
      SeenIff(c, run[i].events);
      assert Reads(run, i, p) && skip == p.sequence;
    }
  }

  // ----- a restored copy -----------------------------------------------------------------------------------

  const FIRST: Id := "0123456789abcdef"
  const SECOND: Id := "fedcba9876543210"
  const REQUEST := Request("command", "{}", Some("/srv/work"), 60, 0, None)

  /** The queue when it was backed up: one job waits. */
  function BackedUp(): Db {
    Submitted(EMPTY, FIRST, REQUEST, 0.0).value
  }

  /** The queue as it went on: the job ran and succeeded. */
  function Live(): Db {
    Finished(Claimed(BackedUp(), FIRST, 1.0), FIRST, Succeeded, None, Some(0), 2.0).value
  }

  /** The backup, brought back and prepared, and one more job. */
  function BroughtBack(): Db {
    IdsAreReal();
    assert [FIRST][1..] == [] && AllQuarantined(BackedUp(), [FIRST], 3.0) == Quarantined(BackedUp(), FIRST, 3.0);
    Submitted(Disabled(AllQuarantined(BackedUp(), [FIRST], 3.0)), SECOND, REQUEST, 4.0).value
  }

  lemma IdsAreReal()
    ensures HexId(FIRST) && HexId(SECOND) && FIRST != SECOND
  {
    assert FIRST[0] == '0' && SECOND[0] == 'f';
  }

  lemma LiveEvents()
    ensures Submitted(EMPTY, FIRST, REQUEST, 0.0).Ok? && BackedUp().jobs == map[FIRST := NewJob(REQUEST, 0.0)]
    ensures BackedUp().events == [Event(FIRST, 0.0, Became(Queued), None)]
    ensures |Live().events| == 3 && Live().events[0] == BackedUp().events[0]
  {
  }

  lemma BroughtBackEvents()
    ensures Submitted(Disabled(AllQuarantined(BackedUp(), [FIRST], 3.0)), SECOND, REQUEST, 4.0).Ok?
    ensures |BroughtBack().events| == 3 && BroughtBack().events[0] == BackedUp().events[0]
    ensures BroughtBack().events[1].job == FIRST && BroughtBack().events[1].mark == Became(Interrupted)
  {
    LiveEvents();
    IdsAreReal();
    assert [FIRST][1..] == [];
    var shelved := Quarantined(BackedUp(), FIRST, 3.0);
    assert AllQuarantined(BackedUp(), [FIRST], 3.0) == AllQuarantined(shelved, [], 3.0) == shelved;
  }

  /** Notification has been configured on the live queue. */
  function Configured(): State {
    State(Some(Cursor(Some(FIRST), 3)), Idle, 3, [])
  }

  lemma StepTo(s: State, run: seq<Moment>, t: State, m: Moment)
    requires Follows(s, run) && After(s, run) == t && Notifier.Enabled(t, m.step)
    ensures Follows(s, run + [m]) && After(s, run + [m]) == Next(t, m.events, m.step)
  {
    assert (run + [m])[..|run|] == run;
  }

  lemma ConfiguredIsReached()
    ensures Follows(FRESH, [Moment(Live().events, Configure), Moment(Live().events, Save)])
    ensures After(FRESH, [Moment(Live().events, Configure), Moment(Live().events, Save)]) == Configured()
  {
    LiveEvents();
    var a, b := Moment(Live().events, Configure), Moment(Live().events, Save);
    assert Follows(FRESH, []) && After(FRESH, []) == FRESH;
    StepTo(FRESH, [], FRESH, a);
    assert [] + [a] == [a];
    StepTo(FRESH, [a], Next(FRESH, a.events, Configure), b);
    assert [a] + [b] == [a, b];
  }

  /**
   * A copy that is not recognised: it was restored and prepared, so its job is reported interrupted in event number 2,
   * and used again until it is as long as the old log. The check takes it for the old log and sends nothing, and in
   * no run from then on is that event ever sent.
   */
  lemma RestoredCopySkips(run: seq<Moment>)
    requires Follows(Configured(), run) && Grows(BroughtBack().events, run) && !Reconfigures(run)
    ensures Follows(FRESH, [Moment(Live().events, Configure), Moment(Live().events, Save)])
    ensures After(FRESH, [Moment(Live().events, Configure), Moment(Live().events, Save)]) == Configured()
    ensures Asking(BroughtBack().events, 2) && 2 !in After(Configured(), run).accepted
  {
    ConfiguredIsReached();
    BroughtBackEvents();
    LiveEvents();
    var s := Configured();
    assert Belongs(s.cursor.value, BroughtBack().events);
    UnseenCopySkips(s, BroughtBack().events, run);
    assert Since(s, After(s, run)) == After(s, run).accepted;
  }

  /** A check that finds a log at exactly the saved position sends nothing and ends where it began. */
  lemma QuietCheck(s: State, o: seq<Event>) returns (run: seq<Moment>)
    requires s.phase.Idle? && s.cursor.Some? && ValidCursor(s.cursor.value) && Position(o) == s.cursor.value
    ensures Follows(s, run) && Grows(o, run) && !Reconfigures(run) && After(s, run) == s && Reads(run, 1, Position(o))
  {
    var a, b, c := Moment(o, Start), Moment(o, Look), Moment(o, Branch);
    assert Follows(s, []) && After(s, []) == s;
    StepTo(s, [], s, a);
    StepTo(s, [] + [a], s.(phase := Loaded), b);
    StepTo(s, [] + [a] + [b], s.(phase := Positioned(Position(o))), c);
    run := [] + [a] + [b] + [c];
    assert run[1] == b;
  }

  /** Such a check of the copy can be made, and it ends without sending anything. */
  lemma CopyIsChecked() returns (run: seq<Moment>)
    ensures Follows(Configured(), run) && Grows(BroughtBack().events, run) && !Reconfigures(run)
    ensures Reads(run, 1, Position(BroughtBack().events)) && After(Configured(), run) == Configured()
  {
    BroughtBackEvents();
    LiveEvents();
    IdsAreReal();
    run := QuietCheck(Configured(), BroughtBack().events);
  }
}
