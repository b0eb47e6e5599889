/** Running one claimed job: the polling loop of `execute` in jobs.py. */
module Execution {
  import opened Text
  import opened Tables
  import opened JobQueue

  /** What one poll of the output pipe gives: nothing yet, some bytes, or end of file. */
  datatype Read = Nothing | Bytes(data: string) | End

  /**
   * What one turn of the loop observes: a recorded cancellation, a stop of the worker, a passed deadline, the output,
   * the exit status, and whether more than a second went by since the exit was first seen.
   */
  datatype Look = Look(requested: bool, stopping: bool, late: bool, read: Read, code: Option<int>, waited: bool)

  datatype Exit = Exit(outcome: JobState, reason: Option<Note>, code: Option<int>)

  const LOG_LIMIT := 16 * 1024 * 1024
  const MARKER := "\n[rougarou: log limit reached; further output discarded]\n"

  // ----- the reference: which turn decides, and what the log is ------------------------

  /** The run ends at the first turn that sees an exit with all output read, or waits no longer for it. */
  predicate Stops(looks: seq<Look>, k: nat)
    requires k < |looks|
  {
    looks[k].code.Some? && (looks[k].waited || Drained(looks[..k + 1]))
  }

  predicate Drained(looks: seq<Look>) {
    exists i :: 0 <= i < |looks| && looks[i].read.End?
  }

  predicate Triggered(look: Look) {
    look.requested || look.stopping || look.late
  }

  /** The turn at which the loop breaks, or the number of turns if it never does. */
  function FirstStop(looks: seq<Look>): (k: nat)
    ensures k <= |looks|
    ensures k < |looks| ==> Stops(looks, k)
    ensures forall i :: 0 <= i < k ==> !Stops(looks, i)
  {
    StopFrom(looks, 0)
  }

  function StopFrom(looks: seq<Look>, from: nat): (k: nat)
    requires from <= |looks|
    ensures from <= k <= |looks|
    ensures k < |looks| ==> Stops(looks, k)
    ensures forall i :: from <= i < k ==> !Stops(looks, i)
    decreases |looks| - from
  {
    if from == |looks| || Stops(looks, from) then from else StopFrom(looks, from + 1)
  }

  /** The first turn with a reason to terminate the process. */
  function FirstTrigger(looks: seq<Look>): (k: nat)
    ensures k <= |looks|
    ensures k < |looks| ==> Triggered(looks[k])
    ensures forall i :: 0 <= i < k ==> !Triggered(looks[i])
  {
    TriggerFrom(looks, 0)
  }

  function TriggerFrom(looks: seq<Look>, from: nat): (k: nat)
    requires from <= |looks|
    ensures from <= k <= |looks|
    ensures k < |looks| ==> Triggered(looks[k])
    ensures forall i :: from <= i < k ==> !Triggered(looks[i])
    decreases |looks| - from
  {
    if from == |looks| || Triggered(looks[from]) then from else TriggerFrom(looks, from + 1)
  }

  /** Cancellation is looked at before a stop of the worker, and that before the deadline. */
  function Cause(look: Look): JobState {
    if look.requested then Cancelled else if look.stopping then Interrupted else TimedOut
  }

  function CauseNote(look: Look, timeout: int): Note {
    if look.requested then ByOperator else if look.stopping then WorkerStopped else Exceeded(timeout)
  }

  function ExitNote(code: int): Option<Note> {
    if code == 0 then None else Some(Status(code))
  }

  /** A run either breaks off or raises; `error` names what was raised, before the break or while closing the log. */
  predicate Ran(looks: seq<Look>, error: Option<string>) {
    error.None? ==> FirstStop(looks) < |looks|
  }

  /**
   * The outcome of a run: a raised error fails it; otherwise the first trigger decides if there is one, the exit status
   * if not. `status` is what the reaped process left behind when an error was raised.
   */
  function Verdict(looks: seq<Look>, timeout: int, error: Option<string>, status: Option<int>): Exit
    requires Ran(looks, error)
  {
    var k, t := FirstStop(looks), FirstTrigger(looks);
    if error.Some? then Exit(Failed, Some(RunnerError(error.value)), status)
    else if t <= k then Exit(Cause(looks[t]), Some(CauseNote(looks[t], timeout)), looks[k].code)
    else
      var code := looks[k].code.value;
      Exit(if code == 0 then Succeeded else Failed, ExitNote(code), Some(code))
  }

  /** All output up to end of file. */
  function Stream(looks: seq<Look>): string {
    if looks == [] || looks[0].read.End? then ""
    else (if looks[0].read.Bytes? then looks[0].read.data else "") + Stream(looks[1..])
  }

  /** The log of a stream: its first bytes, and one marker exactly when some were dropped. */
  function Capped(stream: string): string {
    if |stream| <= LOG_LIMIT then stream else stream[..LOG_LIMIT] + MARKER
  }

  lemma {:induction false} StreamThen(looks: seq<Look>, look: Look)
    ensures Stream(looks + [look]) ==
            Stream(looks) + if !Drained(looks) && look.read.Bytes? then look.read.data else ""
    decreases looks
  {
    if looks == [] {
      assert looks + [look] == [look];
      assert [look][1..] == [];
    } else {
      assert (looks + [look])[1..] == looks[1..] + [look];
      StreamThen(looks[1..], look);
      DrainedTail(looks);
    }
  }

  lemma DrainedTail(looks: seq<Look>)
    requires looks != []
    ensures Drained(looks) <==> looks[0].read.End? || Drained(looks[1..])
  {
    forall i | 0 <= i < |looks| && looks[i].read.End? ensures looks[0].read.End? || Drained(looks[1..]) {
      if i > 0 {
        assert looks[1..][i - 1].read.End?;
      }
    }
    forall i | 0 <= i < |looks[1..]| && looks[1..][i].read.End? ensures Drained(looks) {
      assert looks[i + 1].read.End?;
    }
  }

  // ----- the answer, told by the turns alone ---------------------------------------------------

  /** A turn that may end the loop: the process is gone, and its output is at an end or no longer waited for. */
  predicate MayEnd(looks: seq<Look>, k: nat) {
    && k < |looks| && looks[k].code.Some?
    && (looks[k].waited || exists i :: 0 <= i <= k && looks[i].read == End)
  }

  /** The turn at which the loop ends. */
  predicate EndsAt(looks: seq<Look>, k: nat) {
    MayEnd(looks, k) && forall i: nat :: i < k ==> !MayEnd(looks, i)
  }

  predicate Alarms(look: Look) {
    look.requested || look.stopping || look.late
  }

  /** The first turn that sees a request, a stop or the deadline, if the loop has not ended before. */
  predicate FirstAlarm(looks: seq<Look>, t: nat, k: nat) {
    t <= k < |looks| && Alarms(looks[t]) && forall i :: 0 <= i < t ==> !Alarms(looks[i])
  }

  /** The recorded reason, as the column holds it. */
  predicate Says(reason: Option<Note>, text: string) {
    reason.Some? && reason.value.Text() == text
  }

  // ----- outcome, reason and code ----------------------------------------------------------------

  /** The first alarm decides: a request before a stop, a stop before the deadline; the code is the last turn's. */
  ghost predicate DecidedByAlarm(looks: seq<Look>, timeout: int, exit: Exit, t: nat, k: nat)
    requires EndsAt(looks, k) && FirstAlarm(looks, t, k)
  {
    && exit.code == looks[k].code
    && (looks[t].requested ==> exit.outcome == Cancelled && Says(exit.reason, "Cancelled by operator"))
    && (!looks[t].requested && looks[t].stopping ==>
          exit.outcome == Interrupted && Says(exit.reason, "Worker stopped; inspect logs before retrying"))
    && (!looks[t].requested && !looks[t].stopping ==>
          exit.outcome == TimedOut && Says(exit.reason, "Exceeded " + Signed(timeout) + " seconds"))
  }

  /** Without an alarm the exit status decides. */
  ghost predicate DecidedByStatus(looks: seq<Look>, exit: Exit, k: nat)
    requires EndsAt(looks, k)
  {
    && exit.code == looks[k].code
    && (looks[k].code == Some(0) ==> exit.outcome == Succeeded && exit.reason == None)
    && (looks[k].code != Some(0) ==>
          exit.outcome == Failed && Says(exit.reason, "Process exited with status " + Signed(looks[k].code.value)))
  }

  ghost predicate DecidedByError(error: string, status: Option<int>, exit: Exit) {
    && exit.outcome == Failed && exit.code == status
    && Says(exit.reason, "Runner error: " + error + "; check workspace, executable and provider configuration")
  }

  /** The whole of it; for given turns just one exit is like this, see `OneExit`. */
  ghost predicate ExitOf(looks: seq<Look>, timeout: int, error: Option<string>, status: Option<int>, exit: Exit) {
    match error
    case Some(e) => DecidedByError(e, status, exit)
    case None =>
      exists k: nat :: EndsAt(looks, k) &&
        if exists t: nat :: FirstAlarm(looks, t, k) then
          exists t: nat :: FirstAlarm(looks, t, k) && DecidedByAlarm(looks, timeout, exit, t, k)
        else DecidedByStatus(looks, exit, k)
  }

  lemma StopsAre(looks: seq<Look>, k: nat)
    requires k < |looks|
    ensures Stops(looks, k) <==> MayEnd(looks, k)
  {
    if i :| 0 <= i <= k && looks[i].read == End {
      assert looks[..k + 1][i].read.End?;
    }
    if Drained(looks[..k + 1]) {
      var i :| 0 <= i < |looks[..k + 1]| && looks[..k + 1][i].read.End?;
      assert looks[i].read == End;
    }
  }

  lemma BreakIs(looks: seq<Look>)
    ensures FirstStop(looks) < |looks| ==> EndsAt(looks, FirstStop(looks))
    ensures forall k: nat :: EndsAt(looks, k) ==> FirstStop(looks) == k
  {
    forall i: nat | i < |looks| ensures Stops(looks, i) <==> MayEnd(looks, i) {
      StopsAre(looks, i);
    }
    forall k: nat | EndsAt(looks, k) ensures FirstStop(looks) == k {
      assert Stops(looks, k);
    }
  }

  lemma AlarmIs(looks: seq<Look>, k: nat)
    requires k < |looks|
    ensures FirstTrigger(looks) <= k ==> FirstAlarm(looks, FirstTrigger(looks), k)
    ensures forall t: nat :: FirstAlarm(looks, t, k) ==> FirstTrigger(looks) == t
  {
    forall t: nat | FirstAlarm(looks, t, k) ensures FirstTrigger(looks) == t {
      assert Triggered(looks[t]);
    }
  }

  lemma RanEnds(looks: seq<Look>, error: Option<string>)
    requires Ran(looks, error)
    ensures error.Some? || exists k: nat :: EndsAt(looks, k)
  {
    BreakIs(looks);
  }

  /** A run that raises nothing ends; then the outcome, the reason and the code are these. */
  lemma VerdictIs(looks: seq<Look>, timeout: int, error: Option<string>, status: Option<int>)
    requires error.Some? || exists k: nat :: EndsAt(looks, k)
    ensures Ran(looks, error) && ExitOf(looks, timeout, error, status, Verdict(looks, timeout, error, status))
  {
    BreakIs(looks);
    if error.None? {
      var k := FirstStop(looks);
      assert EndsAt(looks, k);
      AlarmIs(looks, k);
      if FirstTrigger(looks) <= k {
        assert DecidedByAlarm(looks, timeout, Verdict(looks, timeout, error, status), FirstTrigger(looks), k);
      }
    }
  }

  /** The log file of the output `stream`: all of it up to 16 MiB, else the first 16 MiB and one notice. */
  predicate IsLogOf(stream: string, log: string) {
    if |stream| <= 16777216 then log == stream
    else log == stream[..16777216] + "\n[rougarou: log limit reached; further output discarded]\n"
  }

  /** What the process wrote before its output came to an end. */
  function Output(looks: seq<Look>): string {
    if looks == [] then ""
    else
      var last, before := looks[|looks| - 1], looks[..|looks| - 1];
      Output(before) +
      if last.read.Bytes? && (forall i :: 0 <= i < |before| ==> before[i].read != End) then last.read.data else ""
  }

  lemma {:induction false} StreamIs(looks: seq<Look>)
    ensures Stream(looks) == Output(looks)
    decreases looks
  {
    if looks != [] {
      var n := |looks| - 1;
      StreamIs(looks[..n]);
      StreamThen(looks[..n], looks[n]);
      assert looks == looks[..n] + [looks[n]];
    }
  }

  /** The log that a run leaves is the one of what the process wrote up to the last turn. */
  lemma LogIs(looks: seq<Look>)
    ensures IsLogOf(Output(if FirstStop(looks) < |looks| then looks[..FirstStop(looks) + 1] else looks),
                    Capped(Stream(if FirstStop(looks) < |looks| then looks[..FirstStop(looks) + 1] else looks)))
    ensures forall k: nat :: EndsAt(looks, k) ==> FirstStop(looks) == k
    ensures (forall k: nat :: !EndsAt(looks, k)) ==> FirstStop(looks) == |looks|
  {
    StreamIs(if FirstStop(looks) < |looks| then looks[..FirstStop(looks) + 1] else looks);
    BreakIs(looks);
  }

  // ----- the loop ------------------------------------------------------------------------------

  /** The open log file and the two variables that bound it. */
  datatype Sink = Sink(log: string, written: nat, truncated: bool) {
    predicate Holds(stream: string) {
      && log == Capped(stream) && truncated == (|stream| > LOG_LIMIT)
      && written == if |stream| <= LOG_LIMIT then |stream| else LOG_LIMIT
    }
  }

  method Append(sink: Sink, chunk: string, ghost stream: string) returns (next: Sink)
    requires sink.Holds(stream)
    ensures next.Holds(stream + chunk)
  {
    var log, written, truncated := sink.log, sink.written, sink.truncated;
    var remaining := LOG_LIMIT - written;
    if remaining > 0 {
      log := log + if |chunk| <= remaining then chunk else chunk[..remaining];
      written := written + if |chunk| <= remaining then |chunk| else remaining;
    }
    if |chunk| > remaining && !truncated {
      log := log + MARKER;
      truncated := true;
    }
    if |stream + chunk| > LOG_LIMIT {
      if sink.truncated {
        assert (stream + chunk)[..LOG_LIMIT] == stream[..LOG_LIMIT];
      } else {
        assert (stream + chunk)[..LOG_LIMIT] == stream + chunk[..remaining];
      }
    }
    next := Sink(log, written, truncated);
  }

  /** The decision of one turn while the process has not been told to stop. */
  method Decide(look: Look, timeout: int) returns (outcome: JobState, reason: Option<Note>)
    ensures outcome == Succeeded <==> !Triggered(look)
    ensures Triggered(look) ==> outcome == Cause(look) && reason == Some(CauseNote(look, timeout))
  {
    if look.requested {
      outcome, reason := Cancelled, Some(ByOperator);
    } else if look.stopping {
      outcome, reason := Interrupted, Some(WorkerStopped);
    } else if look.late {
      outcome, reason := TimedOut, Some(Exceeded(timeout));
    } else {
      outcome, reason := Succeeded, None;
    }
  }

  /** One poll of the pipe, if it is still open. */
  method Receive(sink: Sink, open: bool, look: Look, ghost before: seq<Look>) returns (next: Sink, still: bool)
    requires sink.Holds(Stream(before)) && open == !Drained(before)
    ensures next.Holds(Stream(before + [look])) && still == !Drained(before + [look])
  {
    StreamThen(before, look);
    DrainedThen(before, look);
    next, still := sink, open;
    if open {
      match look.read {
        case Nothing =>
        case End => still := false;
        case Bytes(chunk) => next := Append(sink, chunk, Stream(before));
      }
    }
  }

  /** What the first n turns decided. */
  predicate Decided(looks: seq<Look>, n: nat, timeout: int, terminating: bool, outcome: JobState,
                    reason: Option<Note>) {
    && terminating == (FirstTrigger(looks) < n) && n <= |looks|
    && (terminating ==> outcome == Cause(looks[FirstTrigger(looks)]))
    && (terminating ==> reason == Some(CauseNote(looks[FirstTrigger(looks)], timeout)))
  }

  lemma DecidedNow(looks: seq<Look>, n: nat, timeout: int, outcome: JobState, reason: Option<Note>)
    requires n < |looks| && FirstTrigger(looks) >= n
    requires outcome == Succeeded <==> !Triggered(looks[n])
    requires Triggered(looks[n]) ==> outcome == Cause(looks[n]) && reason == Some(CauseNote(looks[n], timeout))
    ensures Decided(looks, n + 1, timeout, outcome != Succeeded, outcome, reason)
  {
  }

  lemma StopsHere(looks: seq<Look>, n: nat)
    requires n < |looks| && n <= FirstStop(looks) && looks[n].code.Some?
    requires looks[n].waited || Drained(looks[..n + 1])
    ensures FirstStop(looks) == n
  {
    assert Stops(looks, n);
  }

  lemma GoesOn(looks: seq<Look>, n: nat)
    requires n < |looks| && n <= FirstStop(looks)
    requires !(looks[n].code.Some? && (looks[n].waited || Drained(looks[..n + 1])))
    ensures n + 1 <= FirstStop(looks)
  {
    assert !Stops(looks, n);
  }

  /** The polling loop and what catches its errors. */
  method PollToEnd(looks: seq<Look>, timeout: int, error: Option<string>, status: Option<int>)
    returns (exit: Exit, log: string)
    requires Ran(looks, error)
    ensures exit == Verdict(looks, timeout, error, status)
    ensures log == Capped(Stream(if FirstStop(looks) < |looks| then looks[..FirstStop(looks) + 1] else looks))
  {
    var sink := Sink("", 0, false);
    var outcome, reason, code := Failed, None, status;
    var terminating, open, n := false, true, 0;
    while n < |looks|
      invariant 0 <= n <= |looks| && n <= FirstStop(looks)
      invariant open == !Drained(looks[..n]) && sink.Holds(Stream(looks[..n]))
      invariant Decided(looks, n, timeout, terminating, outcome, reason)
    {
      var look := looks[n];
      assert looks[..n + 1] == looks[..n] + [look];
      if !terminating {
        outcome, reason := Decide(look, timeout);
        DecidedNow(looks, n, timeout, outcome, reason);
        terminating := outcome != Succeeded;
      }
      sink, open := Receive(sink, open, look, looks[..n]);
      if look.code.Some? && (!open || look.waited) {
        StopsHere(looks, n);
        if !terminating {
          outcome, reason := if look.code.value == 0 then Succeeded else Failed, ExitNote(look.code.value);
        }
        code := look.code;
        break;
      }
      GoesOn(looks, n);
      n := n + 1;
    }
    assert n == |looks| ==> looks[..n] == looks;
    log := sink.log;
    if error.Some? {
      outcome, reason, code := Failed, Some(RunnerError(error.value)), status;
    }
    exit := Exit(outcome, reason, code);
  }

  /**
   * The whole run: outcome, reason and code are those the turns decide, and the log is that of what the process wrote;
   * neither depends on how the output is cut into chunks.
   */
  method Execute(looks: seq<Look>, timeout: int, error: Option<string>, status: Option<int>)
    returns (exit: Exit, log: string)
    requires Ran(looks, error)
    ensures exit == Verdict(looks, timeout, error, status) && ExitOf(looks, timeout, error, status, exit)
    ensures forall k: nat :: EndsAt(looks, k) ==> IsLogOf(Output(looks[..k + 1]), log)
    ensures (forall k: nat :: !EndsAt(looks, k)) ==> IsLogOf(Output(looks), log)
  {
    exit, log := PollToEnd(looks, timeout, error, status);
    LogIs(looks);
    RanEnds(looks, error);
    VerdictIs(looks, timeout, error, status);
  }

  lemma DrainedThen(looks: seq<Look>, look: Look)
    ensures Drained(looks + [look]) <==> Drained(looks) || look.read.End?
  {
    var all := looks + [look];
    if Drained(looks) {
      var i :| 0 <= i < |looks| && looks[i].read.End?;
      assert all[i].read.End?;
    }
    if look.read.End? {
      assert all[|looks|].read.End?;
    }
  }

  // ----- what the outcome says ---------------------------------------------------------------------

  /** The loop breaks at turn k on a zero exit status, with no trigger seen up to then. */
  predicate EndsCleanly(looks: seq<Look>, k: nat) {
    && k < |looks| && Stops(looks, k) && looks[k].code == Some(0)
    && (forall i :: 0 <= i < k ==> !Stops(looks, i)) && (forall i :: 0 <= i <= k ==> !Triggered(looks[i]))
  }

  /** Turn t sees a recorded cancellation, before any other trigger and no later than the break. */
  predicate SeesRequestFirst(looks: seq<Look>, t: nat) {
    && t < |looks| && looks[t].requested && (forall i :: 0 <= i < t ==> !Triggered(looks[i]) && !Stops(looks, i))
    && exists k :: t <= k < |looks| && Stops(looks, k)
  }

  /** A run counts as succeeded exactly if it ends cleanly and raises nothing. */
  lemma SucceededIffClean(looks: seq<Look>, timeout: int, error: Option<string>, status: Option<int>)
    requires Ran(looks, error)
    ensures Verdict(looks, timeout, error, status).outcome == Succeeded <==>
            error.None? && exists k: nat :: EndsCleanly(looks, k)
  {
    if k: nat :| EndsCleanly(looks, k) {
      assert FirstStop(looks) == k;
    }
    if Verdict(looks, timeout, error, status).outcome == Succeeded {
      assert EndsCleanly(looks, FirstStop(looks));
    }
  }

  /** It counts as cancelled exactly if a recorded request is the first trigger it sees and it raises nothing. */
  lemma CancelledIffSeenFirst(looks: seq<Look>, timeout: int, error: Option<string>, status: Option<int>)
    requires Ran(looks, error)
    ensures Verdict(looks, timeout, error, status).outcome == Cancelled <==>
              error.None? && exists t: nat :: SeesRequestFirst(looks, t)
  {
    if t: nat :| SeesRequestFirst(looks, t) {
      var k :| t <= k < |looks| && Stops(looks, k);
      assert FirstTrigger(looks) == t;
    }
    if Verdict(looks, timeout, error, status).outcome == Cancelled {
      assert Stops(looks, FirstStop(looks));
      assert SeesRequestFirst(looks, FirstTrigger(looks));
    }
  }

  /**
   * A claimed job from start to end: its run, then its terminal transaction, which a recorded cancellation overrides.
   */
  method RunJob(db: Database, id: Id, looks: seq<Look>, error: Option<string>, status: Option<int>, now: real)
    returns (log: string)
    requires id in db.jobs && Ran(looks, error)
    modifies db`jobs, db`events
    ensures var exit := Verdict(looks, old(db.jobs)[id].work.timeout, error, status);
            Ok(db.View()) == Finished(old(db.View()), id, exit.outcome, exit.reason, exit.code, now)
    ensures exists exit: Exit :: ExitOf(looks, old(db.jobs)[id].work.timeout, error, status, exit) &&
              Ok(db.View()) == Finished(old(db.View()), id, exit.outcome, exit.reason, exit.code, now)
    ensures forall k: nat :: EndsAt(looks, k) ==> IsLogOf(Output(looks[..k + 1]), log)
    ensures (forall k: nat :: !EndsAt(looks, k)) ==> IsLogOf(Output(looks), log)
  {
    var exit;
    exit, log := Execute(looks, db.jobs[id].work.timeout, error, status);
    var fault := db.Finish(id, exit.outcome, exit.reason, exit.code, now);
  }
}
