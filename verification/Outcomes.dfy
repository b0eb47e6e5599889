/** Exactly when a run has which outcome, reason and exit code. */
module Outcomes {
  import opened Text
  import opened Tables
  import opened Execution
  import TextLaws

  /**
   * Exactly when a run has which outcome. A raised error fails it. Otherwise the first alarm up to the last turn
   * decides, and the exit status if there is none.
   */
  lemma OutcomeIff(looks: seq<Look>, timeout: int, error: Option<string>, status: Option<int>, exit: Exit)
    requires ExitOf(looks, timeout, error, status, exit)
    ensures exit.outcome == Interrupted <==> error.None? && exists t: nat, k: nat ::
              EndsAt(looks, k) && FirstAlarm(looks, t, k) && looks[t].stopping && !looks[t].requested
    ensures exit.outcome == TimedOut <==> error.None? && exists t: nat, k: nat ::
              EndsAt(looks, k) && FirstAlarm(looks, t, k) && !looks[t].stopping && !looks[t].requested
    ensures exit.outcome == Cancelled <==> error.None? && exists t: nat, k: nat ::
              EndsAt(looks, k) && FirstAlarm(looks, t, k) && looks[t].requested
    ensures exit.outcome == Succeeded <==> error.None? && exists k: nat ::
              EndsAt(looks, k) && looks[k].code == Some(0) && forall i :: 0 <= i <= k ==> !Alarms(looks[i])
    ensures exit.outcome == Failed <==> error.Some? || exists k: nat ::
              EndsAt(looks, k) && looks[k].code != Some(0) && forall i :: 0 <= i <= k ==> !Alarms(looks[i])
  {
    OneExit(looks, timeout, error, status, exit);
    VerdictIs(looks, timeout, error, status);
    BreakIs(looks);
    var k := FirstStop(looks);
    if error.None? {
      AlarmIs(looks, k);
      var t := FirstTrigger(looks);
      assert EndsAt(looks, k);
      if t <= k {
        assert FirstAlarm(looks, t, k);
      } else {
        assert forall i :: 0 <= i <= k ==> !Alarms(looks[i]);
      }
    }
  }

  /** `RunJob` and `Execute` answer with the one exit there is. */
  lemma OneExit(looks: seq<Look>, timeout: int, error: Option<string>, status: Option<int>, exit: Exit)
    requires ExitOf(looks, timeout, error, status, exit)
    ensures Ran(looks, error)
    ensures exit.outcome == Verdict(looks, timeout, error, status).outcome
    ensures exit.code == Verdict(looks, timeout, error, status).code
    ensures exit.reason.Some? <==> Verdict(looks, timeout, error, status).reason.Some?
    ensures exit.reason.Some? ==> exit.reason.value.Text() == Verdict(looks, timeout, error, status).reason.value.Text()
  {
    if error.None? {
      var k: nat :| EndsAt(looks, k);
    }
    VerdictIs(looks, timeout, error, status);
    BreakIs(looks);
    if error.None? {
      AlarmIs(looks, FirstStop(looks));
    }
  }

  /** A number in a reason: its digits, without zeros in front, after a minus sign exactly if it is negative. */
  lemma SignedIs(n: int)
    ensures n >= 0 ==> Digits(Signed(n)) && Number(Signed(n)) == n && (n > 0 ==> Signed(n)[0] != '0')
    ensures n < 0 ==> exists d: string :: Signed(n) == "-" + d && Digits(d) && Number(d) == -n && d[0] != '0'
  {
    TextLaws.DecimalIs(if n < 0 then -n else n);
    if n < 0 {
      assert Signed(n) == "-" + Decimal(-n);
    }
  }
}
