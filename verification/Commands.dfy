/** The operations of the queue and the scheduler, as the methods run them, are runs of the system's steps. */
module Commands {
  import opened Text
  import opened Tables
  import opened JobQueue
  import opened History
  import opened Scheduler
  import opened Progress
  import opened Execution
  import opened OperatorSystem

  /** These steps lead from `s` to `end`. */
  ghost predicate Leads(s: State, run: seq<Step>, end: State) {
    Follows(s, run) && After(s, run) == end
  }

  lemma NoStep(s: State)
    ensures Leads(s, [], s)
  {
  }

  lemma Then(s: State, run: seq<Step>, now: State, l: Step)
    requires Leads(s, run, now) && Enabled(now, l)
    ensures Leads(s, run + [l], Do(now, l))
  {
    assert (run + [l])[..|run|] == run;
  }

  lemma OneStep(s: State, l: Step)
    requires Enabled(s, l)
    ensures Leads(s, [l], Do(s, l))
  {
    NoStep(s);
    Then(s, [], s, l);
    assert [] + [l] == [l];
  }

  lemma TwoSteps(s: State, l: Step, mid: State, m: Step)
    requires Enabled(s, l) && Do(s, l) == mid && Enabled(mid, m)
    ensures Leads(s, [l, m], Do(mid, m))
  {
    OneStep(s, l);
    Then(s, [l], mid, m);
    assert [l] + [m] == [l, m];
  }

  lemma ThreeSteps(s: State, l: Step, mid: State, m: Step, late: State, n: Step)
    requires Enabled(s, l) && Do(s, l) == mid && Enabled(mid, m) && Do(mid, m) == late && Enabled(late, n)
    ensures Leads(s, [l, m, n], Do(late, n))
  {
    TwoSteps(s, l, mid, m);
    Then(s, [l, m], late, n);
    assert [l, m] + [n] == [l, m, n];
  }

  // ----- one transaction each ---------------------------------------------------------------------

  /** What claims and reviews do is one step each as well. */
  lemma RowsAreSteps(s: State, id: Id, target: Option<Id>, rows: seq<Id>)
    ensures s.worker.Polling? && IsNext(s.db, id, s.now) ==>
              Enabled(s, Step.Claim(id)) && Do(s, Step.Claim(id)).db == Claimed(s.db, id, s.now)
    ensures (target.Some? ==> target.value in s.db.jobs && s.db.jobs[target.value].state.Unsuccessful()) &&
            Lists(rows, OutstandingIds(s.db, target), s.db) ==>
              Enabled(s, Review(target, rows)) &&
                  Do(s, Review(target, rows)) == s.(db := AllAcknowledged(s.db, rows, s.now))
  {
  }

  /** Submitting, cancelling and saving a task are one step each, refused exactly when the step is impossible. */
  lemma TransactionsAreSteps(s: State, id: Id, q: Request, name: Name, d: Definition, edit: bool)
    ensures Enabled(s, Submit(id, q, s.now)) <==> Submitted(s.db, id, q, s.now).Ok?
    ensures Submitted(s.db, id, q, s.now).Ok? ==>
            Do(s, Submit(id, q, s.now)) == s.(db := Submitted(s.db, id, q, s.now).value)
    ensures Enabled(s, Cancel(id)) <==> CancelledJob(s.db, id, s.now).Ok?
    ensures CancelledJob(s.db, id, s.now).Ok? ==> Do(s, Cancel(id)) == s.(db := CancelledJob(s.db, id, s.now).value)
    ensures s.hold.Free? ==> (Enabled(s, SaveTask(name, d, edit)) <==> Saved(s.db, name, d, edit).Ok?)
    ensures s.hold.Free? && Saved(s.db, name, d, edit).Ok? ==>
            Do(s, SaveTask(name, d, edit)).db == Saved(s.db, name, d, edit).value
  {
  }

  // ----- task commands ------------------------------------------------------------------------------

  /** The command has run: the database is this, and nothing else of the system has changed but its histories. */
  ghost predicate Ran(s: State, run: seq<Step>, db: Db) {
    Follows(s, run) && After(s, run) == s.(db := db, fires := After(s, run).fires, dirs := After(s, run).dirs)
  }

  lemma LeadsRan(s: State, run: seq<Step>, end: State)
    requires Leads(s, run, end) && end == s.(db := end.db, fires := end.fires, dirs := end.dirs)
    ensures Ran(s, run, end.db)
  {
  }

  /** `enqueue`, by hand or by a timer, on a file system where the stored path resolves as it does now. */
  lemma EnqueueIsARun(s: State, name: Name, scheduled: bool, ready: bool, id: Id) returns (run: seq<Step>)
    requires s.hold.Free?
    ensures var workspace := if name in s.db.tasks then Resolved(s.paths, s.db.tasks[name].work.workspace) else None;
            Ran(s, run, EnqueueResult(s.db, name, scheduled, ready, id, workspace, s.now).0)
  {
    run := [];
    NoStep(s);
    if Got(s.db, name).Ok? && !(scheduled && !s.db.tasks[name].enabled) && ready {
      run := BegunIsARun(s, name, scheduled, id);
    }
  }

  lemma BegunIsARun(s: State, name: Name, scheduled: bool, id: Id) returns (run: seq<Step>)
    requires s.hold.Free? && Got(s.db, name).Ok? && (scheduled ==> s.db.tasks[name].enabled)
    ensures var r := Enqueued(s.db, name, s.db.tasks[name], id, Resolved(s.paths, s.db.tasks[name].work.workspace),
                              s.now);
            Ran(s, run, if r.Ok? then r.value.0 else s.db)
  {
    var task := s.db.tasks[name];
    var mid := s.(hold := Starting(name, task, scheduled));
    var workspace := Resolved(s.paths, task.work.workspace);
    var last := if Enqueued(s.db, name, task, id, workspace, s.now).Ok? then QueueRun(id, s.now) else Release;
    run := [BeginRun(name, scheduled), last];
    QueueOrRelease(mid, id, last);
    TwoSteps(s, BeginRun(name, scheduled), mid, last);
    LeadsRan(s, run, Do(mid, last));
  }

  /** The second transaction of a run command: it queues, or gives the lock back. */
  lemma QueueOrRelease(s: State, id: Id, l: Step)
    requires s.hold.Starting?
    requires var r := Enqueued(s.db, s.hold.name, s.hold.task, id, Resolved(s.paths, s.hold.task.work.workspace),
                               s.now);
             l == if r.Ok? then QueueRun(id, s.now) else Release
    ensures Enabled(s, l) && Do(s, l) == s.(db := Do(s, l).db, hold := Free, fires := Do(s, l).fires,
                                            dirs := Do(s, l).dirs)
    ensures var r := Enqueued(s.db, s.hold.name, s.hold.task, id, Resolved(s.paths, s.hold.task.work.workspace), s.now);
            Do(s, l).db == if r.Ok? then r.value.0 else s.db
  {
  }

  lemma EnableIsARun(s: State, name: Name, ready: bool, units: bool, timer: bool) returns (run: seq<Step>)
    requires s.hold.Free?
    ensures Ran(s, run, EnableResult(s.db, name, ready, units, timer).0)
  {
    run := [];
    NoStep(s);
    if Got(s.db, name).Ok? && ready && Tested(s.db, Link(name, s.db.tasks[name].revision)) && units {
      var held := s.(hold := Testing(name, s.db.tasks[name]));
      var on := s.(db := WithEnabled(s.db, name, true), hold := Enabling(name));
      var last := if timer then Release else TimerFails;
      run := [BeginEnable(name), SetEnabled, last];
      TurnedOff(s.db, name);
      LastOfEnabling(on, name, last, timer);
      ThreeSteps(s, BeginEnable(name), held, SetEnabled, on, last);
      LeadsRan(s, run, Do(on, last));
    }
  }

  /** The timer starts, or enabling is taken back. */
  lemma LastOfEnabling(s: State, name: Name, l: Step, timer: bool)
    requires s.hold == Enabling(name) && name in s.db.tasks && l == if timer then Release else TimerFails
    ensures Enabled(s, l) && Do(s, l) == s.(hold := Free, db := if timer then s.db else WithEnabled(s.db, name, false))
  {
  }

  lemma TurnedOff(db: Db, name: Name)
    requires name in db.tasks
    ensures WithEnabled(WithEnabled(db, name, true), name, false) == WithEnabled(db, name, false)
  {
  }

  lemma PauseIsARun(s: State, name: Name, remove: bool, owned: bool, timer: bool) returns (run: seq<Step>)
    requires s.hold.Free?
    ensures Ran(s, run, PauseResult(s.db, name, remove, owned, timer).0)
  {
    run := [];
    NoStep(s);
    if Got(s.db, name).Ok? && owned {
      var off := s.(db := WithEnabled(s.db, name, false), hold := if remove then Removing(name) else Free);
      var last := if timer && remove then Delete else Release;
      run := [BeginPause(name, remove), last];
      TwoSteps(s, BeginPause(name, remove), off, last);
      LeadsRan(s, run, Do(off, last));
    }
  }

  // ----- the worker -----------------------------------------------------------------------------------

  lemma {:induction false} RecoveringIsARun(s: State, rows: seq<Id>) returns (run: seq<Step>)
    requires s.worker == Recovering(rows) && forall i :: 0 <= i < |rows| ==> rows[i] in s.db.jobs
    ensures Leads(s, run, s.(db := Recovered(s.db, rows, s.now), worker := Recovering([])))
    decreases rows
  {
    if rows == [] {
      run := [];
      NoStep(s);
    } else {
      var mid := Do(s, RecoverOne);
      var rest := RecoveringIsARun(mid, rows[1..]);
      run := [RecoverOne] + rest;
      OneStep(s, RecoverOne);
      Onwards(s, [RecoverOne], mid, rest, s.(db := Recovered(s.db, rows, s.now), worker := Recovering([])));
    }
  }

  lemma {:induction false} Onwards(s: State, first: seq<Step>, mid: State, more: seq<Step>, end: State)
    requires Leads(s, first, mid) && Leads(mid, more, end)
    ensures Leads(s, first + more, end)
    decreases more
  {
    if more == [] {
      assert first + more == first;
    } else {
      var n := |more| - 1;
      Onwards(s, first, mid, more[..n], After(mid, more[..n]));
      Then(s, first + more[..n], After(mid, more[..n]), more[n]);
      assert first + more == first + more[..n] + [more[n]];
    }
  }

  /** A worker that starts: it takes the running jobs as rows, finishes each, and serves. */
  lemma RecoverIsARun(s: State, rows: seq<Id>) returns (run: seq<Step>)
    requires s.worker.Down? && Covers(rows, RunningIds(s.db)) && forall i :: 0 <= i < |rows| ==> rows[i] in s.db.jobs
    ensures Leads(s, run, s.(db := Recovered(s.db, rows, s.now), worker := Polling))
  {
    var begun := s.(worker := Recovering(rows));
    OneStep(s, WorkerStarts(rows));
    var middle := RecoveringIsARun(begun, rows);
    var done := s.(db := Recovered(s.db, rows, s.now), worker := Recovering([]));
    Onwards(s, [WorkerStarts(rows)], begun, middle, done);
    OneStep(done, Serve);
    Onwards(s, [WorkerStarts(rows)] + middle, done, [Serve], s.(db := Recovered(s.db, rows, s.now), worker := Polling));
    run := [WorkerStarts(rows)] + middle + [Serve];
  }

  /** The turns of the loop see the cancellation flag as it is, and none before the last breaks. */
  predicate Turns(looks: seq<Look>, requested: bool) {
    && (forall i :: 0 <= i < |looks| ==> looks[i].requested == requested)
    && (forall i :: 0 <= i < |looks| - 1 ==> !Stops(looks, i))
  }

  lemma EarlierTurns(looks: seq<Look>, n: nat, requested: bool)
    requires Turns(looks, requested) && n < |looks|
    ensures FirstStop(looks[..n]) == n && Turns(looks[..n], requested)
  {
    forall i | 0 <= i < n ensures !Stops(looks[..n], i) {
      assert looks[..n][..i + 1] == looks[..i + 1] && looks[..n][i] == looks[i] && !Stops(looks, i);
    }
  }

  lemma {:induction false} PollingIsARun(s: State, looks: seq<Look>) returns (run: seq<Step>)
    requires s.worker.Executing? && s.worker.looks == [] && s.worker.job in s.db.jobs
    requires Turns(looks, s.db.jobs[s.worker.job].cancelRequested)
    ensures Leads(s, run, s.(worker := Executing(s.worker.job, looks)))
    decreases looks
  {
    if looks == [] {
      run := [];
      NoStep(s);
    } else {
      var n := |looks| - 1;
      EarlierTurns(looks, n, s.db.jobs[s.worker.job].cancelRequested);
      var before := PollingIsARun(s, looks[..n]);
      Then(s, before, s.(worker := Executing(s.worker.job, looks[..n])), Poll(looks[n]));
      run := before + [Poll(looks[n])];
      assert looks[..n] + [looks[n]] == looks;
    }
  }

  /** Running a claimed job to its end, while nobody cancels it: the loop's turns and the terminal transaction. */
  lemma RunJobIsARun(s: State, looks: seq<Look>, error: Option<string>, status: Option<int>) returns (run: seq<Step>)
    requires s.worker.Executing? && s.worker.looks == [] && s.worker.job in s.db.jobs && Execution.Ran(looks, error)
    requires Turns(looks, s.db.jobs[s.worker.job].cancelRequested)
    ensures var job := s.worker.job;
            var exit := Verdict(looks, s.db.jobs[job].work.timeout, error, status);
            Leads(s, run, s.(db := Finished(s.db, job, exit.outcome, exit.reason, exit.code, s.now).value,
                             worker := Polling,
                             ledger := s.ledger[job := looks]))
  {
    var polled := PollingIsARun(s, looks);
    Then(s, polled, s.(worker := Executing(s.worker.job, looks)), Finish(error, status));
    run := polled + [Finish(error, status)];
  }
}
