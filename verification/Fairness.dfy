/** How long a ready job can be overtaken. */
module Fairness {
  import opened Text
  import opened Tables
  import opened JobQueue
  import opened History
  import opened Scheduler
  import opened Progress
  import opened OperatorSystem
  import opened OperatorTheorems

  /** The other queued jobs that may be claimed before `id`: ranked before it, or tied with it. */
  function Ahead(db: Db, id: Id): set<Id>
    requires id in db.jobs
  {
    set k | k in db.jobs && k != id && db.jobs[k].state == Queued && !Before(db.jobs[id], db.jobs[k])
  }

  predicate Queues(db: Db, id: Id) {
    id in db.jobs && db.jobs[id].state == Queued
  }

  /** A submission whose clock reading lies strictly past the job's ready time; other steps submit nothing. */
  predicate ReadAfter(l: Step, ready: real) {
    && (l.Submit? ==> l.at > ready) && (l.Retry? ==> l.at > ready) && (l.QueueRun? ==> l.at > ready)
  }

  predicate ClaimsOther(l: Step, id: Id) {
    l.Claim? && l.id != id
  }

  /** Jobs that are new in `b` were submitted past the ready time, so they rank behind. */
  ghost predicate NewcomersBehind(a: Db, b: Db, ready: real) {
    forall k :: k in b.jobs && k !in a.jobs ==> b.jobs[k].ready > ready
  }

  lemma SubmittedBehind(db: Db, id: Id, q: Request, at: real, ready: real)
    requires Submitted(db, id, q, at).Ok? && at > ready
    ensures NewcomersBehind(db, Submitted(db, id, q, at).value, ready)
  {
  }

  lemma QueuedBehind(s: State, id: Id, at: real, ready: real)
    requires Enabled(s, QueueRun(id, at)) && at > ready
    ensures NewcomersBehind(s.db, Do(s, QueueRun(id, at)).db, ready)
  {
    if !exists k :: k in s.db.links && ActiveRun(s.db, s.hold.name, k) {
      SubmittedBehind(s.db, id, RunRequest(s.hold.task, Resolved(s.paths, s.hold.task.work.workspace)), at, ready);
    }
  }

  lemma NewcomersRankBehind(s: State, l: Step, b: Db, ready: real)
    requires Inv(s) && Enabled(s, l) && ReadAfter(l, ready) && b == Do(s, l).db
    ensures NewcomersBehind(s.db, b, ready)
  {
    if l.Submit? {
      SubmittedBehind(s.db, l.id, l.q, l.at, ready);
    } else if l.Retry? {
      SubmittedBehind(s.db, l.id, RetryRequest(s.db.jobs[l.parent], l.parent, l.workspace), l.at, ready);
    } else if l.QueueRun? {
      QueuedBehind(s, l.id, l.at, ready);
    } else {
      OthersAddNoJob(s, l);
    }
  }

  lemma ReviewAddsNoJob(s: State, target: Option<Id>, rows: seq<Id>)
    requires Inv(s) && Enabled(s, Review(target, rows))
    ensures AllAcknowledged(s.db, rows, s.now).jobs.Keys == s.db.jobs.Keys
  {
    forall i | 0 <= i < |rows| ensures Outstanding(s.db, rows[i]) {
      assert rows[i] in OutstandingIds(s.db, target);
    }
    AllAcknowledgedKeeps(s.db, rows, s.now);
  }

  lemma WorkAddsNoJob(s: State, l: Step)
    requires Enabled(s, l) && (l.Cancel? || l.Claim? || l.RecoverOne? || l.Finish?)
    ensures Do(s, l).db.jobs.Keys == s.db.jobs.Keys
  {
  }

  lemma OthersAddNoJob(s: State, l: Step)
    requires Inv(s) && Enabled(s, l) && !l.Submit? && !l.Retry? && !l.QueueRun?
    ensures Do(s, l).db.jobs.Keys == s.db.jobs.Keys
  {
    if l.Review? {
      ReviewAddsNoJob(s, l.target, l.rows);
    } else if WritesTask(l) {
      TaskWritesKeepJobs(s, l);
    } else if WritesNothing(l) {
      OthersWriteNothing(s, l);
    } else {
      WorkAddsNoJob(s, l);
    }
  }

  /** Between two states where the newcomers rank behind, the jobs that may overtake only become fewer. */
  lemma NobodyPushesAhead(a: Db, b: Db, id: Id)
    requires KeepsJobs(a, b) && Queues(a, id) && Queues(b, id) && NewcomersBehind(a, b, a.jobs[id].ready)
    ensures Ahead(b, id) <= Ahead(a, id)
  {
    assert Keeps(a.jobs[id], b.jobs[id]);
    forall k | k in Ahead(b, id) ensures k in Ahead(a, id) {
      assert k in a.jobs ==> Keeps(a.jobs[k], b.jobs[k]);
    }
  }

  lemma ClaimedWasAhead(db: Db, id: Id, other: Id, now: real)
    requires Queues(db, id) && db.jobs[id].ready <= now && IsNext(db, other, now) && other != id
    ensures other in Ahead(db, id) && other !in Ahead(Claimed(db, other, now), id)
  {
    assert Waiting(db, id, now);
  }

  /**
   * Once a queued job's ready time lies strictly behind every clock reading, no step adds a job that may overtake it,
   * and each claim of another job removes one that may.
   */
  lemma RankFalls(s: State, l: Step, id: Id)
    requires Inv(s) && Enabled(s, l) && Queues(s.db, id) && Queues(Do(s, l).db, id)
    requires ReadAfter(l, s.db.jobs[id].ready) && s.db.jobs[id].ready <= s.now
    ensures Ahead(Do(s, l).db, id) <= Ahead(s.db, id)
    ensures ClaimsOther(l, id) ==> |Ahead(Do(s, l).db, id)| < |Ahead(s.db, id)|
  {
    var b := Do(s, l).db;
    StepEvolves(s, l);
    NewcomersRankBehind(s, l, b, s.db.jobs[id].ready);
    NobodyPushesAhead(s.db, b, id);
    if ClaimsOther(l, id) {
      ClaimedWasAhead(s.db, id, l.id, s.now);
      Smaller(Ahead(b, id), Ahead(s.db, id), l.id);
    }
  }

  lemma Smaller<T>(a: set<T>, b: set<T>, x: T)
    requires a <= b && x in b && x !in a
    ensures |a| < |b|
  {
    assert a <= b - {x};
    Subset(a, b - {x});
  }

  lemma {:induction false} Subset<T>(a: set<T>, b: set<T>)
    requires a <= b
    ensures |a| <= |b|
    decreases a
  {
    if a != {} {
      var x :| x in a;
      Subset(a - {x}, b - {x});
    }
  }

  /** How often a run claims other jobs. */
  function Overtakings(run: seq<Step>, id: Id): nat {
    if run == [] then 0
    else Overtakings(run[..|run| - 1], id) + if ClaimsOther(run[|run| - 1], id) then 1 else 0
  }

  lemma StillQueuedBefore(a: Db, b: Db, c: Db, id: Id)
    requires KeepsJobs(a, b) && KeepsJobs(b, c) && Queues(a, id) && Queues(c, id)
    ensures Queues(b, id) && b.jobs[id].ready == a.jobs[id].ready
  {
    assert Keeps(a.jobs[id], b.jobs[id]) && Keeps(b.jobs[id], c.jobs[id]);
  }

  lemma StaysQueued(s: State, run: seq<Step>, id: Id)
    requires Inv(s) && Follows(s, run) && Queues(s.db, id) && Queues(After(s, run).db, id) && run != []
    ensures Queues(After(s, run[..|run| - 1]).db, id)
    ensures After(s, run[..|run| - 1]).db.jobs[id].ready == s.db.jobs[id].ready
  {
    var n := |run| - 1;
    NothingIsTakenBack(s, run[..n]);
    RunKeeps(s, run[..n]);
    StepEvolves(After(s, run[..n]), run[n]);
    StillQueuedBefore(s.db, After(s, run[..n]).db, After(s, run).db, id);
  }

  lemma ClockRuns(s: State, l: Step)
    requires Enabled(s, l)
    ensures s.now <= Do(s, l).now
  {
  }

  /**
   * No starvation: in a run through which a ready job stays queued, with all submissions reading the clock past its
   * ready time, other jobs are claimed at most as often as there were jobs ranked before it at the start.
   */
  lemma {:induction false} NoStarvation(s: State, run: seq<Step>, id: Id)
    requires Inv(s) && Follows(s, run) && Queues(s.db, id) && s.db.jobs[id].ready <= s.now &&
             Queues(After(s, run).db, id)
    requires forall i :: 0 <= i < |run| ==> ReadAfter(run[i], s.db.jobs[id].ready)
    ensures s.db.jobs[id].ready <= After(s, run).now
    ensures Overtakings(run, id) + |Ahead(After(s, run).db, id)| <= |Ahead(s.db, id)|
    decreases run
  {
    if run != [] {
      var n := |run| - 1;
      var mid := After(s, run[..n]);
      StaysQueued(s, run, id);
      assert forall i :: 0 <= i < n ==> run[..n][i] == run[i];
      NoStarvation(s, run[..n], id);
      RunKeeps(s, run[..n]);
      ClockRuns(mid, run[n]);
      RankFalls(mid, run[n], id);
      Subset(Ahead(After(s, run).db, id), Ahead(mid.db, id));
    }
  }
}
