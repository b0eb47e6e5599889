/** The rows of the operator queue database (jobs.py and tasks.py). */
module Tables {
  import opened Text

  type Id = string
  type Name = string

  datatype JobState = Queued | Running | Succeeded | Failed | Cancelled | TimedOut | Interrupted {
    predicate Active() {
      Queued? || Running?
    }

    /** The word stored in the `state` columns. */
    function Word(): string {
      match this
      case Queued => "queued"
      case Running => "running"
      case Succeeded => "succeeded"
      case Failed => "failed"
      case Cancelled => "cancelled"
      case TimedOut => "timed_out"
      case Interrupted => "interrupted"
    }

    predicate Terminal() {
      !Active()
    }

    /** The outcomes that ask for attention. */
    predicate Unsuccessful() {
      Failed? || TimedOut? || Interrupted?
    }
  }

  datatype Work = Work(kind: string, spec: string, workspace: string, timeout: int)

  function Signed(n: int): string {
    if n < 0 then "-" + Decimal(-n) else Decimal(n)
  }

  /** A reason or detail; the columns hold its text. */
  datatype Note =
    | RetryOf(parent: Id)
    | BeforeExecution
    | ByOperator
    | WorkerStopped
    | WorkerLost
    | Exceeded(timeout: int)
    | Status(code: int)
    | RunnerError(error: string)
    | OutcomeReviewed(state: JobState)
    | RestoredFrom(state: JobState)
  {
    function Text(): string {
      match this
      case RetryOf(parent) => "retry of " + parent
      case BeforeExecution => "Cancelled before execution"
      case ByOperator => "Cancelled by operator"
      case WorkerStopped => "Worker stopped; inspect logs before retrying"
      case WorkerLost => "Worker stopped before recording an outcome; inspect logs before retrying"
      case Exceeded(timeout) => "Exceeded " + Signed(timeout) + " seconds"
      case Status(code) => "Process exited with status " + Signed(code)
      case RunnerError(error) => "Runner error: " + error + "; check workspace, executable and provider configuration"
      case OutcomeReviewed(state) => "Reviewed " + state.Word() + " outcome; cleared login attention"
      case RestoredFrom(state) =>
        "Restored " + state.Word() + " job; review workspace and credentials, then explicitly retry"
    }
  }

  datatype Job = Job(work: Work, state: JobState, created: real, ready: real, started: Option<real>,
                     finished: Option<real>, exitCode: Option<int>, reason: Option<Note>,
                     cancelRequested: bool, parent: Option<Id>)

  datatype Mark = Became(state: JobState) | CancelAsked | Reviewed

  datatype Event = Event(job: Id, at: real, mark: Mark, detail: Option<Note>)

  datatype Ack = Ack(state: JobState, at: real)

  datatype Task = Task(calendar: string, catchUp: bool, work: Work, enabled: bool, revision: nat, deleted: bool)

  /** A row of `scheduled_runs`. */
  datatype Link = Link(task: Name, revision: nat)

  /** Event number n (its `seq`) is `events[n - 1]`: rows are only ever appended. */
  datatype Db = Db(jobs: map<Id, Job>, events: seq<Event>, acks: map<Id, Ack>,
                   tasks: map<Name, Task>, links: map<Id, Link>)

  const EMPTY := Db(map[], [], map[], map[], map[])
}
