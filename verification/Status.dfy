/** Task statuses and the mapping from what a worker reports (tasks/status.py). */
module Status {
  import opened Wrappers

  datatype TaskStatus =
    | Queued | Dispatching | Processing | StoringResult
    | Completed | Failed | Expired

  predicate Terminal(s: TaskStatus) {
    s.Completed? || s.Failed? || s.Expired?
  }

  /** Work that still counts as autoscaling demand. */
  predicate Demand(s: TaskStatus) {
    s.Queued? || s.Dispatching? || s.Processing?
  }

  /** Work that occupies a compute slot of its worker. */
  predicate UsesCapacity(s: TaskStatus) {
    s.Dispatching? || s.Processing?
  }

  /** Work that keeps a draining worker alive. */
  predicate BlocksDrain(s: TaskStatus) {
    s.Dispatching? || s.Processing? || s.StoringResult?
  }

  /** How far a task has come; the three terminal statuses share the last rank. */
  function Rank(s: TaskStatus): nat {
    match s
    case Queued => 0
    case Dispatching => 1
    case Processing => 2
    case StoringResult => 3
    case Completed | Failed | Expired => 4
  }

  predicate AcceptedNonterminal(status: string) {
    status == "queued" || status == "pending" || status == "processing"
  }

  function UpstreamToInternal(status: string): Option<TaskStatus> {
    if status == "completed" then Some(Completed)
    else if status == "failed" then Some(Failed)
    else if status == "expired" then Some(Expired)
    else if status == "dispatching" then Some(Dispatching)
    else if status == "processing" then Some(Processing)
    else if status == "storing_result" then Some(StoringResult)
    else None
  }

  function NormalizeUpstreamStatus(status: Option<string>, current: TaskStatus): TaskStatus {
    if status.None? then current
    else
      var mapped := if AcceptedNonterminal(status.value) then Some(Processing) else UpstreamToInternal(status.value);
      if mapped.None? then current
      else if (current.Processing? || current.Dispatching? || current.StoringResult?)
              && (mapped.value.Queued? || mapped.value.Dispatching?) then current
      else mapped.value
  }

  /** The part of a status report that reaches a task row's lifecycle: the optional `status` entry,
      whose value may be null. */
  datatype Report = Report(status: Option<Option<string>>)

  /** The status the row is given, or None when the report carries no `status` entry. */
  function ReportedStatus(current: TaskStatus, report: Report): Option<TaskStatus> {
    if report.status.None? then None
    else Some(NormalizeUpstreamStatus(report.status.value, current))
  }

  /** From a live status no report ever puts a task back into the queue or into dispatch. */
  lemma LiveTasksNeverRequeue(status: Option<string>, current: TaskStatus)
    requires current.Processing? || current.StoringResult?
    ensures !NormalizeUpstreamStatus(status, current).Queued?
    ensures !NormalizeUpstreamStatus(status, current).Dispatching?
  {
    if status.Some? && AcceptedNonterminal(status.value) {
    }
  }

  /** Exactly when a report moves a live task backwards: a task waiting for its result to be stored
      is reported as still being worked on. */
  lemma ReportLosesProgressIff(status: Option<string>, current: TaskStatus)
    requires current.Processing? || current.StoringResult?
    ensures Rank(NormalizeUpstreamStatus(status, current)) < Rank(current)
            <==> current.StoringResult? && status.Some? && AcceptedNonterminal(status.value)
  {
    if status.Some? && AcceptedNonterminal(status.value) {
    }
  }
}
