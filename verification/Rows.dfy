/** The rows of the two tables and the object-store keys (db/models.py, tasks/storage.py), the
    settings that reach them (config.py), and the in-place updates the repositories make. */
module Rows {
  import opened Wrappers
  import opened Status

  type TaskId = string
  /** Worker identifiers are only compared, for equality and for order. */
  type WorkerId = int
  type InstanceId = int
  type Time = int

  datatype ObjKey =
    | PayloadObj(task: TaskId)
    | ResultObj(task: TaskId)
    | CacheObj(cacheKey: string, generation: string)

  datatype Task = Task(
    status: TaskStatus,
    workerId: Option<WorkerId>,
    upstreamId: Option<string>,
    upstreamUrl: Option<string>,
    createdAt: Time,
    dispatchStartedAt: Option<Time>,
    startedAt: Option<Time>,
    completedAt: Option<Time>,
    nextPollAt: Option<Time>,
    payloadKey: Option<ObjKey>,
    resultKey: Option<ObjKey>,
    cacheKey: Option<string>)

  /** Worker.desired_state. */
  datatype Intent = WantRunning | WantStopped | WantTerminated

  /** Worker.cloud_state. */
  datatype CloudState = Pending | Running | Stopping | Terminating | Stopped | Terminated | Unknown

  datatype Worker = Worker(
    instanceId: Option<InstanceId>,
    baseUrl: Option<string>,
    generation: nat,
    desired: Intent,
    cloud: CloudState,
    healthy: bool,
    draining: bool,
    drainTarget: Option<Intent>,
    replacementFor: Option<WorkerId>,
    rotationRequested: bool,
    failureCount: nat,
    retryAfter: Option<Time>,
    stalledAt: Option<Time>,
    readyAt: Option<Time>,
    startRequestedAt: Option<Time>,
    lastActiveAt: Option<Time>,
    terminatedAt: Option<Time>,
    createdAt: Time)

  datatype Config = Config(
    targetPerWorker: nat,
    minWorkers: nat,
    maxWorkers: nat,
    scaleUpCooldown: nat,
    idleCooldown: nat,
    maxFailures: nat,
    stalledGrace: nat,
    launchTimeout: nat,
    rotationInterval: nat,
    replacementTimeout: nat,
    retention: nat)
  {
    /** The bounds the settings validators enforce. */
    predicate Valid() {
      targetPerWorker > 0 && minWorkers <= maxWorkers && maxFailures > 0
    }
  }

  const DISPATCH_CLAIM_TIMEOUT: int := 120
  const POLL_RETRY_DELAY: int := 30

  type Tasks = map<TaskId, Task>
  type Workers = map<WorkerId, Worker>

  // ---------- task rows (task_repository.py) ----------

  function NewTask(payloadKey: Option<ObjKey>, cacheKey: Option<string>, now: Time): Task {
    Task(Queued, None, None, None, now, None, None, None, None, payloadKey, None, cacheKey)
  }

  function HitTask(id: TaskId, cacheKey: string, now: Time): Task {
    Task(Completed, None, None, None, now, None, None, Some(now), None, None, Some(ResultObj(id)), Some(cacheKey))
  }

  /** The rows `_claim_next_dispatch` selects from. */
  predicate Claimable(t: Task) {
    t.status.Queued? && t.upstreamId.None? && t.upstreamUrl.None?
  }

  predicate OldestClaimable(tasks: Tasks, id: TaskId) {
    && id in tasks && Claimable(tasks[id])
    && forall o <- tasks :: Claimable(tasks[o]) ==> tasks[id].createdAt <= tasks[o].createdAt
  }

  function Claimed(t: Task, w: WorkerId, now: Time): Task {
    t.(status := Dispatching, dispatchStartedAt := Some(now), workerId := Some(w))
  }

  function Requeued(t: Task): Task {
    t.(status := Queued, dispatchStartedAt := None, workerId := None)
  }

  function Reassigned(t: Task, w: WorkerId): Task {
    t.(workerId := Some(w))
  }

  /** `_mark_processing`: the upstream identity is recorded together with the status it implies. */
  function Recorded(t: Task, w: WorkerId, upstreamId: string, url: string, reported: string, now: Time): Task {
    var r := t.(workerId := Some(w), upstreamId := Some(upstreamId), upstreamUrl := Some(url));
    var normalized := NormalizeUpstreamStatus(Some(reported), Processing);
    var s :=
      if normalized.Completed? then r.(status := StoringResult)
      else if Terminal(normalized) then r.(status := normalized, completedAt := Some(now))
      else r.(status := normalized);
    if s.startedAt.None? then s.(startedAt := Some(now)) else s
  }

  function MarkedFailed(t: Task, now: Time): Task {
    t.(status := Failed, completedAt := Some(now))
  }

  /** `apply_upstream_payload` on a row. */
  function Polled(t: Task, report: Report, now: Time): Task {
    match ReportedStatus(t.status, report)
    case None => t
    case Some(s) =>
      var r := if s.Completed? then t.(status := StoringResult) else t.(status := s);
      if (s.Failed? || s.Expired?) && r.completedAt.None? then r.(completedAt := Some(now)) else r
  }

  function Deferred(t: Task, now: Time): Task {
    t.(nextPollAt := Some(now + POLL_RETRY_DELAY))
  }

  function CompletedWith(t: Task, key: ObjKey, now: Time): Task {
    var r := t.(resultKey := Some(key), status := Completed);
    if r.completedAt.None? then r.(completedAt := Some(now)) else r
  }

  predicate Pollable(t: Task, now: Time) {
    t.nextPollAt.None? || t.nextPollAt.value <= now
  }

  predicate SyncCandidate(t: Task, now: Time) {
    (t.status.Processing? || t.status.Dispatching?) && t.upstreamId.Some? && t.upstreamUrl.Some? && Pollable(t, now)
  }

  predicate PersistCandidate(t: Task, now: Time) {
    t.status.StoringResult? && t.resultKey.None? && t.upstreamId.Some? && t.upstreamUrl.Some? && Pollable(t, now)
  }

  predicate StaleClaim(t: Task, cutoff: Time) {
    && t.status.Dispatching? && t.upstreamId.None?
    && t.dispatchStartedAt.Some? && t.dispatchStartedAt.value < cutoff
  }

  function RecoverStale(tasks: Tasks, cutoff: Time): Tasks {
    map id <- tasks :: if StaleClaim(tasks[id], cutoff) then Requeued(tasks[id]) else tasks[id]
  }

  predicate PastRetention(t: Task, cutoff: Time) {
    Terminal(t.status) && t.completedAt.Some? && t.completedAt.value < cutoff
  }

  /** The tasks attached to a worker that keep its drain from finishing. */
  function ActiveOn(tasks: Tasks, w: WorkerId): set<TaskId> {
    set id | id in tasks && tasks[id].workerId == Some(w) && BlocksDrain(tasks[id].status)
  }

  /** The tasks that occupy the worker's compute slots. */
  function LoadSet(tasks: Tasks, w: WorkerId): set<TaskId> {
    set id | id in tasks && tasks[id].workerId == Some(w) && UsesCapacity(tasks[id].status)
  }

  function Load(tasks: Tasks, w: WorkerId): nat {
    |LoadSet(tasks, w)|
  }

  // ---------- worker rows (worker_repository.py) ----------

  function NewWorker(now: Time): Worker {
    Worker(None, None, 0, WantRunning, Pending, false, false, None, None, false, 0, None, None, None, Some(now), None,
           None, now)
  }

  function NewReplacement(target: Worker, targetId: WorkerId, now: Time): Worker {
    NewWorker(now).(replacementFor := Some(targetId), generation := target.generation + 1)
  }

  predicate Live(w: Worker) { w.terminatedAt.None? }

  predicate StalledCount(c: Config, w: Worker) { w.failureCount >= c.maxFailures }

  predicate Serviceable(c: Config, w: Worker) {
    && Live(w) && w.desired.WantRunning? && w.cloud.Running? && w.healthy && w.baseUrl.Some? && !w.draining
    && !StalledCount(c, w)
  }

  predicate ReadyServiceable(c: Config, w: Worker) {
    Serviceable(c, w) && w.readyAt.Some?
  }

  predicate HealthCandidate(w: Worker) {
    Live(w) && w.baseUrl.Some? && w.desired.WantRunning? && (w.cloud.Running? || w.cloud.Pending?) && !w.draining
  }

  predicate Provisioning(c: Config, w: Worker) {
    && Live(w) && w.desired.WantRunning? && !w.draining && !StalledCount(c, w)
    && (w.cloud.Pending? || w.cloud.Unknown? || (w.cloud.Running? && !w.healthy && w.readyAt.None?))
  }

  predicate IsDraining(w: Worker) {
    Live(w) && w.draining && !w.desired.WantTerminated?
  }

  predicate IsStopping(w: Worker) {
    && Live(w)
    && (w.cloud.Stopping? || w.cloud.Terminating?
        || (!w.desired.WantRunning? && !w.cloud.Stopped? && !w.cloud.Terminated?))
  }

  predicate StalledAndActive(c: Config, w: Worker) {
    Live(w) && StalledCount(c, w) && !w.desired.WantTerminated?
  }

  predicate StoppedSpare(w: Worker) {
    Live(w) && w.desired.WantStopped? && w.cloud.Stopped? && w.instanceId.Some? && !w.draining
  }

  predicate IdleSince(tasks: Tasks, id: WorkerId, w: Worker, before: Time) {
    && Live(w) && w.desired.WantRunning? && w.cloud.Running? && w.healthy && !w.draining && w.replacementFor.None?
    && w.readyAt.Some? && w.readyAt.value < before
    && (forall t <- tasks :: tasks[t].workerId == Some(id) ==> !BlocksDrain(tasks[t].status))
    && (w.lastActiveAt.None? || w.lastActiveAt.value < before)
  }

  predicate RotationEligible(w: Worker) {
    && Live(w) && w.desired.WantRunning? && w.cloud.Running? && w.healthy && !w.draining && w.replacementFor.None?
    && w.instanceId.Some?
  }

  predicate ActiveReplacement(w: Worker) {
    Live(w) && w.replacementFor.Some? && !w.desired.WantTerminated?
  }

  predicate IsReady(w: Worker) {
    w.desired.WantRunning? && w.cloud.Running? && w.healthy && w.readyAt.Some? && w.baseUrl.Some?
  }

  const RETRY_SECONDS: seq<int> := [5, 15, 30, 60, 120]
  const RETRY_CAP_SECONDS: int := 300

  function RetryDelay(failureCount: nat): int
    requires failureCount >= 1
  {
    if failureCount <= |RETRY_SECONDS| then RETRY_SECONDS[failureCount - 1] else RETRY_CAP_SECONDS
  }

  function FailureRecorded(c: Config, w: Worker, retryable: bool, now: Time): Worker {
    var r := w.(failureCount := w.failureCount + 1);
    if StalledCount(c, r) then
      r.(healthy := false, retryAfter := None, stalledAt := if r.stalledAt.None? then Some(now) else r.stalledAt,
         draining := true, drainTarget := Some(WantTerminated))
    else if retryable then r.(retryAfter := Some(now + RetryDelay(r.failureCount)))
    else r
  }

  function FailuresReset(w: Worker): Worker {
    w.(failureCount := 0, retryAfter := None)
  }

  function Probed(w: Worker, ok: bool, now: Time): Worker {
    if !ok then w.(healthy := false)
    else
      var r := w.(healthy := true);
      if r.desired.WantRunning? && r.cloud.Running? && r.readyAt.None?
      then r.(readyAt := Some(now), startRequestedAt := None)
      else r
  }

  function Disappeared(w: Worker, now: Time): Worker {
    w.(desired := WantTerminated, cloud := Terminated, instanceId := None, baseUrl := None, readyAt := None,
       healthy := false, retryAfter := None, terminatedAt := Some(now))
  }

  function DrainIntended(w: Worker, target: Intent): Worker {
    w.(draining := true, drainTarget := Some(target))
  }

  function Recovered(w: Worker): Worker {
    var r := w.(failureCount := 0, retryAfter := None);
    if r.stalledAt.Some? then r.(stalledAt := None, draining := false, drainTarget := None) else r
  }

  /** The restart `_scale_up` asks of a stopped worker. */
  function Restarted(w: Worker, now: Time): Worker {
    w.(desired := WantRunning, failureCount := 0, retryAfter := None, startRequestedAt := Some(now), readyAt := None)
  }

  /** True when reconcile passes a worker over. */
  predicate SkipsReconcile(c: Config, w: Worker, now: Time) {
    || (StalledCount(c, w) && !w.desired.WantTerminated?)
    || (!StalledCount(c, w) && w.retryAfter.Some? && w.retryAfter.value > now)
  }
}
