/** What every reachable state of the deployment satisfies. */
module Invariant {
  import opened Wrappers
  import opened Status
  import opened Rows
  import opened Protocol
  import Payload

  // ---------- tasks ----------

  /** Which fields are set in which status. */
  predicate Shape(id: TaskId, t: Task) {
    && (t.payloadKey.None? || t.payloadKey == Some(PayloadObj(id)))
    && (t.upstreamId.Some? <==> t.upstreamUrl.Some?)
    && (t.upstreamUrl.Some? ==> t.upstreamUrl.value != "")
    && (Terminal(t.status) <==> t.completedAt.Some?)
    && (t.resultKey == if t.status.Completed? then Some(ResultObj(id)) else None)
    && match t.status
       case Queued => t.workerId.None? && t.upstreamId.None? && t.dispatchStartedAt.None?
       case Dispatching => t.workerId.Some? && t.upstreamId.None? && t.dispatchStartedAt.Some?
       case Processing | StoringResult =>
         t.workerId.Some? && t.upstreamId.Some? && t.dispatchStartedAt.Some? && t.startedAt.Some?
       case _ => true
  }

  predicate Shapes(tasks: Tasks) {
    forall t <- tasks :: Shape(t, tasks[t])
  }

  ghost predicate WithinCapacity(c: Config, tasks: Tasks) {
    forall w: WorkerId :: Load(tasks, w) <= c.targetPerWorker
  }

  /** The row the fast loop is submitting is still its claim. */
  predicate ClaimHeld(tasks: Tasks, t: TaskId, w: WorkerId) {
    t in tasks && tasks[t].status.Dispatching? && tasks[t].workerId == Some(w)
  }

  predicate Waiting(tasks: Tasks, t: TaskId, p: Persist) {
    && t in tasks && tasks[t].status.StoringResult?
    && tasks[t].upstreamUrl == Some(p.url) && tasks[t].upstreamId == Some(p.upstreamId)
  }

  /** A result on its way: once put, the object holds what the recorded upstream task served. */
  predicate PersistOk(s: State, t: TaskId, p: Persist) {
    && Waiting(s.tasks, t, p)
    && (p.ToComplete? ==>
          ResultObj(t) in s.store && Served(p.url, p.upstreamId, s.store[ResultObj(t)]) in s.served)
  }

  ghost predicate FastOk(s: State) {
    match s.fast
    case FastIdle => true
    case Submitting(t, w, _, excluded) => ClaimHeld(s.tasks, t, w) && w !in excluded
    case Accepted(t, w, url, upstreamId, _) =>
      && ClaimHeld(s.tasks, t, w) && url != ""
      && t in s.requests && Acceptance(t, url, upstreamId, s.requests[t]) in s.accepted
    case Syncing(todo) => forall t <- todo :: t in s.tasks && s.tasks[t].status.Processing?
    case Persisting(todo) => forall t <- todo :: PersistOk(s, t, todo[t])
  }

  /** Ids are drawn once, and an id is at one stage of its intake at a time. */
  predicate IdsOk(s: State) {
    && s.tasks.Keys <= s.issued && s.requests.Keys <= s.issued
    && s.uploading <= s.requests.Keys && s.copying <= s.issued
    && s.uploading !! s.tasks.Keys && s.copying !! s.tasks.Keys && s.copying !! s.requests.Keys
  }

  /** The object under the task's payload key is its packed request. */
  ghost predicate PayloadStored(s: State, t: TaskId) {
    && t in s.requests && PayloadObj(t) in s.store
    && Payload.Packed(s.requests[t]) == Result.Ok(s.store[PayloadObj(t)])
  }

  ghost predicate PayloadsOk(s: State) {
    && (forall t <- s.requests :: Accepts(s.requests[t]))
    && (forall t <- s.uploading :: PayloadStored(s, t))
    && (forall t <- s.tasks :: s.tasks[t].payloadKey.Some? && !Terminal(s.tasks[t].status) ==> PayloadStored(s, t))
  }

  /** The result object of a finished task holds what the recorded upstream task served. */
  predicate ResultStored(s: State, t: TaskId)
    requires t in s.tasks
  {
    var row := s.tasks[t];
    && ResultObj(t) in s.store
    && (row.upstreamId.Some? && row.upstreamUrl.Some? ==>
          Served(row.upstreamUrl.value, row.upstreamId.value, s.store[ResultObj(t)]) in s.served)
  }

  /** The upstream identity on a row comes from an acceptance of that task's own request. */
  ghost predicate Identified(s: State, t: TaskId)
    requires t in s.tasks
  {
    var row := s.tasks[t];
    row.upstreamId.Some? && row.upstreamUrl.Some? ==>
      t in s.requests
      && Acceptance(t, row.upstreamUrl.value, row.upstreamId.value, s.requests[t]) in s.accepted
  }

  ghost predicate ResultsOk(c: Config, s: State) {
    && (forall t <- s.tasks :: Identified(s, t))
    && (forall t <- s.tasks ::
          s.tasks[t].status.Completed? && !PastRetention(s.tasks[t], s.now - c.retention) ==> ResultStored(s, t))
    && (forall t <- s.copying :: ResultObj(t) in s.store)
  }

  ghost predicate AcceptedOk(s: State) {
    forall a <- s.accepted :: a.task in s.requests && a.request == s.requests[a.task]
  }

  predicate CleaningOk(c: Config, s: State) {
    s.slow.Cleaning? ==>
      && s.slow.cutoff <= s.now - c.retention
      && forall t <- s.slow.toClean ::
           && t in s.tasks && PastRetention(s.tasks[t], s.slow.cutoff)
           && s.tasks[t].payloadKey == s.slow.toClean[t].0.payloadKey
           && s.tasks[t].resultKey == s.slow.toClean[t].0.resultKey
  }

  /** The tables and the store, whatever the fast loop holds. */
  ghost predicate TablesOk(c: Config, s: State) {
    && Shapes(s.tasks) && WithinCapacity(c, s.tasks) && IdsOk(s) && PayloadsOk(s) && ResultsOk(c, s)
    && AcceptedOk(s) && CleaningOk(c, s)
  }

  ghost predicate TasksOk(c: Config, s: State) {
    TablesOk(c, s) && FastOk(s)
  }

  // ---------- workers ----------

  /** A stalled worker is unhealthy and out of service until an administrator recovers it. */
  predicate RowOk(c: Config, w: Worker) {
    && (w.terminatedAt.Some? ==> w.desired.WantTerminated?)
    && (w.stalledAt.Some? ==> !w.healthy && (w.draining || !w.desired.WantRunning?))
    && (w.stalledAt.Some? && !w.desired.WantTerminated? ==> StalledCount(c, w))
    && (StalledCount(c, w) ==> w.stalledAt.Some?)
  }

  predicate RowsOk(c: Config, workers: Workers) {
    forall w <- workers :: RowOk(c, workers[w])
  }

  /** No worker that is to be restarted is stalled. */
  predicate NoStalledSpare(workers: Workers) {
    forall w <- workers :: workers[w].desired.WantStopped? ==> workers[w].stalledAt.None?
  }

  predicate NotYetVisited(c: Config, workers: Workers, todo: Workers) {
    forall w <- todo :: w in workers && workers[w].desired == todo[w].desired && VisitMayReset(c, todo[w], workers[w])
  }

  /** A visit that is not skipped may clear the failure count: the worker is then not stalled. */
  predicate VisitMayReset(c: Config, seen: Worker, row: Worker) {
    !seen.desired.WantTerminated? && !StalledCount(c, seen) ==> row.stalledAt.None?
  }

  predicate StalledSparesIn(workers: Workers, ws: set<WorkerId>) {
    forall w <- workers :: workers[w].desired.WantStopped? && workers[w].stalledAt.Some? ==> w in ws
  }

  predicate Sidelined(w: Worker) {
    w.draining || !w.healthy
  }

  predicate NotYetDrained(workers: Workers, todo: Workers) {
    forall w <- todo :: w in workers && !workers[w].desired.WantTerminated? && Sidelined(workers[w])
  }

  predicate SlowOk(c: Config, s: State) {
    var ws := s.workers;
    match s.slow
    case Reconciling(todo, _) => NotYetVisited(c, ws, todo)
    case Visiting(todo, _, w, seen) =>
      && NotYetVisited(c, ws, todo) && w !in todo && w in ws
      && (ws[w].desired == seen.desired || ws[w].desired.WantTerminated?)
      && !SkipsReconcile(c, seen, s.slow.at)
      && VisitMayReset(c, seen, ws[w])
    case Converging(todo, _) =>
      && StalledSparesIn(ws, todo.Keys)
      && (forall w <- todo :: w in ws && !ws[w].healthy && todo[w].stalledAt.Some?)
    case ConvergeAt(todo, _, w, seen, active) =>
      && StalledSparesIn(ws, todo.Keys + {w}) && w !in todo
      && (forall v <- todo :: v in ws && !ws[v].healthy && todo[v].stalledAt.Some?)
      && w in ws && !ws[w].healthy && seen.stalledAt.Some? && (active ==> !ws[w].desired.WantStopped?)
    case Converged | Scaling => NoStalledSpare(ws)
    case Probing(probed) => NoStalledSpare(ws) && forall w <- probed :: w in ws && ws[w].stalledAt.None?
    case ScaleRestart(w) => NoStalledSpare(ws) && w in ws && ws[w].desired.WantStopped?
    case ScaleCreate => |LiveWorkers(ws)| < c.maxWorkers + 1
    case ScaleDrain(w) => w in ws
    case Draining(todo) => NotYetDrained(ws, todo)
    case DrainAt(todo, w, _) =>
      && NotYetDrained(ws, todo) && w !in todo
      && w in ws && !ws[w].desired.WantTerminated? && Sidelined(ws[w])
    case DrainTo(todo, w, _) =>
      && NotYetDrained(ws, todo) && w !in todo
      && w in ws && !ws[w].desired.WantTerminated? && Sidelined(ws[w])
    case Finalizing(todo) => forall w <- todo :: w in ws && ws[w].desired.WantTerminated?
    case RotationStart(target) =>
      && target in ws && ws[target].replacementFor.None?
      && ActiveReplacements(ws) == {} && |LiveWorkers(ws)| < c.maxWorkers + 1
    case _ => true
  }

  /** Replacement links are of depth one and raise the generation by one. */
  predicate LinksOk(workers: Workers) {
    forall v <- workers ::
      workers[v].replacementFor.Some? ==>
        var w := workers[v].replacementFor.value;
        w in workers && workers[w].replacementFor.None? && workers[v].generation == workers[w].generation + 1
  }

  predicate FleetOk(c: Config, workers: Workers) {
    && |LiveWorkers(workers)| <= c.maxWorkers + 1
    && |ActiveReplacements(workers)| <= 1
    && LinksOk(workers)
  }

  predicate WorkersOk(c: Config, s: State) {
    RowsOk(c, s.workers) && SlowOk(c, s) && FleetOk(c, s.workers)
  }

  // ---------- tasks and workers together ----------

  /** Workers that must not have work: stopped ones, those terminated quietly, and the one whose
      counts the slow loop has just read as zero. */
  predicate MustBeIdle(s: State, w: WorkerId) {
    || (w in s.workers && s.workers[w].desired.WantStopped?)
    || w in s.quiet
    || (s.slow.DrainAt? && s.slow.w == w)
    || (s.slow.DrainTo? && s.slow.w == w)
    || (s.slow.ConvergeAt? && s.slow.w == w && !s.slow.active)
  }

  ghost predicate IdleOk(s: State) {
    forall w :: MustBeIdle(s, w) ==> Unattended(s.tasks, w)
  }

  predicate QuietOk(s: State) {
    forall w <- s.quiet :: w in s.workers && s.workers[w].desired.WantTerminated?
  }

  ghost predicate Inv(c: Config, s: State) {
    c.Valid() && TasksOk(c, s) && WorkersOk(c, s) && IdleOk(s) && QuietOk(s)
  }
}
