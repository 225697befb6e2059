/** The deployment as one state machine: the task and worker tables, the object store, and the two
    scheduler loops with what each of them holds in memory between two database sessions.

    A step is one session block, one object-store call, one answer of a worker, or a move of a loop
    that only reads. Steps of the gateway, of the administrator, of the fast loop, of the slow loop and
    of the clock interleave freely; each loop is sequential. A loop that is aborted, by an exception or
    by a crash of the process, forgets what it held. */
module Protocol {
  import opened Wrappers
  import opened Status
  import opened Rows
  import opened Selection
  import Payload

  type Bytes = Payload.Bytes

  /** A result being fetched, and one fetched and put but not yet recorded. */
  datatype Persist =
    | ToFetch(url: string, upstreamId: string)
    | ToComplete(url: string, upstreamId: string)

  /** What the fast loop holds between sessions (scheduler.py, _fast_tick). */
  datatype FastPc =
    | FastIdle
    | Submitting(task: TaskId, worker: WorkerId, url: Option<string>, excluded: set<WorkerId>)
    | Accepted(task: TaskId, worker: WorkerId, acceptedBy: string, upstreamId: string, reported: string)
    | Syncing(toSync: set<TaskId>)
    | Persisting(toPersist: map<TaskId, Persist>)

  datatype CleanStage = PayloadLeft | ResultLeft | RowLeft

  /** What the slow loop holds between sessions (scheduler.py, _slow_tick). Rows it listed earlier are
      held as copies and may be out of date. */
  datatype SlowPc =
    | SlowIdle
    | Reconciling(todo: Workers, at: Time)
    | Visiting(todo: Workers, at: Time, w: WorkerId, seen: Worker)
    | Converging(todo: Workers, at: Time)
    | ConvergeAt(todo: Workers, at: Time, w: WorkerId, seen: Worker, active: bool)
    | Converged
    | Probing(probed: set<WorkerId>)
    | Scaling
    | ScaleRestart(w: WorkerId)
    | ScaleCreate
    | ScaleDrain(w: WorkerId)
    | Scaled
    | Rotating(todo: Workers, at: Time)
    | Draining(todo: Workers)
    | DrainAt(todo: Workers, w: WorkerId, seen: Worker)
    | DrainTo(todo: Workers, w: WorkerId, intent: Intent)
    | Finalizing(toFinalize: set<WorkerId>)
    | RotationCheck
    | RotationStart(target: WorkerId)
    | CleanupCheck
    | Cleaning(toClean: map<TaskId, (Task, CleanStage)>, cutoff: Time)

  /** A worker accepted a submission. */
  datatype Acceptance = Acceptance(task: TaskId, url: string, upstreamId: string, request: Payload.Request)

  /** A worker answered a result request with these bytes. */
  datatype Served = Served(url: string, upstreamId: string, data: Bytes)

  datatype State = State(
    tasks: Tasks,
    workers: Workers,
    store: map<ObjKey, Bytes>,
    now: Time,
    fast: FastPc,
    slow: SlowPc,
    issued: set<TaskId>,                       // every task id ever drawn
    requests: map<TaskId, Payload.Request>,    // what the client of an uploaded task sent
    uploading: set<TaskId>,                    // payload put, row not inserted yet
    copying: set<TaskId>,                      // cached result copied, row not inserted yet
    accepted: set<Acceptance>,                 // history: all acceptances
    served: set<Served>,                       // history: all result answers
    quiet: set<WorkerId>)                      // history: terminated by a drain or as stalled without work

  datatype GatewayStep =
    | PutPayload(t: TaskId, r: Payload.Request)
    | InsertTask(t: TaskId, cacheKey: Option<string>)
    | DropPayload(t: TaskId, deleted: bool)
    | PutHit(t: TaskId, data: Bytes)
    | InsertHit(t: TaskId, hitKey: string)
    | DropHit(t: TaskId, deleted: bool)

  datatype AdminStep =
    | AdminDrain(w: WorkerId, terminate: bool)
    | AdminRotate(w: WorkerId)
    | AdminRecover(w: WorkerId)

  datatype FastStep =
    | RecoverStaleClaims
    | ClaimNext(t: TaskId, w: WorkerId)
    | SubmitAccepted(upstreamId: string, reported: string)
    | FailPayload
    | FailContent
    | Reassign(w: WorkerId)
    | Requeue
    | RecordAccepted
    | SyncList(ts: set<TaskId>)
    | SyncApply(t: TaskId, report: Report)
    | SyncClear(t: TaskId)
    | SyncDefer(t: TaskId)
    | SyncDone
    | TouchWorker(w: WorkerId)
    | PersistList(ts: set<TaskId>)
    | PersistPut(t: TaskId, data: Bytes)
    | PersistComplete(t: TaskId)
    | PersistRollback(t: TaskId, deleted: bool)
    | PersistDefer(t: TaskId)
    | PersistDone
    | FastAbort

  datatype SlowStep =
    | ReconcileList
    | Rebind(w: WorkerId, i: InstanceId, cloud: CloudState)
    | VisitSkip(w: WorkerId)
    | Visit(w: WorkerId)
    | RecInstance(i: InstanceId)
    | RecCloud(cloud: CloudState)
    | RecLaunched(i: InstanceId, cloud: CloudState)
    | RecDown
    | RecGone
    | RecDisappeared
    | RecStart
    | RecUrl(url: string)
    | RecFail(retryable: bool)
    | RecReset
    | ConvergeList
    | ConvergeLook(w: WorkerId)
    | ConvergeQuiet
    | ConvergeStamp
    | ConvergeForce
    | ConvergeWait
    | ConvergeDone
    | HealthList(ws: set<WorkerId>)
    | HealthApply(ok: set<WorkerId>)
    | HealthSkip
    | ScaleFindStopped(w: WorkerId)
    | ScaleNeedNew
    | ScaleIdle(w: WorkerId)
    | ScaleNothing
    | ScaleRestartCommit
    | ScaleCreateCommit(id: WorkerId)
    | ScaleDrainCommit
    | RotationsList
    | RotateExpire(w: WorkerId)
    | RotateDrainOld(w: WorkerId)
    | RotateSkip(w: WorkerId)
    | DrainList
    | DrainBusy(w: WorkerId)
    | DrainLook(w: WorkerId)
    | DrainDefer
    | DrainDecide(intent: Intent)
    | DrainCommit
    | FinalizeList
    | Finalize(w: WorkerId)
    | FinalizeDone
    | RotationBegin(w: WorkerId)
    | RotationCommit(id: WorkerId)
    | RotationNone
    | CleanupList(ts: set<TaskId>)
    | CleanPayload(t: TaskId)
    | CleanResult(t: TaskId)
    | CleanRow(t: TaskId)
    | CleanSkip(t: TaskId)
    | CleanupDone
    | SlowAbort

  datatype Step =
    | Gateway(g: GatewayStep)
    | Admin(a: AdminStep)
    | Fast(f: FastStep)
    | Slow(l: SlowStep)
    | Tick(later: Time)
    | Crash

  // ---------- the gateway (gateway/ingest.py) ----------

  /** Requests reach packing with sanitised names, and packing them must succeed. */
  ghost predicate Accepts(r: Payload.Request) {
    Payload.Packed(r).Ok? && Payload.SafeNames(r.uploads)
  }

  ghost function GatewayNext(s: State, g: GatewayStep): Option<State> {
    match g
    case PutPayload(t, r) =>
      if t in s.issued || !Accepts(r) then None
      else Some(s.(issued := s.issued + {t}, requests := s.requests[t := r], uploading := s.uploading + {t},
                   store := s.store[PayloadObj(t) := Payload.Packed(r).value]))
    case InsertTask(t, cacheKey) =>
      if t !in s.uploading then None
      else Some(s.(uploading := s.uploading - {t},
                   tasks := s.tasks[t := NewTask(Some(PayloadObj(t)), cacheKey, s.now)]))
    case DropPayload(t, deleted) =>
      if t !in s.uploading then None
      else Some(s.(uploading := s.uploading - {t}, store := if deleted then s.store - {PayloadObj(t)} else s.store))
    case PutHit(t, data) =>
      if t in s.issued then None
      else Some(s.(issued := s.issued + {t}, copying := s.copying + {t}, store := s.store[ResultObj(t) := data]))
    case InsertHit(t, hitKey) =>
      if t !in s.copying then None
      else Some(s.(copying := s.copying - {t}, tasks := s.tasks[t := HitTask(t, hitKey, s.now)]))
    case DropHit(t, deleted) =>
      if t !in s.copying then None
      else Some(s.(copying := s.copying - {t}, store := if deleted then s.store - {ResultObj(t)} else s.store))
  }

  // ---------- the administrator (gateway/api/admin.py) ----------

  function SetWorker(s: State, w: WorkerId, row: Worker): State {
    s.(workers := s.workers[w := row])
  }

  function AdminNext(s: State, a: AdminStep): Option<State> {
    if a.w !in s.workers then None
    else
      var row := s.workers[a.w];
      match a
      case AdminDrain(w, terminate) =>
        Some(SetWorker(s, w, DrainIntended(row, if terminate then WantTerminated else WantStopped)))
      case AdminRotate(w) => Some(SetWorker(s, w, row.(rotationRequested := true)))
      case AdminRecover(w) => Some(SetWorker(s, w, Recovered(row)))
  }

  // ---------- the fast loop (task_repository.py, tasks/results.py) ----------

  /** What `_rebuild_payload` gives for the task. */
  function PayloadOf(s: State, t: TaskId): Payload.Rebuilt
    requires t in s.tasks
  {
    var key := s.tasks[t].payloadKey;
    if key.None? || key.value !in s.store then Payload.NoPayload else Payload.Rebuild(s.store[key.value])
  }

  function SetTask(s: State, t: TaskId, row: Task): State {
    s.(tasks := s.tasks[t := row])
  }

  function Touched(s: State, w: WorkerId): Workers {
    if w in s.workers then s.workers[w := s.workers[w].(lastActiveAt := Some(s.now))] else s.workers
  }

  /** The session in which a worker takes the claimed task over. */
  function TakenBy(s: State, t: TaskId, row: Task, w: WorkerId, excluded: set<WorkerId>): State
    requires w in s.workers
  {
    s.(tasks := s.tasks[t := row], workers := Touched(s, w),
       fast := Submitting(t, w, s.workers[w].baseUrl, excluded))
  }

  function Usable(url: Option<string>): bool {
    url.Some? && url.value != ""
  }

  function SubmitNext(c: Config, s: State, f: FastStep): Option<State>
    requires s.fast.Submitting? && s.fast.task in s.tasks
  {
    var Submitting(t, w, url, excluded) := s.fast;
    var row := s.tasks[t];
    var payload := PayloadOf(s, t);
    match f
    case SubmitAccepted(upstreamId, reported) =>
      if !payload.Rebuilt? || !Usable(url) then None
      else Some(s.(accepted := s.accepted + {Acceptance(t, url.value, upstreamId, payload.request)},
                   fast := Accepted(t, w, url.value, upstreamId, reported)))
    case FailPayload =>
      if !payload.NoPayload? then None
      else Some(SetTask(s, t, MarkedFailed(row, s.now)).(fast := FastIdle))
    case FailContent =>
      if !payload.Rebuilt? || !Usable(url) then None
      else Some(SetTask(s, t, MarkedFailed(row, s.now)).(fast := FastIdle))
    case Reassign(v) =>
      if !payload.Rebuilt? || !row.status.Dispatching? || v !in s.workers
         || Acquire(c, s.tasks, s.workers, excluded + {w}) != Some(v) then None
      else Some(TakenBy(s, t, Reassigned(row, v), v, excluded + {w}))
    case Requeue =>
      if !payload.Rebuilt? || !row.status.Dispatching?
         || Acquire(c, s.tasks, s.workers, excluded + {w}) != None then None
      else Some(SetTask(s, t, Requeued(row)).(fast := FastIdle))
    case _ => None
  }

  function SyncNext(s: State, f: FastStep): Option<State>
    requires s.fast.Syncing?
  {
    var todo := s.fast.toSync;
    match f
    case SyncApply(t, report) =>
      if t !in todo || t !in s.tasks then None
      else Some(SetTask(s, t, Polled(s.tasks[t], report, s.now)).(fast := Syncing(todo - {t})))
    case SyncClear(t) =>
      if t !in s.tasks then None else Some(SetTask(s, t, s.tasks[t].(nextPollAt := None)))
    case SyncDefer(t) =>
      if t !in todo || t !in s.tasks then None
      else Some(SetTask(s, t, Deferred(s.tasks[t], s.now)).(fast := Syncing(todo - {t})))
    case TouchWorker(w) => Some(s.(workers := Touched(s, w)))
    case SyncDone => Some(s.(fast := FastIdle))
    case _ => None
  }

  function PersistNext(s: State, f: FastStep): Option<State>
    requires s.fast.Persisting?
  {
    var todo := s.fast.toPersist;
    match f
    case PersistPut(t, data) =>
      if t !in todo || !todo[t].ToFetch? then None
      else
        var p := todo[t];
        Some(s.(served := s.served + {Served(p.url, p.upstreamId, data)}, store := s.store[ResultObj(t) := data],
                fast := Persisting(todo[t := ToComplete(p.url, p.upstreamId)])))
    case PersistComplete(t) =>
      if t !in todo || !todo[t].ToComplete? || t !in s.tasks then None
      else Some(SetTask(s, t, CompletedWith(s.tasks[t], ResultObj(t), s.now)).(fast := Persisting(todo - {t})))
    case PersistRollback(t, deleted) =>
      if t !in todo || !todo[t].ToComplete? then None
      else Some(s.(store := if deleted then s.store - {ResultObj(t)} else s.store, fast := Persisting(todo - {t})))
    case PersistDefer(t) =>
      if t !in s.tasks || !s.tasks[t].status.StoringResult? then None
      else Some(SetTask(s, t, Deferred(s.tasks[t], s.now)).(fast := Persisting(todo - {t})))
    case PersistDone => Some(s.(fast := FastIdle))
    case _ => None
  }

  function StartNext(c: Config, s: State, f: FastStep): Option<State>
    requires s.fast.FastIdle?
  {
    match f
    case RecoverStaleClaims => Some(s.(tasks := RecoverStale(s.tasks, s.now - DISPATCH_CLAIM_TIMEOUT)))
    case ClaimNext(t, w) =>
      if !OldestClaimable(s.tasks, t) || w !in s.workers || Acquire(c, s.tasks, s.workers, {}) != Some(w) then None
      else Some(TakenBy(s, t, Claimed(s.tasks[t], w, s.now), w, {}))
    case SyncList(ts) =>
      if exists t <- ts :: t !in s.tasks || !SyncCandidate(s.tasks[t], s.now) then None
      else Some(s.(fast := Syncing(ts)))
    case PersistList(ts) =>
      if exists t <- ts :: t !in s.tasks || !PersistCandidate(s.tasks[t], s.now) then None
      else Some(s.(fast := Persisting(map t | t in ts ::
                     ToFetch(s.tasks[t].upstreamUrl.GetOr(""), s.tasks[t].upstreamId.GetOr("")))))
    case _ => None
  }

  function FastNext(c: Config, s: State, f: FastStep): Option<State> {
    if f.FastAbort? then Some(s.(fast := FastIdle))
    else
      match s.fast
      case FastIdle => StartNext(c, s, f)
      case Submitting(t, _, _, _) => if t in s.tasks then SubmitNext(c, s, f) else None
      case Accepted(t, w, url, upstreamId, reported) =>
        if !f.RecordAccepted? || t !in s.tasks then None
        else Some(SetTask(s, t, Recorded(s.tasks[t], w, upstreamId, url, reported, s.now)).(fast := FastIdle))
      case Syncing(_) => SyncNext(s, f)
      case Persisting(_) => PersistNext(s, f)
  }

  // ---------- the slow loop (scheduler.py, worker_repository.py) ----------

  function Without(todo: Workers, w: WorkerId): Workers {
    todo - {w}
  }

  function Select(workers: Workers, keep: Worker -> bool): Workers {
    map w | w in workers && keep(workers[w]) :: workers[w]
  }

  function LiveWorkers(workers: Workers): set<WorkerId> {
    set w | w in workers && Live(workers[w])
  }

  function ActiveReplacements(workers: Workers): set<WorkerId> {
    set w | w in workers && ActiveReplacement(workers[w])
  }

  predicate HasActiveReplacementFor(workers: Workers, w: WorkerId) {
    exists v <- workers :: ActiveReplacement(workers[v]) && workers[v].replacementFor == Some(w)
  }

  predicate HasReadyReplacementFor(c: Config, workers: Workers, w: WorkerId) {
    exists v <- workers :: ReadyServiceable(c, workers[v]) && workers[v].replacementFor == Some(w)
  }

  predicate Unattended(tasks: Tasks, w: WorkerId) {
    forall t <- tasks :: tasks[t].workerId == Some(w) ==> !BlocksDrain(tasks[t].status)
  }

  function VisitNext(c: Config, s: State, l: SlowStep): Option<State>
    requires s.slow.Visiting? && s.slow.w in s.workers
  {
    var Visiting(todo, at, w, seen) := s.slow;
    var row := s.workers[w];
    match l
    case RecInstance(i) => Some(SetWorker(s, w, row.(instanceId := Some(i))))
    case RecCloud(cloud) => Some(SetWorker(s, w, row.(cloud := cloud)))
    case RecLaunched(i, cloud) => Some(SetWorker(s, w, row.(instanceId := Some(i), cloud := cloud)))
    case RecDown => Some(SetWorker(s, w, row.(baseUrl := None, readyAt := None, healthy := false)))
    case RecGone =>
      if !seen.desired.WantTerminated? then None
      else Some(SetWorker(s, w, row.(cloud := Terminated, terminatedAt := Some(s.now))))
    case RecDisappeared =>
      if seen.desired.WantTerminated? then None else Some(SetWorker(s, w, Disappeared(row, s.now)))
    case RecStart =>
      if !seen.desired.WantRunning? then None
      else Some(SetWorker(s, w, row.(cloud := Pending, failureCount := 0, retryAfter := None,
                                     startRequestedAt := Some(s.now), readyAt := None)))
    case RecUrl(url) =>
      if !seen.desired.WantRunning? then None else Some(SetWorker(s, w, row.(baseUrl := Some(url))))
    case RecFail(retryable) =>
      Some(SetWorker(s, w, FailureRecorded(c, row, retryable, s.now)).(slow := Reconciling(todo, at)))
    case RecReset => Some(SetWorker(s, w, FailuresReset(row)).(slow := Reconciling(todo, at)))
    case _ => None
  }

  function ReconcileNext(c: Config, s: State, l: SlowStep): Option<State>
    requires s.slow.Reconciling?
  {
    var Reconciling(todo, at) := s.slow;
    match l
    case Rebind(w, i, cloud) =>
      if w !in todo || w !in s.workers then None
      else Some(SetWorker(s, w, s.workers[w].(instanceId := Some(i), cloud := cloud))
                .(slow := Reconciling(todo[w := todo[w].(instanceId := Some(i))], at)))
    case VisitSkip(w) =>
      if w !in todo || !SkipsReconcile(c, todo[w], at) then None
      else Some(s.(slow := Reconciling(Without(todo, w), at)))
    case Visit(w) =>
      if w !in todo || SkipsReconcile(c, todo[w], at) then None
      else Some(s.(slow := Visiting(Without(todo, w), at, w, todo[w])))
    case ConvergeList =>
      if todo != map[] then None
      else Some(s.(slow := Converging(Select(s.workers, row => StalledAndActive(c, row)), s.now)))
    case _ => None
  }

  function ConvergeNext(c: Config, s: State, l: SlowStep): Option<State>
    requires s.slow.Converging? || (s.slow.ConvergeAt? && s.slow.w in s.workers)
  {
    match s.slow
    case Converging(todo, at) =>
      if l.ConvergeLook? && l.w in todo then
        Some(s.(slow := ConvergeAt(Without(todo, l.w), at, l.w, todo[l.w], !Unattended(s.tasks, l.w))))
      else if l.ConvergeDone? && todo == map[] then Some(s.(slow := Converged))
      else None
    case ConvergeAt(todo, at, w, seen, active) =>
      var row := s.workers[w];
      var terminated := SetWorker(s, w, row.(desired := WantTerminated)).(slow := Converging(todo, at));
      var due := seen.stalledAt.Some? && at - seen.stalledAt.value >= c.stalledGrace;
      match l
      case ConvergeQuiet => if active then None else Some(terminated.(quiet := s.quiet + {w}))
      case ConvergeStamp =>
        if !active || seen.stalledAt.Some? then None
        else Some(SetWorker(s, w, row.(stalledAt := Some(at)))
                  .(slow := ConvergeAt(todo, at, w, seen.(stalledAt := Some(at)), active)))
      case ConvergeForce => if active && due then Some(terminated) else None
      case ConvergeWait =>
        if active && seen.stalledAt.Some? && !due then Some(s.(slow := Converging(todo, at))) else None
      case _ => None
  }

  function ScaleNext(c: Config, s: State, l: SlowStep): Option<State>
    requires s.slow.Scaling?
  {
    match l
    case ScaleFindStopped(w) =>
      if w !in s.workers || !StoppedSpare(s.workers[w]) then None else Some(s.(slow := ScaleRestart(w)))
    case ScaleNeedNew =>
      // The reads that allow the one worker beyond the limit happen earlier.
      if |LiveWorkers(s.workers)| < c.maxWorkers + 1 then Some(s.(slow := ScaleCreate)) else None
    case ScaleIdle(w) =>
      if w !in s.workers || !IdleSince(s.tasks, w, s.workers[w], s.now - c.idleCooldown) then None
      else Some(s.(slow := ScaleDrain(w)))
    case ScaleNothing => Some(s.(slow := Scaled))
    case _ => None
  }

  predicate ReplacementExpired(c: Config, seen: Worker, at: Time) {
    && !seen.desired.WantTerminated? && !IsReady(seen)
    && seen.startRequestedAt.Some? && at - seen.startRequestedAt.value > c.replacementTimeout
  }

  predicate CanStartDraining(workers: Workers, w: WorkerId) {
    w in workers && Live(workers[w]) && !workers[w].draining
  }

  function RotateNext(c: Config, s: State, l: SlowStep): Option<State>
    requires s.slow.Rotating?
  {
    var Rotating(todo, at) := s.slow;
    match l
    case RotateExpire(w) =>
      if w !in todo || w !in s.workers then None
      else
        if !ReplacementExpired(c, todo[w], at) then None
        else Some(SetWorker(s, w, s.workers[w].(desired := WantTerminated)).(slow := Rotating(Without(todo, w), at)))
    case RotateDrainOld(w) =>
      if w !in todo || !IsReady(todo[w]) || todo[w].replacementFor.None? then None
      else
        var old' := todo[w].replacementFor.value;
        if !CanStartDraining(s.workers, old') then None
        else Some(SetWorker(s, old', s.workers[old'].(draining := true)).(slow := Rotating(Without(todo, w), at)))
    case RotateSkip(w) =>
      if w !in todo || ReplacementExpired(c, todo[w], at)
         || (IsReady(todo[w]) && todo[w].replacementFor.Some?
             && CanStartDraining(s.workers, todo[w].replacementFor.value)) then None
      else Some(s.(slow := Rotating(Without(todo, w), at)))
    case DrainList =>
      if todo != map[] then None else Some(s.(slow := Draining(Select(s.workers, IsDraining))))
    case _ => None
  }

  function DrainNext(c: Config, s: State, l: SlowStep): Option<State>
    requires s.slow.Draining? || ((s.slow.DrainAt? || s.slow.DrainTo?) && s.slow.w in s.workers)
  {
    match s.slow
    case Draining(todo) =>
      (match l
       case DrainBusy(w) =>
         if w !in todo || Unattended(s.tasks, w) then None else Some(s.(slow := Draining(Without(todo, w))))
       case DrainLook(w) =>
         if w !in todo || !Unattended(s.tasks, w) then None
         else Some(s.(slow := DrainAt(Without(todo, w), w, todo[w])))
       case FinalizeList =>
         if todo != map[] then None
         else Some(s.(slow := Finalizing(set w | w in s.workers && Live(s.workers[w])
                                                 && s.workers[w].desired.WantTerminated?
                                                 && s.workers[w].cloud.Terminated?)))
       case _ => None)
    case DrainAt(todo, w, seen) =>
      var rotated := HasActiveReplacementFor(s.workers, w);
      (match l
       case DrainDefer =>
         if rotated && !HasReadyReplacementFor(c, s.workers, w) then Some(s.(slow := Draining(todo))) else None
       case DrainDecide(intent) =>
         if intent == (if rotated || seen.drainTarget == Some(WantTerminated) then WantTerminated else WantStopped)
            && (rotated ==> HasReadyReplacementFor(c, s.workers, w))
         then Some(s.(slow := DrainTo(todo, w, intent))) else None
       case _ => None)
    case DrainTo(todo, w, intent) =>
      if !l.DrainCommit? then None
      else
        var row := s.workers[w];
        if intent.WantTerminated?
        then Some(SetWorker(s, w, row.(desired := WantTerminated)).(slow := Draining(todo), quiet := s.quiet + {w}))
        else Some(SetWorker(s, w, row.(desired := WantStopped, draining := false, drainTarget := None))
                  .(slow := Draining(todo)))
  }

  /** `finalize_terminated_worker`: unlink the replacements, then stamp the row. */
  function Finalized(workers: Workers, w: WorkerId, now: Time): Workers {
    map v | v in workers ::
      var row := if workers[v].replacementFor == Some(w) then workers[v].(replacementFor := None) else workers[v];
      if v == w then row.(terminatedAt := Some(now)) else row
  }

  function RotationNext(c: Config, s: State, l: SlowStep): Option<State>
    requires s.slow.RotationCheck? || (s.slow.RotationStart? && s.slow.target in s.workers)
  {
    match s.slow
    case RotationCheck =>
      if l.RotationBegin? && ActiveReplacements(s.workers) == {} && |LiveWorkers(s.workers)| < c.maxWorkers + 1
         && l.w in s.workers && RotationEligible(s.workers[l.w]) then Some(s.(slow := RotationStart(l.w)))
      else if l.RotationNone? then Some(s.(slow := CleanupCheck))
      else None
    case RotationStart(target) =>
      if !l.RotationCommit? || l.id in s.workers then None
      else
        var row := s.workers[target];
        Some(s.(workers := s.workers[target := row.(rotationRequested := false)]
                                    [l.id := NewReplacement(row, target, s.now)],
                slow := CleanupCheck))
  }

  function CleanNext(c: Config, s: State, l: SlowStep): Option<State>
    requires s.slow.CleanupCheck? || s.slow.Cleaning?
  {
    match s.slow
    case CleanupCheck =>
      var cutoff := s.now - c.retention;
      if l.CleanupList? && (forall t <- l.ts :: t in s.tasks && PastRetention(s.tasks[t], cutoff)) then
        Some(s.(slow := Cleaning(map t | t in l.ts && t in s.tasks :: (s.tasks[t], PayloadLeft), cutoff)))
      else if l.CleanupDone? then Some(s.(slow := SlowIdle))
      else None
    case Cleaning(todo, cutoff) =>
      if l.CleanupDone? && todo == map[] then Some(s.(slow := SlowIdle))
      else if !(l.CleanPayload? || l.CleanResult? || l.CleanRow? || l.CleanSkip?) || l.t !in todo then None
      else
        var (row, stage) := todo[l.t];
        match l
        case CleanSkip(t) => Some(s.(slow := Cleaning(todo - {t}, cutoff)))
        case CleanPayload(t) =>
          if !stage.PayloadLeft? then None
          else Some(s.(store := if row.payloadKey.Some? then s.store - {row.payloadKey.value} else s.store,
                       slow := Cleaning(todo[t := (row, ResultLeft)], cutoff)))
        case CleanResult(t) =>
          if !stage.ResultLeft? then None
          else Some(s.(store := if row.resultKey.Some? then s.store - {row.resultKey.value} else s.store,
                       slow := Cleaning(todo[t := (row, RowLeft)], cutoff)))
        case CleanRow(t) =>
          if !stage.RowLeft? then None
          else Some(s.(tasks := s.tasks - {t}, slow := Cleaning(todo - {t}, cutoff)))
        case _ => None
  }

  function SlowNext(c: Config, s: State, l: SlowStep): Option<State> {
    if l.SlowAbort? then Some(s.(slow := SlowIdle))
    else
      match s.slow
      case SlowIdle =>
        if l.ReconcileList? then Some(s.(slow := Reconciling(Select(s.workers, Live), s.now)))
        else if l.ConvergeList? then
          Some(s.(slow := Converging(Select(s.workers, row => StalledAndActive(c, row)), s.now)))
        else None
      case Reconciling(_, _) => ReconcileNext(c, s, l)
      case Visiting(_, _, w, _) => if w in s.workers then VisitNext(c, s, l) else None
      case Converging(_, _) => ConvergeNext(c, s, l)
      case ConvergeAt(_, _, w, _, _) => if w in s.workers then ConvergeNext(c, s, l) else None
      case Converged =>
        if l.HealthSkip? then Some(s.(slow := Scaling))
        else if l.HealthList? && (forall w <- l.ws :: w in s.workers && HealthCandidate(s.workers[w])) then
          Some(s.(slow := Probing(l.ws)))
        else None
      case Probing(probed) =>
        if !l.HealthApply? then None
        else Some(s.(workers := map w | w in s.workers ::
                       if w in probed then Probed(s.workers[w], w in l.ok, s.now) else s.workers[w],
                     slow := Scaling))
      case Scaling => ScaleNext(c, s, l)
      case ScaleRestart(w) =>
        if !l.ScaleRestartCommit? || w !in s.workers then None
        else Some(SetWorker(s, w, Restarted(s.workers[w], s.now)).(slow := Scaled))
      case ScaleCreate =>
        if !l.ScaleCreateCommit? || l.id in s.workers then None
        else Some(SetWorker(s, l.id, NewWorker(s.now)).(slow := Scaled))
      case ScaleDrain(w) =>
        if !l.ScaleDrainCommit? || w !in s.workers then None
        else Some(SetWorker(s, w, DrainIntended(s.workers[w], WantStopped)).(slow := Scaled))
      case Scaled =>
        if !l.RotationsList? then None
        else Some(s.(slow := Rotating(Select(s.workers, row => Live(row) && row.replacementFor.Some?), s.now)))
      case Rotating(_, _) => RotateNext(c, s, l)
      case Draining(_) => DrainNext(c, s, l)
      case DrainAt(_, w, _) => if w in s.workers then DrainNext(c, s, l) else None
      case DrainTo(_, w, _) => if w in s.workers then DrainNext(c, s, l) else None
      case Finalizing(todo) =>
        if l.Finalize? && l.w in todo then
          Some(s.(workers := Finalized(s.workers, l.w, s.now), slow := Finalizing(todo - {l.w})))
        else if l.FinalizeDone? && todo == {} then Some(s.(slow := RotationCheck))
        else None
      case RotationCheck => RotationNext(c, s, l)
      case RotationStart(target) => if target in s.workers then RotationNext(c, s, l) else None
      case CleanupCheck => CleanNext(c, s, l)
      case Cleaning(_, _) => CleanNext(c, s, l)
  }

  ghost function Next(c: Config, s: State, step: Step): Option<State> {
    match step
    case Gateway(g) => GatewayNext(s, g)
    case Admin(a) => AdminNext(s, a)
    case Fast(f) => FastNext(c, s, f)
    case Slow(l) => SlowNext(c, s, l)
    case Tick(later) => if later < s.now then None else Some(s.(now := later))
    case Crash => Some(s.(fast := FastIdle, slow := SlowIdle))
  }

  ghost predicate Init(s: State) {
    && s.tasks == map[] && s.workers == map[] && s.store == map[]
    && s.fast.FastIdle? && s.slow.SlowIdle?
    && s.issued == {} && s.requests == map[] && s.uploading == {} && s.copying == {}
    && s.accepted == {} && s.served == {} && s.quiet == {}
  }

  /** Step i of the run leads from its state to the next. */
  ghost predicate Follows(c: Config, run: seq<State>, steps: seq<Step>, i: nat)
    requires i < |steps| && |run| == |steps| + 1
  {
    Next(c, run[i], steps[i]) == Some(run[i + 1])
  }

  /** A run: consecutive states are related by the steps between them. */
  ghost predicate Behavior(c: Config, run: seq<State>, steps: seq<Step>) {
    && c.Valid()
    && |run| == |steps| + 1
    && Init(run[0])
    && forall i | 0 <= i < |steps| :: Follows(c, run, steps, i)
  }
}
