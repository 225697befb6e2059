/** Reconciliation of the workers with the cloud (scheduler/scheduler.py), as methods of the slow loop. */
module Reconcile {
  import opened Wrappers
  import opened Rows
  import opened Protocol
  import opened Database
  import opened Interleaving
  import opened Scheduler
  import opened Vms

  /** What a call to the cloud gives. */
  datatype Answer<+T> = Answered(value: T) | Refused(retryable: bool)

  // ---------- the sessions as steps ----------

  lemma ReconcileListStep(c: Config, s: State)
    requires s.slow.SlowIdle?
    ensures Next(c, s, Slow(ReconcileList)) == Some(s.(slow := Reconciling(Select(s.workers, Live), s.now)))
  {
    hide FastNext, GatewayNext, AdminNext, VisitNext, ReconcileNext;
    hide ConvergeNext, DrainNext, RotateNext, RotationNext, ScaleNext, CleanNext, Finalized;
  }

  function Bound(row: Worker, i: InstanceId): Worker {
    row.(instanceId := Some(i))
  }

  lemma ReconcileSteps(c: Config, s: State, w: WorkerId, i: InstanceId, cloud: CloudState)
    requires s.slow.Reconciling? && w in s.slow.todo && w in s.workers
    ensures var Reconciling(todo, at) := s.slow;
            && Next(c, s, Slow(Rebind(w, i, cloud)))
               == Some(SetWorker(s, w, s.workers[w].(instanceId := Some(i), cloud := cloud))
                       .(slow := Reconciling(todo[w := Bound(todo[w], i)], at)))
            && (SkipsReconcile(c, todo[w], at) ==>
                  Next(c, s, Slow(VisitSkip(w))) == Some(s.(slow := Reconciling(Without(todo, w), at))))
            && (!SkipsReconcile(c, todo[w], at) ==>
                  Next(c, s, Slow(Visit(w))) == Some(s.(slow := Visiting(Without(todo, w), at, w, todo[w]))))
  {
    hide SkipsReconcile, FastNext, GatewayNext, AdminNext, VisitNext;
    hide ConvergeNext, DrainNext, RotateNext, RotationNext, ScaleNext, CleanNext, Select, Finalized;
  }

  /** A write to the row of the worker that is being visited. */
  predicate Change(l: SlowStep) {
    l.RecInstance? || l.RecCloud? || l.RecLaunched? || l.RecDown? || l.RecGone? || l.RecDisappeared? || l.RecStart?
    || l.RecUrl?
  }

  /** The intent under which the original makes the write. */
  predicate Called(seen: Worker, l: SlowStep) {
    && (l.RecGone? ==> seen.desired.WantTerminated?)
    && (l.RecDisappeared? ==> !seen.desired.WantTerminated?)
    && (l.RecStart? || l.RecUrl? ==> seen.desired.WantRunning?)
  }

  /** `commit_fields`, as reconciliation calls it. */
  function Changed(row: Worker, l: SlowStep, now: Time): Worker
    requires Change(l)
  {
    match l
    case RecInstance(i) => row.(instanceId := Some(i))
    case RecCloud(cloud) => row.(cloud := cloud)
    case RecLaunched(i, cloud) => row.(instanceId := Some(i), cloud := cloud)
    case RecDown => row.(baseUrl := None, readyAt := None, healthy := false)
    case RecGone => row.(cloud := Terminated, terminatedAt := Some(now))
    case RecDisappeared => Disappeared(row, now)
    case RecStart =>
      row.(cloud := Pending, failureCount := 0, retryAfter := None, startRequestedAt := Some(now), readyAt := None)
    case RecUrl(url) => row.(baseUrl := Some(url))
  }

  lemma VisitStep(c: Config, s: State, l: SlowStep)
    requires s.slow.Visiting? && s.slow.w in s.workers && !l.SlowAbort?
    ensures Next(c, s, Slow(l)) == VisitNext(c, s, l)
  {
    hide VisitNext;
  }

  lemma ChangeStep(c: Config, s: State, l: SlowStep)
    requires s.slow.Visiting? && s.slow.w in s.workers && Change(l) && Called(s.slow.seen, l)
    ensures VisitNext(c, s, l) == Some(SetWorker(s, s.slow.w, Changed(s.workers[s.slow.w], l, s.now)))
  {
  }

  lemma VisitEnds(c: Config, s: State, retryable: bool)
    requires s.slow.Visiting? && s.slow.w in s.workers
    ensures var Visiting(todo, at, w, _) := s.slow;
            && VisitNext(c, s, RecFail(retryable))
               == Some(SetWorker(s, w, FailureRecorded(c, s.workers[w], retryable, s.now))
                       .(slow := Reconciling(todo, at)))
            && VisitNext(c, s, RecReset)
               == Some(SetWorker(s, w, FailuresReset(s.workers[w])).(slow := Reconciling(todo, at)))
  {
    hide FailureRecorded;
  }

  // ---------- the sessions ----------

  /** `commit_fields`, in a session of its own. */
  method CommitFields(db: Deployment, ghost todo: Workers, at: Time, w: WorkerId, seen: Worker, change: SlowStep)
    requires db.Valid() && db.Cur().slow == Visiting(todo, at, w, seen) && w in db.workers
    requires Change(change) && Called(seen, change)
    modifies db
    ensures db.Valid() && old(db.run) <= db.run && db.Cur().slow == Visiting(todo, at, w, seen)
    ensures db.workers.Keys == old(db.workers.Keys)
    ensures db.slowDone == old(db.slowDone) + [change] && old(db.now) <= db.now
    ensures |db.run| >= 2 && w in Earlier(db.run).workers
    ensures db.workers == Earlier(db.run).workers[w := Changed(Earlier(db.run).workers[w], change, db.now)]
  {
    hide Next, Behavior, WorkersRest, VisitNext, SlowOnes, FastOnes;
    Rest(db);
    VisitStep(db.c, db.Cur(), change);
    ChangeStep(db.c, db.Cur(), change);
    db.workers := db.workers[w := Changed(db.workers[w], change, db.now)];
    db.Record(Slow(change));
  }

  /** `record_failure`, which ends the visit. */
  method RecordFailure(db: Deployment, ghost todo: Workers, at: Time, w: WorkerId, seen: Worker, retryable: bool)
    requires db.Valid() && db.Cur().slow == Visiting(todo, at, w, seen) && w in db.workers
    modifies db
    ensures db.Valid() && old(db.run) <= db.run && db.Cur().slow == Reconciling(todo, at)
    ensures db.workers.Keys == old(db.workers.Keys)
    ensures db.slowDone == old(db.slowDone) + [RecFail(retryable)] && old(db.now) <= db.now
    ensures db.workers[w].failureCount >= 1
    ensures db.workers[w].failureCount >= db.c.maxFailures ==>
              && !db.workers[w].healthy && db.workers[w].stalledAt.Some? && db.workers[w].draining
              && db.workers[w].drainTarget == Some(WantTerminated) && db.workers[w].retryAfter.None?
    ensures db.workers[w].failureCount < db.c.maxFailures && retryable ==>
              db.workers[w].retryAfter == Some(db.now + RetryDelay(db.workers[w].failureCount))
  {
    hide Next, Behavior, WorkersRest, VisitNext, SlowOnes, FastOnes;
    Rest(db);
    VisitStep(db.c, db.Cur(), RecFail(retryable));
    VisitEnds(db.c, db.Cur(), retryable);
    db.workers := db.workers[w := FailureRecorded(db.c, db.workers[w], retryable, db.now)];
    db.Record(Slow(RecFail(retryable)));
  }

  /** `reset_cloud_failures`, which ends the visit. */
  method ResetCloudFailures(db: Deployment, ghost todo: Workers, at: Time, w: WorkerId, seen: Worker)
    requires db.Valid() && db.Cur().slow == Visiting(todo, at, w, seen) && w in db.workers
    modifies db
    ensures db.Valid() && old(db.run) <= db.run && db.Cur().slow == Reconciling(todo, at)
    ensures db.workers.Keys == old(db.workers.Keys)
    ensures db.slowDone == old(db.slowDone) + [RecReset]
    ensures db.workers[w].failureCount == 0 && db.workers[w].retryAfter.None?
  {
    hide Next, Behavior, WorkersRest, VisitNext, SlowOnes, FastOnes;
    Rest(db);
    VisitStep(db.c, db.Cur(), RecReset);
    VisitEnds(db.c, db.Cur(), true);
    db.workers := db.workers[w := FailuresReset(db.workers[w])];
    db.Record(Slow(RecReset));
  }

  // ---------- one worker ----------

  /** What the cloud answers during a visit, to the calls that are made. */
  datatype Answers = Answers(
    launched: Answer<InstanceId>, state: Answer<InstanceState>, power: Answer<()>, address: Answer<Option<string>>)

  /** The cloud state on the row after discovery: the one discovered, unless that is unknown. */
  function KnownCloud(seen: Worker, discovered: Option<Discovered>): CloudState {
    if discovered.None? || CloudStateOf(discovered.value.state).Unknown? then seen.cloud
    else CloudStateOf(discovered.value.state)
  }

  function KnownInstance(seen: Worker, discovered: Option<Discovered>): Option<InstanceId> {
    if discovered.None? then seen.instanceId else Some(discovered.value.instanceId)
  }

  /** What a visit writes of a discovery. */
  function DiscoveryLog(seen: Worker, discovered: Option<Discovered>): seq<SlowStep> {
    (if discovered.None? || seen.instanceId == KnownInstance(seen, discovered) then []
     else [RecInstance(discovered.value.instanceId)])
    + (if KnownCloud(seen, discovered) == seen.cloud then [] else [RecCloud(KnownCloud(seen, discovered))])
  }

  /** `_sync_discovered_state`. */
  method SyncDiscoveredState(db: Deployment, ghost todo: Workers, at: Time, w: WorkerId, seen: Worker, d: Discovered)
    returns (instance: Option<InstanceId>, cloud: CloudState)
    requires db.Valid() && db.Cur().slow == Visiting(todo, at, w, seen) && w in db.workers
    modifies db
    ensures db.Valid() && old(db.run) <= db.run && db.Cur().slow == Visiting(todo, at, w, seen)
    ensures db.workers.Keys == old(db.workers.Keys)
    ensures instance == KnownInstance(seen, Some(d)) && cloud == KnownCloud(seen, Some(d))
    ensures db.slowDone == old(db.slowDone) + DiscoveryLog(seen, Some(d))
  {
    hide Next, Behavior, SlowOnes, FastOnes;
    instance, cloud := Some(d.instanceId), seen.cloud;
    if seen.instanceId != instance {
      CommitFields(db, todo, at, w, seen, RecInstance(d.instanceId));
    }
    if !CloudStateOf(d.state).Unknown? && seen.cloud != CloudStateOf(d.state) {
      CommitFields(db, todo, at, w, seen, RecCloud(CloudStateOf(d.state)));
      cloud := CloudStateOf(d.state);
    }
  }

  /** The visit of a worker without an instance. */
  function LaunchLog(seen: Worker, launched: Answer<InstanceId>): seq<SlowStep> {
    if seen.desired.WantRunning? then
      (match launched
       case Refused(retryable) => [RecFail(retryable)]
       case Answered(i) => [RecLaunched(i, Pending), RecReset])
    else (if seen.desired.WantTerminated? then [RecGone] else []) + [RecReset]
  }

  /** The part of `_reconcile_one_worker` for a worker without an instance. */
  method LaunchMissing(
      db: Deployment, ghost todo: Workers, at: Time, w: WorkerId, seen: Worker, launched: Answer<InstanceId>)
    requires db.Valid() && db.Cur().slow == Visiting(todo, at, w, seen) && w in db.workers
    modifies db
    ensures db.Valid() && old(db.run) <= db.run && db.Cur().slow == Reconciling(todo, at)
    ensures db.workers.Keys == old(db.workers.Keys)
    ensures db.slowDone == old(db.slowDone) + LaunchLog(seen, launched)
  {
    hide Next, Behavior, SlowOnes, FastOnes;
    if seen.desired.WantRunning? {
      match launched
      case Refused(retryable) =>
        RecordFailure(db, todo, at, w, seen, retryable);
        return;
      case Answered(i) => CommitFields(db, todo, at, w, seen, RecLaunched(i, Pending));
    } else if seen.desired.WantTerminated? {
      CommitFields(db, todo, at, w, seen, RecGone);
    }
    ResetCloudFailures(db, todo, at, w, seen);
  }

  /** What the row says once the cloud has been asked to bring a worker to its intent. */
  function PowerChange(intent: Intent): SlowStep {
    match intent
    case WantRunning => RecStart
    case WantStopped => RecCloud(Stopping)
    case WantTerminated => RecCloud(Terminating)
  }

  /** Intent and cloud state differ in a way that is acted on. */
  predicate Mismatch(intent: Intent, cloud: CloudState) {
    || (intent.WantRunning? && cloud.Stopped?)
    || (intent.WantStopped? && cloud.Running?)
    || (intent.WantTerminated? && !cloud.Terminated?)
  }

  function PowerLog(seen: Worker, power: Answer<()>): seq<SlowStep> {
    match power
    case Refused(retryable) => [RecFail(retryable)]
    case Answered(_) => [PowerChange(seen.desired), RecReset]
  }

  /** `_transition_power_state`: done, when there was something to start, stop or terminate. */
  method TransitionPowerState(
      db: Deployment, ghost todo: Workers, at: Time, w: WorkerId, seen: Worker, cloud: CloudState, answer: Answer<()>)
    returns (done: bool)
    requires db.Valid() && db.Cur().slow == Visiting(todo, at, w, seen) && w in db.workers
    modifies db
    ensures db.Valid() && old(db.run) <= db.run && db.workers.Keys == old(db.workers.Keys)
    ensures db.Cur().slow == if done then Reconciling(todo, at) else Visiting(todo, at, w, seen)
    ensures done <==> Mismatch(seen.desired, cloud)
    ensures db.slowDone == old(db.slowDone) + if done then PowerLog(seen, answer) else []
  {
    hide Next, Behavior, SlowOnes, FastOnes;
    var change: SlowStep;
    if seen.desired.WantRunning? && cloud.Stopped? {
      change := RecStart;
    } else if seen.desired.WantStopped? && cloud.Running? {
      change := RecCloud(Stopping);
    } else if seen.desired.WantTerminated? && !cloud.Terminated? {
      change := RecCloud(Terminating);
    } else {
      return false;
    }
    match answer {
      case Refused(retryable) => RecordFailure(db, todo, at, w, seen, retryable);
      case Answered(_) =>
        CommitFields(db, todo, at, w, seen, change);
        ResetCloudFailures(db, todo, at, w, seen);
    }
    return true;
  }

  /** The address is written when it has changed; a late worker has failed. */
  function ReadinessLog(seen: Worker, address: Answer<Option<string>>, late: bool): seq<SlowStep> {
    match address
    case Refused(retryable) => [RecFail(retryable)]
    case Answered(url) =>
      (if url.Some? && seen.baseUrl != url then [RecUrl(url.value)] else [])
      + [if late then RecFail(true) else RecReset]
  }

  /** The worker was to be ready before this time, and is not. */
  predicate Late(c: Config, seen: Worker, now: Time) {
    && seen.readyAt.None? && !seen.healthy
    && now - seen.startRequestedAt.GetOr(seen.createdAt) > c.launchTimeout
  }

  /** `_check_running_readiness`: the address is kept up to date, and a worker that is late to become ready
      counts as failing. */
  method CheckRunningReadiness(
      db: Deployment, ghost todo: Workers, at: Time, w: WorkerId, seen: Worker, address: Answer<Option<string>>)
    returns (late: bool)
    requires db.Valid() && db.Cur().slow == Visiting(todo, at, w, seen) && w in db.workers && seen.desired.WantRunning?
    modifies db
    ensures db.Valid() && old(db.run) <= db.run && db.Cur().slow == Reconciling(todo, at)
    ensures db.workers.Keys == old(db.workers.Keys)
    ensures db.slowDone == old(db.slowDone) + ReadinessLog(seen, address, late)
    ensures late ==> Late(db.c, seen, db.now)
    ensures address.Answered? && Late(db.c, seen, old(db.now)) ==> late
  {
    hide Next, Behavior, WorkersRest, SlowOnes, FastOnes;
    late := false;
    match address {
      case Refused(retryable) =>
        RecordFailure(db, todo, at, w, seen, retryable);
        return;
      case Answered(url) =>
        if url.Some? && seen.baseUrl != url {
          CommitFields(db, todo, at, w, seen, RecUrl(url.value));
        }
    }
    Rest(db);
    late := Late(db.c, seen, db.now);
    if late {
      RecordFailure(db, todo, at, w, seen, true);
    } else {
      ResetCloudFailures(db, todo, at, w, seen);
    }
  }

  /** What a visit writes first when the state of the worker's instance differs from the one on its row. */
  function Followed(known: CloudState, cloud: CloudState): seq<SlowStep> {
    if cloud == known then []
    else [RecCloud(cloud)] + if cloud.Stopped? || cloud.Terminated? then [RecDown] else []
  }

  /** The cloud's state is followed; a worker that is down has no address and is not ready. */
  method FollowState(
      db: Deployment, ghost todo: Workers, at: Time, w: WorkerId, seen: Worker, known: CloudState, cloud: CloudState)
    requires db.Valid() && db.Cur().slow == Visiting(todo, at, w, seen) && w in db.workers
    modifies db
    ensures db.Valid() && old(db.run) <= db.run && db.Cur().slow == Visiting(todo, at, w, seen)
    ensures db.workers.Keys == old(db.workers.Keys)
    ensures db.slowDone == old(db.slowDone) + Followed(known, cloud)
  {
    hide Next, Behavior, SlowOnes, FastOnes;
    if cloud == known {
      return;
    }
    CommitFields(db, todo, at, w, seen, RecCloud(cloud));
    if cloud.Stopped? || cloud.Terminated? {
      CommitFields(db, todo, at, w, seen, RecDown);
    }
  }

  /** `finalize_disappeared_instance`, which ends the visit. */
  method FinalizeDisappeared(db: Deployment, ghost todo: Workers, at: Time, w: WorkerId, seen: Worker)
    requires db.Valid() && db.Cur().slow == Visiting(todo, at, w, seen) && w in db.workers
    requires !seen.desired.WantTerminated?
    modifies db
    ensures db.Valid() && old(db.run) <= db.run && db.Cur().slow == Reconciling(todo, at)
    ensures db.workers.Keys == old(db.workers.Keys)
    ensures db.slowDone == old(db.slowDone) + [RecDisappeared, RecReset]
  {
    hide Next, Behavior, SlowOnes, FastOnes;
    CommitFields(db, todo, at, w, seen, RecDisappeared);
    ResetCloudFailures(db, todo, at, w, seen);
  }

  /** The rest of a visit once the cloud state is followed. */
  function SettleLog(seen: Worker, cloud: CloudState, a: Answers, late: bool): seq<SlowStep> {
    if Mismatch(seen.desired, cloud) then PowerLog(seen, a.power)
    else if seen.desired.WantRunning? && cloud.Running? then ReadinessLog(seen, a.address, late)
    else [RecReset]
  }

  /** The visit of a worker with an instance, known to be in one state and found in another. */
  function InstanceLog(seen: Worker, known: CloudState, cloud: CloudState, a: Answers, late: bool): seq<SlowStep> {
    if cloud.Terminated? && !seen.desired.WantTerminated? then [RecDisappeared, RecReset]
    else Followed(known, cloud) + SettleLog(seen, cloud, a, late)
  }

  /** Everything that a visit writes, given what is discovered and answered. */
  function VisitLog(seen: Worker, discovered: Option<Discovered>, a: Answers, late: bool): seq<SlowStep> {
    DiscoveryLog(seen, discovered)
    + if KnownInstance(seen, discovered).None? then LaunchLog(seen, a.launched)
      else
        match a.state
        case Refused(retryable) => [RecFail(retryable)]
        case Answered(s) => InstanceLog(seen, KnownCloud(seen, discovered), CloudStateOf(s), a, late)
  }

  predicate EndsVisit(l: SlowStep) {
    l.RecReset? || l.RecFail?
  }

  /** All steps of a visit belong to one, and exactly the last one ends it. */
  predicate OneVisit(log: seq<SlowStep>) {
    && log != [] && EndsVisit(Last(log))
    && forall k | 0 <= k < |log| :: InVisit(log[k]) && (k < |log| - 1 ==> !EndsVisit(log[k]))
  }

  lemma ThenOneVisit(first: seq<SlowStep>, log: seq<SlowStep>)
    requires OneVisit(log) && forall l <- first :: InVisit(l) && !EndsVisit(l)
    ensures OneVisit(first + log) && Last(first + log) == Last(log)
  {
  }

  lemma LaunchEnds(seen: Worker, launched: Answer<InstanceId>)
    ensures OneVisit(LaunchLog(seen, launched))
    ensures Last(LaunchLog(seen, launched)).RecFail? <==> seen.desired.WantRunning? && launched.Refused?
  {
  }

  lemma SettleEnds(seen: Worker, cloud: CloudState, a: Answers, late: bool)
    ensures OneVisit(SettleLog(seen, cloud, a, late))
    ensures Last(SettleLog(seen, cloud, a, late)).RecFail? <==>
              if Mismatch(seen.desired, cloud) then a.power.Refused?
              else seen.desired.WantRunning? && cloud.Running? && (a.address.Refused? || late)
  {
  }

  lemma InstanceEnds(seen: Worker, known: CloudState, cloud: CloudState, a: Answers, late: bool)
    ensures OneVisit(InstanceLog(seen, known, cloud, a, late))
    ensures Last(InstanceLog(seen, known, cloud, a, late)).RecFail? <==>
              && (cloud.Terminated? ==> seen.desired.WantTerminated?)
              && if Mismatch(seen.desired, cloud) then a.power.Refused?
                 else seen.desired.WantRunning? && cloud.Running? && (a.address.Refused? || late)
  {
    SettleEnds(seen, cloud, a, late);
    hide SettleLog;
    ThenOneVisit(Followed(known, cloud), SettleLog(seen, cloud, a, late));
  }

  /** Whatever is discovered and answered, a visit ends once, at its end, by a failure recorded or by the
      failures reset; and it is a failure exactly when a call that it makes is refused, or the worker is late. */
  lemma VisitEndsOnce(seen: Worker, discovered: Option<Discovered>, a: Answers, late: bool)
    ensures OneVisit(VisitLog(seen, discovered, a, late))
    ensures Last(VisitLog(seen, discovered, a, late)).RecFail? <==> VisitFails(seen, discovered, a, late)
  {
    var known := KnownCloud(seen, discovered);
    LaunchEnds(seen, a.launched);
    if a.state.Answered? {
      InstanceEnds(seen, known, CloudStateOf(a.state.value), a, late);
    }
    hide LaunchLog, InstanceLog, Mismatch;
    var rest :=
      if KnownInstance(seen, discovered).None? then LaunchLog(seen, a.launched)
      else
        match a.state
        case Refused(retryable) => [RecFail(retryable)]
        case Answered(s) => InstanceLog(seen, known, CloudStateOf(s), a, late);
    ThenOneVisit(DiscoveryLog(seen, discovered), rest);
  }

  /** A call that the visit makes is refused, or the worker is late to become ready. */
  predicate VisitFails(seen: Worker, discovered: Option<Discovered>, a: Answers, late: bool) {
    if KnownInstance(seen, discovered).None? then seen.desired.WantRunning? && a.launched.Refused?
    else if a.state.Refused? then true
    else
      var cloud := CloudStateOf(a.state.value);
      && (cloud.Terminated? ==> seen.desired.WantTerminated?)
      && if Mismatch(seen.desired, cloud) then a.power.Refused?
         else seen.desired.WantRunning? && cloud.Running? && (a.address.Refused? || late)
  }

  /** The part of `_reconcile_one_worker` for a worker whose instance has been looked up. */
  method FollowInstance(db: Deployment, ghost todo: Workers, at: Time, w: WorkerId, seen: Worker, known: CloudState,
                        cloud: CloudState, a: Answers)
    returns (late: bool)
    requires db.Valid() && db.Cur().slow == Visiting(todo, at, w, seen) && w in db.workers
    modifies db
    ensures db.Valid() && old(db.run) <= db.run && db.Cur().slow == Reconciling(todo, at)
    ensures db.workers.Keys == old(db.workers.Keys)
    ensures db.slowDone == old(db.slowDone) + InstanceLog(seen, known, cloud, a, late)
    ensures late ==> Late(db.c, seen, db.now)
  {
    hide Next, Behavior, SlowOnes, FastOnes, Followed, SettleLog, Late;
    if cloud.Terminated? && !seen.desired.WantTerminated? {
      FinalizeDisappeared(db, todo, at, w, seen);
      return false;
    }
    FollowState(db, todo, at, w, seen, known, cloud);
    late := SettleInstance(db, todo, at, w, seen, cloud, a);
  }

  /** The rest of the visit: power transitions, readiness, and the reset of the failure count. */
  method SettleInstance(
      db: Deployment, ghost todo: Workers, at: Time, w: WorkerId, seen: Worker, cloud: CloudState, a: Answers)
    returns (late: bool)
    requires db.Valid() && db.Cur().slow == Visiting(todo, at, w, seen) && w in db.workers
    modifies db
    ensures db.Valid() && old(db.run) <= db.run && db.Cur().slow == Reconciling(todo, at)
    ensures db.workers.Keys == old(db.workers.Keys)
    ensures db.slowDone == old(db.slowDone) + SettleLog(seen, cloud, a, late)
    ensures late ==> Late(db.c, seen, db.now)
  {
    hide Next, Behavior, SlowOnes, FastOnes, Mismatch, PowerLog, ReadinessLog, Late;
    late := false;
    ghost var done := db.slowDone;
    var transitioned := TransitionPowerState(db, todo, at, w, seen, cloud, a.power);
    if !transitioned {
      assert db.slowDone == done;
      if seen.desired.WantRunning? && cloud.Running? {
        late := CheckRunningReadiness(db, todo, at, w, seen, a.address);
      } else {
        ResetCloudFailures(db, todo, at, w, seen);
      }
    }
  }

  /** `_reconcile_one_worker`, with its caller's handling of the outcome: what it writes is the visit that the
      answers give. */
  method ReconcileOneWorker(db: Deployment, ghost todo: Workers, at: Time, w: WorkerId, seen: Worker,
                            discovered: Option<Discovered>, a: Answers)
    returns (late: bool)
    requires db.Valid() && db.Cur().slow == Visiting(todo, at, w, seen) && w in db.workers
    modifies db
    ensures db.Valid() && old(db.run) <= db.run && db.Cur().slow == Reconciling(todo, at)
    ensures db.workers.Keys == old(db.workers.Keys)
    ensures db.slowDone == old(db.slowDone) + VisitLog(seen, discovered, a, late)
    ensures late ==> Late(db.c, seen, db.now)
  {
    hide Next, Behavior, SlowOnes, FastOnes, DiscoveryLog, LaunchLog, InstanceLog, Late;
    late := false;
    ghost var done := db.slowDone;
    var instance, known := seen.instanceId, seen.cloud;
    if discovered.Some? {
      instance, known := SyncDiscoveredState(db, todo, at, w, seen, discovered.value);
    }
    NoDiscovery(seen);
    assert db.slowDone == done + DiscoveryLog(seen, discovered);
    if instance.None? {
      LaunchMissing(db, todo, at, w, seen, a.launched);
      return;
    }
    match a.state
    case Refused(retryable) => RecordFailure(db, todo, at, w, seen, retryable);
    case Answered(s) => late := FollowInstance(db, todo, at, w, seen, known, CloudStateOf(s), a);
  }

  lemma NoDiscovery(seen: Worker)
    ensures DiscoveryLog(seen, None) == []
  {
  }

  // ---------- all workers ----------

  /** The write by which `_resolve_duplicate_vms` binds a worker to the VM it keeps. */
  method RebindWorker(db: Deployment, ghost todo: Workers, at: Time, w: WorkerId, i: InstanceId, cloud: CloudState)
    requires db.Valid() && db.Cur().slow == Reconciling(todo, at) && w in todo && w in db.workers
    modifies db
    ensures db.Valid() && old(db.run) <= db.run && db.workers.Keys == old(db.workers.Keys)
    ensures db.Cur().slow == Reconciling(todo[w := Bound(todo[w], i)], at)
    ensures db.workers[w].instanceId == Some(i) && db.workers[w].cloud == cloud
    ensures db.slowDone == old(db.slowDone) + [Rebind(w, i, cloud)]
  {
    hide Next, Behavior, WorkersRest, SlowOnes, FastOnes;
    Rest(db);
    ReconcileSteps(db.c, db.Cur(), w, i, cloud);
    db.workers := db.workers[w := db.workers[w].(instanceId := Some(i), cloud := cloud)];
    db.Record(Slow(Rebind(w, i, cloud)));
  }

  /** The rows of the workers with several VMs are corrected, one session each. */
  method RebindAll(db: Deployment, listed: Workers, kept: Workers, at: Time) returns (todo: Workers)
    requires db.Valid() && db.Cur().slow == Reconciling(listed, at) && listed.Keys <= db.workers.Keys
    requires kept.Keys == listed.Keys
    modifies db
    ensures db.Valid() && old(db.run) <= db.run && db.workers.Keys == old(db.workers.Keys)
    ensures db.Cur().slow == Reconciling(todo, at) && todo.Keys == listed.Keys
    ensures forall w <- listed :: todo[w] == AsKept(listed[w], kept[w])
    ensures SlowOnly(old(db.slowDone), db.slowDone, Reconciles)
  {
    hide Next, Behavior, SlowOnes, FastOnes, SlowOnly, AsKept;
    todo := listed;
    var rest := listed.Keys;
    ghost var done0 := db.slowDone;
    SomeSlow(done0, [], Reconciles);
    assert done0 + [] == done0;
    while rest != {}
      invariant db.Valid() && old(db.run) <= db.run && db.workers.Keys == old(db.workers.Keys)
      invariant db.Cur().slow == Reconciling(todo, at) && todo.Keys == listed.Keys && rest <= listed.Keys
      invariant forall w <- listed :: todo[w] == if w in rest then listed[w] else AsKept(listed[w], kept[w])
      invariant SlowOnly(done0, db.slowDone, Reconciles)
      decreases |rest|
    {
      ghost var x := Pick(rest);
      assert x in rest;
      var w :| w in rest;
      ghost var done1 := db.slowDone;
      todo := RebindOne(db, todo, at, w, kept[w]);
      SlowOnlyJoins(done0, done1, db.slowDone, Reconciles);
      rest := rest - {w};
    }
  }

  /** The row as it is held once it is bound to the VM that is kept. */
  function AsKept(row: Worker, kept: Worker): Worker {
    if kept.instanceId.Some? && kept.instanceId != row.instanceId then Bound(row, kept.instanceId.value) else row
  }

  method RebindOne(db: Deployment, rows: Workers, at: Time, w: WorkerId, kept: Worker) returns (todo: Workers)
    requires db.Valid() && db.Cur().slow == Reconciling(rows, at) && w in rows && w in db.workers
    modifies db
    ensures db.Valid() && old(db.run) <= db.run && db.workers.Keys == old(db.workers.Keys)
    ensures db.Cur().slow == Reconciling(todo, at) && todo == rows[w := AsKept(rows[w], kept)]
    ensures SlowOnly(old(db.slowDone), db.slowDone, Reconciles)
  {
    hide Next, Behavior, SlowOnes, FastOnes, SlowOnly;
    todo := rows;
    ghost var done := db.slowDone;
    SomeSlow(done, [], Reconciles);
    assert done + [] == done;
    if kept.instanceId.Some? && kept.instanceId != rows[w].instanceId {
      RebindWorker(db, rows, at, w, kept.instanceId.value, kept.cloud);
      SomeSlow(done, [Rebind(w, kept.instanceId.value, kept.cloud)], Reconciles);
      todo := rows[w := Bound(rows[w], kept.instanceId.value)];
    }
  }

  /** The log says that the listed worker was skipped, when it had to be, or else visited. */
  ghost predicate Handled(
      c: Config, before: seq<SlowStep>, after: seq<SlowStep>, w: WorkerId, seen: Worker, at: Time)
  {
    (if SkipsReconcile(c, seen, at) then VisitSkip(w) else Visit(w)) in Since(before, after)
  }

  ghost predicate AllHandled(
      c: Config, before: seq<SlowStep>, after: seq<SlowStep>, rows: Workers, ws: set<WorkerId>, at: Time)
  {
    forall w <- ws :: w in rows && Handled(c, before, after, w, rows[w], at)
  }

  lemma OneMoreHandled(c: Config, a: seq<SlowStep>, b: seq<SlowStep>, d: seq<SlowStep>, rows: Workers,
                       ws: set<WorkerId>, w: WorkerId, at: Time)
    requires SlowOnly(a, b, Reconciles) && SlowOnly(b, d, Reconciles)
    requires AllHandled(c, a, b, rows, ws, at) && w in rows && Handled(c, b, d, w, rows[w], at)
    ensures SlowOnly(a, d, Reconciles) && AllHandled(c, a, d, rows, ws + {w}, at)
  {
    hide SkipsReconcile, SlowPartOf;
    SlowOnlyJoins(a, b, d, Reconciles);
    SinceGrows(a, b, d);
    hide Since;
  }

  lemma VisitIsOnly(done: seq<SlowStep>, w: WorkerId, log: seq<SlowStep>)
    requires OneVisit(log)
    ensures SlowOnly(done, done + [Visit(w)] + log, Reconciles)
    ensures Visit(w) in Since(done, done + [Visit(w)] + log)
  {
    var ls := [Visit(w)] + log;
    assert done + [Visit(w)] + log == done + ls;
    SomeSlow(done, ls, Reconciles);
    assert Since(done, done + ls) == ls && ls[0] == Visit(w);
  }

  /** One round of the loop of `_reconcile_workers`: a worker that is stalled, or backing off, is skipped. */
  method ReconcileListed(db: Deployment, ghost todo: Workers, at: Time, w: WorkerId, seen: Worker,
                         discovered: Option<Discovered>, a: Answers)
    returns (late: bool)
    requires db.Valid() && db.Cur().slow == Reconciling(todo, at) && w in todo && todo[w] == seen && w in db.workers
    modifies db
    ensures db.Valid() && old(db.run) <= db.run && db.workers.Keys == old(db.workers.Keys)
    ensures db.Cur().slow == Reconciling(Without(todo, w), at)
    ensures db.slowDone
            == old(db.slowDone) + if SkipsReconcile(db.c, seen, at) then [VisitSkip(w)]
                                  else [Visit(w)] + VisitLog(seen, discovered, a, late)
    ensures SlowOnly(old(db.slowDone), db.slowDone, Reconciles)
    ensures Handled(db.c, old(db.slowDone), db.slowDone, w, seen, at)
  {
    hide Next, Behavior, SkipsReconcile, VisitLog, OneVisit, SlowOnes, FastOnes, SlowOnly, Since;
    late := false;
    ghost var done := db.slowDone;
    ReconcileSteps(db.c, db.Cur(), w, 0, Unknown);
    if SkipsReconcile(db.c, seen, at) {
      db.Record(Slow(VisitSkip(w)));
      SkipIsOnly(done, w);
      return;
    }
    db.Record(Slow(Visit(w)));
    late := ReconcileOneWorker(db, Without(todo, w), at, w, seen, discovered, a);
    VisitEndsOnce(seen, discovered, a, late);
    VisitIsOnly(done, w, VisitLog(seen, discovered, a, late));
    assert db.slowDone == done + [Visit(w)] + VisitLog(seen, discovered, a, late);
  }

  lemma SkipIsOnly(done: seq<SlowStep>, w: WorkerId)
    ensures SlowOnly(done, done + [VisitSkip(w)], Reconciles)
    ensures VisitSkip(w) in Since(done, done + [VisitSkip(w)])
  {
    SomeSlow(done, [VisitSkip(w)], Reconciles);
    assert Since(done, done + [VisitSkip(w)])[0] == VisitSkip(w);
  }

  /** The loop of `_reconcile_workers`: every listed worker is visited, or skipped when it is stalled or
      backing off. */
  method ReconcileAll(db: Deployment, rows: Workers, at: Time, primary: map<WorkerId, Discovered>)
    requires db.Valid() && db.Cur().slow == Reconciling(rows, at) && rows.Keys <= db.workers.Keys
    modifies db
    ensures db.Valid() && old(db.run) <= db.run && db.Cur().slow == Reconciling(map[], at)
    ensures SlowOnly(old(db.slowDone), db.slowDone, Reconciles)
    ensures AllHandled(db.c, old(db.slowDone), db.slowDone, rows, rows.Keys, at)
  {
    hide Next, Behavior, SlowOnes, FastOnes, SlowOnly, AllHandled, Handled, SkipsReconcile, VisitLog, Past;
    var todo := rows;
    ghost var done0 := db.slowDone;
    NoneHandled(db.c, done0, rows, at);
    NonePast(rows);
    while todo != map[]
      invariant db.Valid() && old(db.run) <= db.run && db.Cur().slow == Reconciling(todo, at)
      invariant todo.Keys <= db.workers.Keys && todo.Keys <= rows.Keys && forall w <- todo :: todo[w] == rows[w]
      invariant SlowOnly(done0, db.slowDone, Reconciles)
      invariant AllHandled(db.c, done0, db.slowDone, rows, Past(rows, todo), at)
      decreases |todo|
    {
      var w := PickKey(todo);
      var a: Answers := *;
      ghost var done1 := db.slowDone;
      var _ := ReconcileListed(db, todo, at, w, todo[w], if w in primary then Some(primary[w]) else None, a);
      OneMoreHandled(db.c, done0, done1, db.slowDone, rows, Past(rows, todo), w, at);
      OneMorePast(rows, todo, w);
      todo := Without(todo, w);
    }
  }

  lemma NoneHandled(c: Config, done: seq<SlowStep>, rows: Workers, at: Time)
    ensures SlowOnly(done, done, Reconciles) && AllHandled(c, done, done, rows, {}, at)
  {
  }

  /** `_reconcile_workers`: of several VMs of a worker one is kept, and every managed VM that is neither kept
      nor ending already is sent a terminate request; every live worker is visited, with the instance id of
      the VM it keeps, or skipped. */
  method ReconcileWorkers(db: Deployment)
    returns (discovered: seq<Discovered>, sent: set<InstanceId>, ghost listed: Workers, ghost rows: Workers)
    requires db.Valid() && db.Cur().slow.SlowIdle?
    modifies db
    ensures db.Valid() && old(db.run) <= db.run
    ensures db.Cur().slow.Reconciling? && db.Cur().slow.todo == map[] && db.Cur().slow.at == old(db.now)
    ensures listed == Select(old(db.workers), Live) && rows.Keys == listed.Keys
    ensures sent == Duplicates(discovered, listed) + Orphans(discovered, listed)
    ensures SlowOnly(old(db.slowDone), db.slowDone, Reconciles)
    ensures AllHandled(db.c, old(db.slowDone), db.slowDone, rows, rows.Keys, old(db.now))
  {
    hide Next, Behavior, WorkersRest, Duplicates, Orphans, SlowOnes, FastOnes, SlowOnly, AllHandled;
    ghost var done0 := db.slowDone;
    ReconcileListStep(db.c, db.Cur());
    var at := db.now;
    var live := Select(db.workers, Live);
    listed := live;
    db.Record(Slow(ReconcileList));
    SomeSlow(done0, [ReconcileList], Reconciles);
    ghost var done1 := db.slowDone;
    Rest(db);
    discovered := *;
    sent, rows := HandleAll(db, discovered, live, at);
    SlowOnlyPrefix(done0, done1, db.slowDone);
    SlowOnlyJoins(done0, done1, db.slowDone, Reconciles);
    LaterHandled(db.c, done0, done1, db.slowDone, rows, at);
  }

  lemma LaterHandled(c: Config, a: seq<SlowStep>, b: seq<SlowStep>, d: seq<SlowStep>, rows: Workers, at: Time)
    requires a <= b <= d && AllHandled(c, b, d, rows, rows.Keys, at)
    ensures AllHandled(c, a, d, rows, rows.Keys, at)
  {
    hide SkipsReconcile;
    SinceGrows(a, b, d);
    hide Since;
  }

  /** The listed workers, once discovery has answered. */
  method HandleAll(db: Deployment, discovered: seq<Discovered>, live: Workers, at: Time)
    returns (sent: set<InstanceId>, ghost rows: Workers)
    requires db.Valid() && db.Cur().slow == Reconciling(live, at) && live.Keys <= db.workers.Keys
    modifies db
    ensures db.Valid() && old(db.run) <= db.run && db.Cur().slow == Reconciling(map[], at) && rows.Keys == live.Keys
    ensures sent == Duplicates(discovered, live) + Orphans(discovered, live)
    ensures SlowOnly(old(db.slowDone), db.slowDone, Reconciles)
    ensures AllHandled(db.c, old(db.slowDone), db.slowDone, rows, rows.Keys, at)
  {
    hide Next, Behavior, WorkersRest, Duplicates, Orphans, SlowOnes, FastOnes, SlowOnly, AllHandled, AsKept;
    ghost var done0 := db.slowDone;
    var keeper := new VmKeeper(live);
    var managed, primary := keeper.DiscoverAndDedupe(discovered);
    var todo := RebindAll(db, live, keeper.workers, at);
    rows := todo;
    ghost var done1 := db.slowDone;
    ReconcileAll(db, todo, at, primary);
    SlowOnlyPrefix(done0, done1, db.slowDone);
    SlowOnlyJoins(done0, done1, db.slowDone, Reconciles);
    LaterHandled(db.c, done0, done1, db.slowDone, rows, at);
    OrphansOfKept(discovered, live, keeper.workers);
    keeper.TerminateOrphanVms(discovered, managed);
    sent := keeper.sent;
  }

  lemma SlowOnlyPrefix(a: seq<SlowStep>, b: seq<SlowStep>, d: seq<SlowStep>)
    requires SlowOnly(a, b, Reconciles) && SlowOnly(b, d, Reconciles)
    ensures a <= b <= d
  {
  }

  lemma OrphansOfKept(ds: seq<Discovered>, ws: Workers, kept: Workers)
    requires kept.Keys == ws.Keys
    ensures Orphans(ds, kept) == Orphans(ds, ws)
  {
    assert forall d :: Orphan(kept, d) == Orphan(ws, d);
  }
}
