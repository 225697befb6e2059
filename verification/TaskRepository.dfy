/** The dispatcher (scheduler/task_repository.py, tasks/results.py): the methods of the fast loop, each
    session of which is a step of the protocol, with the other components running at every await. */
module TaskRepository {
  import opened Wrappers
  import opened Status
  import opened Rows
  import opened Selection
  import opened Protocol
  import opened Invariant
  import opened TaskProofs
  import opened Theorems
  import opened Database
  import opened Interleaving
  import Payload

  /** How a submission ends. */
  datatype Outcome = Dispatched | FailedForGood | BackInQueue | Raised

  /** A worker's answer to a submission, as far as the dispatcher tells answers apart. */
  datatype Answer = AcceptedBy(upstreamId: string, reported: string) | Retryable | Fatal

  /** Where a call that did not raise leaves its task. */
  predicate LeftAs(tasks: Tasks, t: TaskId, outcome: Outcome) {
    t in tasks
    && match outcome
       case Dispatched =>
         tasks[t].upstreamId.Some? && tasks[t].upstreamUrl.Some? && Rank(tasks[t].status) >= Rank(Processing)
       case FailedForGood => tasks[t].status.Failed?
       case BackInQueue => Claimable(tasks[t]) && tasks[t].workerId.None?
       case Raised => true
  }

  /** No task has come to be claimed but t. */
  ghost predicate NoNewClaims(tasks: Tasks, tasks': Tasks, t: TaskId) {
    forall u <- tasks' :: u != t && tasks'[u].status.Dispatching? ==> u in tasks && tasks[u].status.Dispatching?
  }

  /** The queued tasks no other queued task is older than. */
  function OldestQueued(tasks: Tasks): set<TaskId> {
    set t | t in tasks && OldestClaimable(tasks, t)
  }

  /** Task t is claimed, for a worker that is there; no row came or went, and no other task is claimed. */
  ghost predicate ClaimTaken(tasks: Tasks, workers: Workers, tasks': Tasks, workers': Workers, t: TaskId, w: WorkerId) {
    && tasks'.Keys == tasks.Keys && workers'.Keys == workers.Keys && w in workers'
    && t in tasks' && tasks'[t].status.Dispatching? && tasks'[t].workerId == Some(w)
    && NoNewClaims(tasks, tasks', t)
  }

  lemma ClaimTakenBy(tasks: Tasks, workers: Workers, t: TaskId, w: WorkerId, now: Time)
    requires t in tasks && w in workers
    ensures ClaimTaken(tasks, workers, tasks[t := Claimed(tasks[t], w, now)],
                       workers[w := workers[w].(lastActiveAt := Some(now))], t, w)
  {
  }

  lemma AcquireIsFirst(c: Config, tasks: Tasks, workers: Workers)
    ensures var r := Acquire(c, tasks, workers, {});
            && (r.None? <==> Dispatchable(c, tasks, workers, {}) == {})
            && (r.Some? ==> r.value in workers && First(tasks, workers, Dispatchable(c, tasks, workers, {}), r.value))
  {
    hide Serviceable, First;
    var r := Acquire(c, tasks, workers, {});
    if r.Some? {
      FirstIsThere(c, tasks, workers, r.value);
    }
  }

  lemma FirstIsThere(c: Config, tasks: Tasks, workers: Workers, w: WorkerId)
    requires First(tasks, workers, Dispatchable(c, tasks, workers, {}), w)
    ensures w in workers
  {
  }

  lemma RestingClaimsNothing(s: State, s': State, t: TaskId)
    requires TasksRest(s, s')
    ensures NoNewClaims(s.tasks, s'.tasks, t)
  {
  }

  // ---------- the sessions as steps ----------

  lemma ClaimShape(c: Config, s: State, t: TaskId)
    requires Inv(c, s) && t in s.tasks && s.tasks[t].status.Dispatching?
    ensures s.tasks[t].upstreamId.None? && s.tasks[t].upstreamUrl.None?
  {
    assert Shape(t, s.tasks[t]);
  }

  lemma ClaimStep(c: Config, s: State, t: TaskId, w: WorkerId)
    requires s.fast.FastIdle? && OldestClaimable(s.tasks, t) && Acquire(c, s.tasks, s.workers, {}) == Some(w)
    ensures w in s.workers && First(s.tasks, s.workers, Dispatchable(c, s.tasks, s.workers, {}), w)
    ensures Next(c, s, Fast(ClaimNext(t, w))) == Some(TakenBy(s, t, Claimed(s.tasks[t], w, s.now), w, {}))
  {
    hide Serviceable;
  }

  lemma FailStep(c: Config, s: State, t: TaskId, why: FastStep)
    requires s.fast.Submitting? && s.fast.task == t && t in s.tasks && SubmitNext(c, s, why).Some?
    requires why == FailPayload || why == FailContent
    ensures Next(c, s, Fast(why)) == Some(SetTask(s, t, MarkedFailed(s.tasks[t], s.now)).(fast := FastIdle))
  {
    hide PayloadOf, Acquire;
  }

  lemma RecordStep(c: Config, s: State)
    requires s.fast.Accepted? && s.fast.task in s.tasks
    ensures var Accepted(t, w, url, upstreamId, reported) := s.fast;
            && Next(c, s, Fast(RecordAccepted))
               == Some(SetTask(s, t, Recorded(s.tasks[t], w, upstreamId, url, reported, s.now)).(fast := FastIdle))
            && var row := Recorded(s.tasks[t], w, upstreamId, url, reported, s.now);
               && row.upstreamId == Some(upstreamId) && row.upstreamUrl == Some(url)
               && Rank(row.status) >= Rank(Processing)
  {
    LiveTasksNeverRequeue(Some(s.fast.reported), Processing);
  }

  lemma RecoverStep(c: Config, s: State)
    requires s.fast.FastIdle?
    ensures Next(c, s, Fast(RecoverStaleClaims))
            == Some(s.(tasks := RecoverStale(s.tasks, s.now - DISPATCH_CLAIM_TIMEOUT)))
  {
  }

  lemma RequeueStep(c: Config, s: State, t: TaskId, w: WorkerId, excluded: set<WorkerId>)
    requires s.fast.Submitting? && s.fast.task == t && s.fast.worker == w && s.fast.excluded == excluded
    requires t in s.tasks && s.tasks[t].status.Dispatching? && PayloadOf(s, t).Rebuilt?
    requires Acquire(c, s.tasks, s.workers, excluded + {w}).None?
    ensures Next(c, s, Fast(Requeue)) == Some(SetTask(s, t, Requeued(s.tasks[t])).(fast := FastIdle))
  {
    hide PayloadOf, Acquire;
  }

  lemma ReassignStep(c: Config, s: State, t: TaskId, w: WorkerId, v: WorkerId, excluded: set<WorkerId>)
    requires s.fast.Submitting? && s.fast.task == t && s.fast.worker == w && s.fast.excluded == excluded
    requires t in s.tasks && s.tasks[t].status.Dispatching? && PayloadOf(s, t).Rebuilt?
    requires Acquire(c, s.tasks, s.workers, excluded + {w}) == Some(v)
    ensures v in s.workers && v !in excluded + {w}
    ensures Next(c, s, Fast(Reassign(v))) == Some(TakenBy(s, t, Reassigned(s.tasks[t], v), v, excluded + {w}))
  {
    hide PayloadOf, Serviceable;
    assert v in Dispatchable(c, s.tasks, s.workers, excluded + {w});
  }

  /** The loop over the stale claims. */
  method RequeueRows(before: Tasks, stale: set<TaskId>) returns (rows: Tasks)
    requires stale <= before.Keys
    ensures rows == map t | t in before :: if t in stale then Requeued(before[t]) else before[t]
  {
    rows := before;
    var todo := stale;
    while todo != {}
      invariant todo <= stale && rows.Keys == before.Keys
      invariant forall t <- rows :: rows[t] == if t in stale - todo then Requeued(before[t]) else before[t]
      decreases |todo|
    {
      ghost var x := Pick(todo);
      assert x in todo;
      var t :| t in todo;
      rows := rows[t := Requeued(rows[t])];
      todo := todo - {t};
    }
  }

  /** What stays put for the claimed task while the dispatcher awaits. */
  ghost predicate ClaimRests(s: State, s': State, t: TaskId) {
    && t in s.tasks && t in s'.tasks && s'.tasks[t] == s.tasks[t] && s'.fast == s.fast
    && PayloadOf(s', t) == PayloadOf(s, t)
    && s.workers.Keys <= s'.workers.Keys
  }

  lemma PayloadKnown(c: Config, s: State, t: TaskId)
    requires Inv(c, s) && t in s.tasks && !Terminal(s.tasks[t].status)
    ensures PayloadOf(s, t) == if s.tasks[t].payloadKey.None? then Payload.NoPayload else Payload.Rebuilt(s.requests[t])
  {
    if s.tasks[t].payloadKey.Some? {
      SubmittedIsRequested(c, s, t);
    }
  }

  lemma ClaimStays(c: Config, run: seq<State>, steps: seq<Step>, i: nat, t: TaskId)
    requires Behavior(c, run, steps) && i < |run| && OnlyForeign(FastLoop, steps, i)
    requires t in run[i].tasks && run[i].tasks[t].status.Dispatching?
    ensures ClaimRests(run[i], run[|run| - 1], t) && NoNewClaims(run[i].tasks, run[|run| - 1].tasks, t)
    ensures !PayloadOf(run[i], t).Raises?
  {
    InvAlways(c, run, steps, i);
    InvAlways(c, run, steps, |run| - 1);
    FastAwaits(c, run, steps, i);
    hide Inv, Behavior, PayloadOf;
    RequestStays(c, run[i], run[|run| - 1], t);
    RestingClaimsNothing(run[i], run[|run| - 1], t);
  }

  lemma RequestStays(c: Config, s: State, s': State, t: TaskId)
    requires Inv(c, s) && Inv(c, s') && TasksRest(s, s') && t in s.tasks && s.tasks[t].status.Dispatching?
    ensures ClaimRests(s, s', t) && !PayloadOf(s, t).Raises?
  {
    PayloadKnown(c, s, t);
    PayloadKnown(c, s', t);
    if s.tasks[t].payloadKey.Some? {
      SubmittedIsRequested(c, s, t);
    }
    hide Inv, PayloadOf;
  }

  lemma AcceptStep(c: Config, s: State, t: TaskId, w: WorkerId, url: Option<string>, excluded: set<WorkerId>,
                   upstreamId: string, reported: string)
    requires s.fast == Submitting(t, w, url, excluded) && t in s.tasks && PayloadOf(s, t).Rebuilt? && Usable(url)
    ensures var s' := Next(c, s, Fast(SubmitAccepted(upstreamId, reported)));
            && s'.Some?
            && s'.value == s.(accepted := s.accepted + {Acceptance(t, url.value, upstreamId, PayloadOf(s, t).request)},
                              fast := Accepted(t, w, url.value, upstreamId, reported))
  {
    hide PayloadOf;
  }

  lemma AbortStep(c: Config, s: State)
    ensures Next(c, s, Fast(FastAbort)) == Some(s.(fast := FastIdle))
  {
  }

  class Repository {
    const db: Deployment
    var deferredSince: Option<Time>

    constructor (db: Deployment)
      ensures this.db == db && deferredSince.None?
    {
      this.db := db;
      deferredSince := None;
    }

    ghost predicate Valid()
      reads db
    {
      db.Valid()
    }

    /** The read half of `_claim_next_dispatch`: one of the oldest queued tasks, and the worker for it. */
    method FindClaim() returns (task: Option<TaskId>, worker: Option<WorkerId>)
      requires Valid()
      ensures task.None? <==> OldestQueued(db.tasks) == {}
      ensures task.Some? ==> task.value in OldestQueued(db.tasks)
      ensures worker == Acquire(db.c, db.tasks, db.workers, {})
    {
      hide Behavior, Acquire, OldestClaimable, SlowOnes, FastOnes;
      worker := Acquire(db.c, db.tasks, db.workers, {});
      var queued := OldestQueued(db.tasks);
      if queued == {} {
        return None, worker;
      }
      ghost var x := Pick(queued);
      assert x in queued;
      var t :| t in queued;
      task := Some(t);
    }

    /** The write half: the claim and the worker's activity, in one session. */
    method CommitClaim(t: TaskId, w: WorkerId) returns (url: Option<string>)
      requires Valid() && db.Cur().fast.FastIdle? && t in OldestQueued(db.tasks)
      requires Acquire(db.c, db.tasks, db.workers, {}) == Some(w)
      modifies db
      ensures Valid() && db.Cur().fast == Submitting(t, w, url, {})
      ensures ClaimTaken(old(db.tasks), old(db.workers), db.tasks, db.workers, t, w)
      ensures db.now == old(db.now) && old(db.run) < db.run && db.steps == old(db.steps) + [Fast(ClaimNext(t, w))]
      ensures db.fastDone == old(db.fastDone) + [ClaimNext(t, w)]
    {
      hide Next, Behavior, Acquire, OldestClaimable, Serviceable, ClaimTaken, SlowOnes, FastOnes;
      ghost var tasks, workers := db.tasks, db.workers;
      ClaimStep(db.c, db.Cur(), t, w);
      ClaimTakenBy(tasks, workers, t, w, db.now);
      url := db.workers[w].baseUrl;
      db.workers := db.workers[w := db.workers[w].(lastActiveAt := Some(db.now))];
      db.tasks := db.tasks[t := Claimed(db.tasks[t], w, db.now)];
      db.Record(Fast(ClaimNext(t, w)));
    }

    /** `_claim_next_dispatch`: nothing without a queued task or without a worker for it, and the time since
        when a queued task has waited for a worker. */
    method ClaimNextDispatch() returns (claim: Option<(TaskId, WorkerId, Option<string>)>)
      requires Valid() && db.Cur().fast.FastIdle?
      modifies db, this
      ensures Valid()
      ensures db.fastDone == old(db.fastDone) + if claim.Some? then [ClaimNext(claim.value.0, claim.value.1)] else []
      ensures claim.None? ==> db.run == old(db.run) && db.steps == old(db.steps)
                              && db.tasks == old(db.tasks) && db.workers == old(db.workers)
      ensures claim.None? <==> OldestQueued(old(db.tasks)) == {}
                               || Dispatchable(db.c, old(db.tasks), old(db.workers), {}) == {}
      ensures claim.Some? ==>
                var (t, w, url) := claim.value;
                && t in OldestQueued(old(db.tasks)) && w in old(db.workers)
                && First(old(db.tasks), old(db.workers), Dispatchable(db.c, old(db.tasks), old(db.workers), {}), w)
                && db.steps == old(db.steps) + [Fast(ClaimNext(t, w))] && old(db.run) < db.run
                && db.Cur().fast == Submitting(t, w, url, {})
                && ClaimTaken(old(db.tasks), old(db.workers), db.tasks, db.workers, t, w)
      ensures deferredSince == if OldestQueued(old(db.tasks)) == {} then old(deferredSince)
                               else if claim.Some? then None
                               else Some(old(deferredSince).GetOr(old(db.now)))
    {
      hide Next, Behavior, Acquire, OldestQueued, Dispatchable, First, ClaimTaken, SlowOnes, FastOnes;
      var task, worker := FindClaim();
      AcquireIsFirst(db.c, db.tasks, db.workers);
      if task.None? {
        return None;
      }
      if worker.None? {
        if deferredSince.None? {
          deferredSince := Some(db.now);
        }
        return None;
      }
      deferredSince := None;
      var url := CommitClaim(task.value, worker.value);
      claim := Some((task.value, worker.value, url));
    }

    /** `_rebuild_payload`: what the store holds for the task. */
    method RebuildPayload(t: TaskId) returns (payload: Payload.Rebuilt)
      requires Valid() && t in db.tasks
      ensures payload == PayloadOf(db.Cur(), t)
    {
      hide Behavior, SlowOnes, FastOnes;
      var key := db.tasks[t].payloadKey;
      if key.None? || key.value !in db.store {
        return Payload.NoPayload;
      }
      payload := Payload.RebuildPayload(db.store[key.value]);
    }

    /** `_mark_failed`, on a claimed task. */
    method MarkFailed(t: TaskId, ghost why: FastStep)
      requires Valid() && db.Cur().fast.Submitting? && db.Cur().fast.task == t && t in db.tasks
      requires why == FailPayload || why == FailContent
      requires SubmitNext(db.c, db.Cur(), why).Some?
      modifies db
      ensures Valid() && db.Cur().fast.FastIdle? && LeftAs(db.tasks, t, FailedForGood)
      ensures NoNewClaims(old(db.tasks), db.tasks, t) && db.workers == old(db.workers)
      ensures db.steps == old(db.steps) + [Fast(why)] && old(db.run) < db.run
      ensures db.fastDone == old(db.fastDone) + [why]
    {
      hide Next, Behavior, SubmitNext, SlowOnes, FastOnes;
      FailStep(db.c, db.Cur(), t, why);
      db.tasks := db.tasks[t := MarkedFailed(db.tasks[t], db.now)];
      db.Record(Fast(why));
    }

    /** `_reassign_after_exclusion`: the worker is excluded, and the least loaded of the others takes the
        task, or the task goes back to the queue. */
    method ReassignAfterExclusion(t: TaskId, w: WorkerId, excluded: set<WorkerId>)
      returns (excluded': set<WorkerId>, next: Option<(WorkerId, Option<string>)>)
      requires Valid() && t in db.tasks && db.tasks[t].status.Dispatching?
      requires db.Cur().fast.Submitting? && db.Cur().fast.task == t
      requires db.Cur().fast.worker == w && db.Cur().fast.excluded == excluded
      requires PayloadOf(db.Cur(), t).Rebuilt?
      modifies db
      ensures Valid() && excluded' == excluded + {w} && db.workers.Keys == old(db.workers).Keys
      ensures next.None? ==> db.Cur().fast.FastIdle? && LeftAs(db.tasks, t, BackInQueue)
      ensures next.Some? ==>
                && db.Cur().fast == Submitting(t, next.value.0, next.value.1, excluded')
                && next.value.0 in db.workers && next.value.0 !in excluded'
                && t in db.tasks && db.tasks[t].status.Dispatching?
      ensures NoNewClaims(old(db.tasks), db.tasks, t)
      ensures old(db.run) < db.run
      ensures db.steps == old(db.steps) + [Fast(if next.Some? then Reassign(next.value.0) else Requeue)]
      ensures db.fastDone == old(db.fastDone) + [if next.Some? then Reassign(next.value.0) else Requeue]
    {
      hide Inv, Next, Behavior, Acquire, PayloadOf, Dispatchable, First, SlowOnes, FastOnes;
      excluded' := excluded + {w};
      var worker := Acquire(db.c, db.tasks, db.workers, excluded');
      ghost var s := db.Cur();
      db.Know();
      ClaimShape(db.c, s, t);
      if worker.None? {
        RequeueStep(db.c, s, t, w, excluded);
        db.tasks := db.tasks[t := Requeued(db.tasks[t])];
        db.Record(Fast(Requeue));
        return excluded', None;
      }
      var v := worker.value;
      ReassignStep(db.c, s, t, w, v, excluded);
      next := Some((v, db.workers[v].baseUrl));
      db.workers := db.workers[v := db.workers[v].(lastActiveAt := Some(db.now))];
      db.tasks := db.tasks[t := Reassigned(db.tasks[t], v)];
      db.Record(Fast(Reassign(v)));
    }

    /** `_mark_processing`. */
    method MarkProcessing(t: TaskId, w: WorkerId, upstreamId: string, url: string, reported: string)
      requires Valid() && t in db.tasks && db.tasks[t].status.Dispatching?
      requires db.Cur().fast == Accepted(t, w, url, upstreamId, reported)
      modifies db
      ensures Valid() && db.Cur().fast.FastIdle? && LeftAs(db.tasks, t, Dispatched)
      ensures db.tasks[t].upstreamId == Some(upstreamId) && db.tasks[t].upstreamUrl == Some(url)
      ensures NoNewClaims(old(db.tasks), db.tasks, t) && db.workers == old(db.workers)
      ensures db.steps == old(db.steps) + [Fast(RecordAccepted)] && old(db.run) < db.run
      ensures db.fastDone == old(db.fastDone) + [RecordAccepted]
    {
      hide Next, Behavior, Recorded, SlowOnes, FastOnes;
      RecordStep(db.c, db.Cur());
      db.tasks := db.tasks[t := Recorded(db.tasks[t], w, upstreamId, url, reported, db.now)];
      db.Record(Fast(RecordAccepted));
    }

    /** `recover_stale_dispatch_claims`. */
    method RecoverStaleDispatchClaims() returns (recovered: nat)
      requires Valid() && db.Cur().fast.FastIdle?
      modifies db
      ensures Valid() && db.Cur().fast.FastIdle? && db.steps == old(db.steps) + [Fast(RecoverStaleClaims)]
      ensures old(db.run) < db.run && db.workers == old(db.workers)
      ensures db.fastDone == old(db.fastDone) + [RecoverStaleClaims]
      ensures forall t :: t in db.tasks <==> t in old(db.tasks)
      ensures forall t <- db.tasks ::
                db.tasks[t] == if StaleClaim(old(db.tasks)[t], db.now - DISPATCH_CLAIM_TIMEOUT)
                               then Requeued(old(db.tasks)[t]) else old(db.tasks)[t]
      ensures recovered == |set t | t in old(db.tasks) && StaleClaim(old(db.tasks)[t], db.now - DISPATCH_CLAIM_TIMEOUT)|
    {
      hide Next, Behavior, SlowOnes, FastOnes;
      RecoverStep(db.c, db.Cur());
      var cutoff := db.now - DISPATCH_CLAIM_TIMEOUT;
      var stale := set t | t in db.tasks && StaleClaim(db.tasks[t], cutoff);
      recovered := |stale|;
      var rows := RequeueRows(db.tasks, stale);
      assert rows == RecoverStale(db.tasks, cutoff);
      db.tasks := rows;
      db.Record(Fast(RecoverStaleClaims));
    }

    /** An await of the dispatcher while it holds the claim of t. */
    method Pause(t: TaskId, ghost universe: set<WorkerId>)
      requires Valid() && db.workers.Keys <= universe && t in db.tasks && db.tasks[t].status.Dispatching?
      modifies db
      ensures Valid() && db.workers.Keys <= universe
      ensures ClaimRests(old(db.Cur()), db.Cur(), t) && NoNewClaims(old(db.tasks), db.tasks, t)
      ensures !PayloadOf(db.Cur(), t).Raises?
      ensures old(db.run) <= db.run && db.fastDone == old(db.fastDone)
    {
      hide Behavior, PayloadOf, TasksRest, SlowOnes, FastOnes;
      ghost var i := |db.run| - 1;
      LastStep(db.c, db.run, db.steps);
      db.AwaitWithin(FastLoop, universe);
      ClaimStays(db.c, db.run, db.steps, i, t);
    }

    /** The claim is with worker w, which is not excluded; nothing else is held. */
    ghost predicate Holds(t: TaskId, w: WorkerId, url: Option<string>, excluded: set<WorkerId>)
      reads db
    {
      && Valid() && db.Cur().fast == Submitting(t, w, url, excluded)
      && t in db.tasks && db.tasks[t].status.Dispatching? && w in db.workers && w !in excluded
    }

    /** The submission is over and its task is where the outcome says. */
    ghost predicate Ended(t: TaskId, outcome: Outcome)
      reads db
    {
      Valid() && db.Cur().fast.FastIdle? && LeftAs(db.tasks, t, outcome)
    }

    /** An exception that no handler of the dispatcher catches leaves the claim as it is. */
    method Raise(t: TaskId) returns (outcome: Outcome)
      requires Valid() && t in db.tasks && db.tasks[t].status.Dispatching?
      modifies db
      ensures outcome == Raised && Ended(t, outcome) && db.tasks == old(db.tasks) && db.workers == old(db.workers)
      ensures old(db.run) <= db.run && db.fastDone == old(db.fastDone) + [FastAbort]
    {
      hide Next, Behavior, SlowOnes, FastOnes;
      AbortStep(db.c, db.Cur());
      db.Record(Fast(FastAbort));
      outcome := Raised;
    }

    /** The answer of a worker that took the task: its acceptance is history at once, and reaches the row
        one session later. */
    method Accept(t: TaskId, w: WorkerId, url: string, excluded: set<WorkerId>, upstreamId: string, reported: string,
                  ghost universe: set<WorkerId>)
      returns (outcome: Outcome)
      requires Holds(t, w, Some(url), excluded) && PayloadOf(db.Cur(), t).Rebuilt? && url != ""
      requires db.workers.Keys <= universe
      modifies db
      ensures outcome == Dispatched && Ended(t, outcome) && NoNewClaims(old(db.tasks), db.tasks, t)
      ensures db.tasks[t].upstreamId == Some(upstreamId) && db.tasks[t].upstreamUrl == Some(url)
      ensures db.workers.Keys <= universe && old(db.run) <= db.run
      ensures db.fastDone == old(db.fastDone) + [SubmitAccepted(upstreamId, reported), RecordAccepted]
    {
      hide Next, Behavior, PayloadOf, SlowOnes, FastOnes;
      AcceptStep(db.c, db.Cur(), t, w, Some(url), excluded, upstreamId, reported);
      db.Record(Fast(SubmitAccepted(upstreamId, reported)));
      Pause(t, universe);
      MarkProcessing(t, w, upstreamId, url, reported);
      outcome := Dispatched;
    }

    /** The submission of a rebuilt payload: an outcome, or nothing when another worker is to be tried. */
    method Submit(t: TaskId, w: WorkerId, url: Option<string>, excluded: set<WorkerId>, ghost universe: set<WorkerId>)
      returns (outcome: Option<Outcome>)
      requires Holds(t, w, url, excluded) && db.workers.Keys <= universe && PayloadOf(db.Cur(), t).Rebuilt?
      modifies db
      ensures outcome.Some? ==> Ended(t, outcome.value)
      ensures outcome.None? ==> Holds(t, w, url, excluded) && PayloadOf(db.Cur(), t).Rebuilt?
      ensures NoNewClaims(old(db.tasks), db.tasks, t)
      ensures Valid() && db.workers.Keys <= universe && old(db.run) <= db.run
      ensures FastOnly(old(db.fastDone), db.fastDone, Dispatches)
    {
      hide Next, Behavior, PayloadOf, SlowOnes, FastOnes;
      if !Usable(url) {
        return None;
      }
      var answer: Answer := *;
      match answer
      case AcceptedBy(upstreamId, reported) =>
        var accepted := Accept(t, w, url.value, excluded, upstreamId, reported, universe);
        return Some(accepted);
      case Fatal =>
        FailContentStep(db.c, db.Cur(), t);
        MarkFailed(t, FailContent);
        return Some(FailedForGood);
      case Retryable =>
        return None;
    }

    /** The payload as the store has it; the task fails when there is none. */
    method Load(t: TaskId, w: WorkerId, url: Option<string>, excluded: set<WorkerId>, ghost universe: set<WorkerId>)
      returns (outcome: Option<Outcome>)
      requires Holds(t, w, url, excluded) && db.workers.Keys <= universe
      modifies db
      ensures outcome.Some? ==> Ended(t, outcome.value)
      ensures outcome.None? ==> Holds(t, w, url, excluded) && PayloadOf(db.Cur(), t).Rebuilt?
      ensures NoNewClaims(old(db.tasks), db.tasks, t)
      ensures Valid() && db.workers.Keys <= universe && old(db.run) <= db.run
      ensures FastOnly(old(db.fastDone), db.fastDone, Dispatches)
    {
      hide Next, Behavior, PayloadOf, SlowOnes, FastOnes;
      Pause(t, universe);
      var storeAnswers: bool := *;
      if !storeAnswers {
        var raised := Raise(t);
        return Some(raised);
      }
      var payload := RebuildPayload(t);
      Pause(t, universe);
      if payload.NoPayload? {
        FailPayloadStep(db.c, db.Cur(), t);
        MarkFailed(t, FailPayload);
        return Some(FailedForGood);
      }
      return None;
    }

    /** One pass of the loop of `_submit_claimed_task`: over, with an outcome, or to be tried with another
        worker. */
    method Attempt(t: TaskId, w: WorkerId, url: Option<string>, excluded: set<WorkerId>, ghost universe: set<WorkerId>)
      returns (outcome: Option<Outcome>, next: Option<(WorkerId, Option<string>)>)
      requires Holds(t, w, url, excluded) && db.workers.Keys <= universe
      modifies db
      ensures outcome.Some? ==> Ended(t, outcome.value)
      ensures outcome.None? ==> next.Some? && Holds(t, next.value.0, next.value.1, excluded + {w})
      ensures NoNewClaims(old(db.tasks), db.tasks, t)
      ensures Valid() && db.workers.Keys <= universe && old(db.run) <= db.run
      ensures FastOnly(old(db.fastDone), db.fastDone, Dispatches)
    {
      hide Next, Behavior, PayloadOf, SlowOnes, FastOnes, FastOnly;
      ghost var done0 := db.fastDone;
      next := None;
      outcome := Load(t, w, url, excluded, universe);
      if outcome.Some? {
        return;
      }
      ghost var done1 := db.fastDone;
      outcome := Submit(t, w, url, excluded, universe);
      ghost var done2 := db.fastDone;
      FastOnlyJoins(done0, done1, done2, Dispatches);
      if outcome.Some? {
        return;
      }
      var excluded';
      excluded', next := ReassignAfterExclusion(t, w, excluded);
      OneFast(done2, if next.Some? then Reassign(next.value.0) else Requeue);
      FastOnlyJoins(done0, done2, db.fastDone, Dispatches);
      outcome := if next.None? then Some(BackInQueue) else None;
    }

    /** `_submit_claimed_task`: tries workers until one takes the task, none is left, or the task turns out
        to be unusable. Each worker is tried at most once, so that the attempts are bounded by the workers
        there are, here those of any finite set that contains every worker that exists before the call returns;
        and unless an exception escapes, the task is not left claimed. */
    method SubmitClaimedTask(t: TaskId, w0: WorkerId, url0: Option<string>, ghost universe: set<WorkerId>)
      returns (outcome: Outcome, attempts: nat)
      requires Holds(t, w0, url0, {}) && db.workers.Keys <= universe
      modifies db
      ensures Ended(t, outcome)
      ensures NoNewClaims(old(db.tasks), db.tasks, t)
      ensures 1 <= attempts <= |universe|
      ensures db.workers.Keys <= universe && old(db.run) <= db.run
      ensures FastOnly(old(db.fastDone), db.fastDone, Dispatches)
    {
      hide Next, Behavior, PayloadOf, SlowOnes, FastOnes, FastOnly;
      ghost var done0 := db.fastDone;
      OneFast(done0, Requeue);
      var w, url, excluded := w0, url0, {};
      attempts := 0;
      while true
        invariant Holds(t, w, url, excluded) && db.workers.Keys <= universe && excluded <= universe
        invariant NoNewClaims(old(db.tasks), db.tasks, t) && old(db.run) <= db.run
        invariant FastOnly(old(db.fastDone), db.fastDone, Dispatches)
        invariant attempts == |excluded|
        decreases |universe - excluded|
      {
        Fewer(universe, excluded, w);
        ghost var done1 := db.fastDone;
        var ended, next := Attempt(t, w, url, excluded, universe);
        FastOnlyJoins(done0, done1, db.fastDone, Dispatches);
        attempts := attempts + 1;
        if ended.Some? {
          return ended.value, attempts;
        }
        excluded := excluded + {w};
        w, url := next.value.0, next.value.1;
      }
    }

    /** `dispatch_queued_tasks`: a tick of the dispatcher leaves no task claimed that was not claimed before,
        unless an exception escapes, which ends the tick. */
    method DispatchQueuedTasks(maxPerTick: nat, ghost universe: set<WorkerId>) returns (dispatched: nat, raised: bool)
      requires Valid() && db.Cur().fast.FastIdle? && db.workers.Keys <= universe
      modifies db, this
      ensures Valid() && db.Cur().fast.FastIdle? && old(db.run) <= db.run && dispatched <= maxPerTick
      ensures !raised ==> forall t <- db.tasks :: db.tasks[t].status.Dispatching? ==>
                t in old(db.tasks) && old(db.tasks)[t].status.Dispatching?
      ensures FastOnly(old(db.fastDone), db.fastDone, Dispatches)
    {
      hide Next, Behavior, PayloadOf, OldestQueued, Dispatchable, First, SlowOnes, FastOnes, FastOnly;
      ghost var done0 := db.fastDone;
      OneFast(done0, Requeue);
      dispatched, raised := 0, false;
      for n := 0 to maxPerTick
        invariant Valid() && db.Cur().fast.FastIdle? && db.workers.Keys <= universe && dispatched <= n
        invariant forall t <- db.tasks :: db.tasks[t].status.Dispatching? ==>
                    t in old(db.tasks) && old(db.tasks)[t].status.Dispatching?
        invariant FastOnly(old(db.fastDone), db.fastDone, Dispatches)
        invariant old(db.run) <= db.run
      {
        ghost var done1 := db.fastDone;
        var claim := ClaimNextDispatch();
        if claim.None? {
          break;
        }
        var (t, w, url) := claim.value;
        OneFast(done1, ClaimNext(t, w));
        ghost var done2 := db.fastDone;
        FastOnlyJoins(done0, done1, done2, Dispatches);
        var outcome, _ := SubmitClaimedTask(t, w, url, universe);
        FastOnlyJoins(done0, done2, db.fastDone, Dispatches);
        if outcome.Raised? {
          return dispatched, true;
        }
        if outcome.Dispatched? {
          dispatched := dispatched + 1;
        }
      }
    }
  }

  lemma FailPayloadStep(c: Config, s: State, t: TaskId)
    requires s.fast.Submitting? && s.fast.task == t && t in s.tasks && PayloadOf(s, t).NoPayload?
    ensures SubmitNext(c, s, FailPayload).Some?
  {
    hide PayloadOf;
  }

  lemma FailContentStep(c: Config, s: State, t: TaskId)
    requires s.fast.Submitting? && s.fast.task == t && t in s.tasks && PayloadOf(s, t).Rebuilt? && Usable(s.fast.url)
    ensures SubmitNext(c, s, FailContent).Some?
  {
    hide PayloadOf;
  }

  /** Excluding one more worker leaves fewer to try. */
  lemma Fewer(universe: set<WorkerId>, excluded: set<WorkerId>, w: WorkerId)
    requires w in universe && w !in excluded && excluded <= universe
    ensures |universe - (excluded + {w})| < |universe - excluded|
    ensures |excluded + {w}| == |excluded| + 1 <= |universe|
  {
    assert universe - (excluded + {w}) == (universe - excluded) - {w};
    assert universe == excluded + (universe - excluded);
    assert |universe| == |excluded| + |universe - excluded|;
    assert w in universe - excluded;
  }

  lemma LastStep(c: Config, run: seq<State>, steps: seq<Step>)
    requires Behavior(c, run, steps)
    ensures |run| == |steps| + 1
  {
  }
}
