/** The gateway's, the fast loop's and the cleanup's steps keep the invariant. */
module TaskProofs {
  import opened Wrappers
  import opened Status
  import opened Rows
  import opened Selection
  import opened Protocol
  import opened Invariant
  import opened WorkerProofs
  import Payload

  // ---------- loads ----------

  lemma LoadNotGrown(tasks: Tasks, tasks': Tasks, w: WorkerId)
    requires LoadSet(tasks', w) <= LoadSet(tasks, w)
    ensures Load(tasks', w) <= Load(tasks, w)
  {
    SubsetCard(LoadSet(tasks', w), LoadSet(tasks, w));
  }

  /** The row holds no slot, and blocks no drain, that it did not before. */
  predicate HoldsNoMore(old': Task, row: Task) {
    && (UsesCapacity(row.status) ==> UsesCapacity(old'.status) && row.workerId == old'.workerId)
    && (BlocksDrain(row.status) ==> BlocksDrain(old'.status) && row.workerId == old'.workerId)
  }

  lemma CapacityKept(c: Config, tasks: Tasks, t: TaskId, row: Task)
    requires WithinCapacity(c, tasks) && t in tasks && HoldsNoMore(tasks[t], row)
    ensures WithinCapacity(c, tasks[t := row])
  {
    var tasks' := tasks[t := row];
    forall w: WorkerId
      ensures Load(tasks', w) <= c.targetPerWorker
    {
      LoadNotGrown(tasks, tasks', w);
    }
  }

  lemma CapacityTaken(c: Config, tasks: Tasks, t: TaskId, row: Task, w: WorkerId)
    requires WithinCapacity(c, tasks) && row.workerId == Some(w) && Load(tasks, w) < c.targetPerWorker
    ensures WithinCapacity(c, tasks[t := row])
  {
    var tasks' := tasks[t := row];
    forall v: WorkerId
      ensures Load(tasks', v) <= c.targetPerWorker
    {
      if v == w {
        assert LoadSet(tasks', v) <= LoadSet(tasks, v) + {t};
        SubsetCard(LoadSet(tasks', v), LoadSet(tasks, v) + {t});
      } else {
        LoadNotGrown(tasks, tasks', v);
      }
    }
  }

  lemma IdleKept(tasks: Tasks, t: TaskId, row: Task, w: WorkerId)
    requires Unattended(tasks, w)
    requires t in tasks && HoldsNoMore(tasks[t], row)
    ensures Unattended(tasks[t := row], w)
  {
  }

  // ---------- one task row ----------

  /** What a session may do to an existing task row, apart from attaching it to a worker. */
  ghost predicate RowStep(c: Config, s: State, t: TaskId, row: Task)
    requires t in s.tasks
  {
    var old' := s.tasks[t];
    && Shape(t, row) && row.payloadKey == old'.payloadKey
    && (Terminal(old'.status) ==>
          row.status == old'.status && row.completedAt == old'.completedAt && row.resultKey == old'.resultKey)
    && Identified(SetTask(s, t, row), t)
    && (row.status.Completed? && !old'.status.Completed? ==> ResultStored(SetTask(s, t, row), t))
    && (old'.status.Completed? ==> row.upstreamId == old'.upstreamId && row.upstreamUrl == old'.upstreamUrl)
  }

  lemma TablesKept(c: Config, s: State, t: TaskId, row: Task)
    requires TablesOk(c, s) && t in s.tasks && RowStep(c, s, t, row) && WithinCapacity(c, s.tasks[t := row])
    ensures TablesOk(c, SetTask(s, t, row))
  {
    var s' := SetTask(s, t, row);
    assert Shapes(s'.tasks);
    assert PayloadsOk(s') by {
      assert forall u :: PayloadStored(s', u) == PayloadStored(s, u);
    }
    assert ResultsOk(c, s') by {
      forall u | u in s'.tasks
        ensures Identified(s', u)
        ensures s'.tasks[u].status.Completed? && !PastRetention(s'.tasks[u], s'.now - c.retention) ==>
                  ResultStored(s', u)
      {
        if u != t {
          assert Identified(s, u);
        }
      }
    }
  }

  lemma RowStepKeeps(c: Config, s: State, t: TaskId, row: Task, fast': FastPc)
    requires Inv(c, s) && t in s.tasks && RowStep(c, s, t, row) && HoldsNoMore(s.tasks[t], row)
    requires FastOk(SetTask(s, t, row).(fast := fast'))
    ensures Inv(c, SetTask(s, t, row).(fast := fast'))
  {
    var s' := SetTask(s, t, row).(fast := fast');
    CapacityKept(c, s.tasks, t, row);
    TablesKept(c, s, t, row);
    forall w | MustBeIdle(s', w)
      ensures Unattended(s'.tasks, w)
    {
      assert MustBeIdle(s, w);
      IdleKept(s.tasks, t, row, w);
    }
    TasksOkFast(c, SetTask(s, t, row), fast');
  }

  lemma TasksOkFast(c: Config, s: State, fast': FastPc)
    requires TablesOk(c, s)
    ensures TablesOk(c, s.(fast := fast'))
  {
    var s' := s.(fast := fast');
    assert forall u :: PayloadStored(s', u) == PayloadStored(s, u);
    assert forall u <- s.tasks :: Identified(s', u) == Identified(s, u) && ResultStored(s', u) == ResultStored(s, u);
  }

  /** A move of the fast loop that writes nothing. */
  lemma FastMoveKeeps(c: Config, s: State, fast': FastPc)
    requires Inv(c, s) && FastOk(s.(fast := fast'))
    ensures Inv(c, s.(fast := fast'))
  {
    var s' := s.(fast := fast');
    TasksOkFast(c, s, fast');
    assert forall w :: MustBeIdle(s', w) ==> MustBeIdle(s, w);
  }

  // ---------- attaching a task to a worker ----------

  lemma TouchKeeps(c: Config, s: State, w: WorkerId)
    requires Inv(c, s)
    ensures Inv(c, s.(workers := Touched(s, w)))
  {
    if w in s.workers {
      var row := s.workers[w].(lastActiveAt := Some(s.now));
      assert RowOk(c, s.workers[w]);
      SlowOkUnderIntent(c, s, w, row);
      var s' := SetWorker(s, w, row);
      assert forall v :: MustBeIdle(s', v) ==> MustBeIdle(s, v);
      RowWriteKeeps(c, s, w, row, s');
    }
  }

  lemma ServiceableNeedNotBeIdle(c: Config, s: State, w: WorkerId)
    requires Inv(c, s) && w in s.workers && Serviceable(c, s.workers[w])
    ensures !MustBeIdle(s, w)
  {
  }

  lemma TakenKeeps(c: Config, s: State, t: TaskId, row: Task, w: WorkerId, excluded: set<WorkerId>)
    requires Inv(c, s) && t in s.tasks && RowStep(c, s, t, row)
    requires row.status.Dispatching? && row.workerId == Some(w)
    requires w in Dispatchable(c, s.tasks, s.workers, excluded)
    ensures Inv(c, TakenBy(s, t, row, w, excluded))
  {
    var s1 := SetTask(s, t, row);
    CapacityTaken(c, s.tasks, t, row, w);
    TablesKept(c, s, t, row);
    ServiceableNeedNotBeIdle(c, s, w);
    var fast' := Submitting(t, w, s.workers[w].baseUrl, excluded);
    var s2 := s1.(fast := fast');
    forall v | MustBeIdle(s2, v)
      ensures Unattended(s2.tasks, v)
    {
      assert MustBeIdle(s, v) && v != w;
    }
    TasksOkFast(c, s1, fast');
    assert Inv(c, s2);
    TouchKeeps(c, s2, w);
    assert TakenBy(s, t, row, w, excluded) == s2.(workers := Touched(s2, w));
  }

  // ---------- the fast loop ----------

  lemma RecoveredRows(tasks: Tasks, cutoff: Time)
    requires Shapes(tasks)
    ensures Shapes(RecoverStale(tasks, cutoff))
    ensures forall t <- tasks :: HoldsNoMore(tasks[t], RecoverStale(tasks, cutoff)[t])
    ensures forall t <- tasks :: SameButClaim(tasks[t], RecoverStale(tasks, cutoff)[t])
  {
    forall t | t in tasks
      ensures Shape(t, RecoverStale(tasks, cutoff)[t]) && SameButClaim(tasks[t], RecoverStale(tasks, cutoff)[t])
    {
      assert Shape(t, tasks[t]);
    }
  }

  /** Rows that differ at most in who holds their claim. */
  predicate SameButClaim(old': Task, row: Task) {
    && row.payloadKey == old'.payloadKey && row.resultKey == old'.resultKey && row.completedAt == old'.completedAt
    && row.upstreamId == old'.upstreamId && row.upstreamUrl == old'.upstreamUrl
    && (row.status == old'.status || (old'.status.Dispatching? && row.status.Queued?))
  }

  lemma RecoverTables(c: Config, s: State, tasks': Tasks)
    requires TablesOk(c, s) && Shapes(tasks') && tasks'.Keys == s.tasks.Keys
    requires forall t <- s.tasks :: SameButClaim(s.tasks[t], tasks'[t]) && HoldsNoMore(s.tasks[t], tasks'[t])
    ensures TablesOk(c, s.(tasks := tasks'))
  {
    var s' := s.(tasks := tasks');
    forall w: WorkerId
      ensures Load(tasks', w) <= c.targetPerWorker
    {
      forall t | t in LoadSet(tasks', w)
        ensures t in LoadSet(s.tasks, w)
      {
        assert t in s.tasks;
      }
      LoadNotGrown(s.tasks, tasks', w);
    }
    forall t | t in tasks'
      ensures Identified(s', t)
      ensures tasks'[t].payloadKey.Some? && !Terminal(tasks'[t].status) ==> PayloadStored(s', t)
      ensures tasks'[t].status.Completed? && !PastRetention(tasks'[t], s'.now - c.retention) ==> ResultStored(s', t)
    {
      assert t in s.tasks && Identified(s, t);
      assert PayloadStored(s', t) == PayloadStored(s, t) && ResultStored(s', t) == ResultStored(s, t);
    }
    assert forall t <- s.uploading :: PayloadStored(s', t) == PayloadStored(s, t);
  }

  lemma RecoverKeeps(c: Config, s: State)
    requires Inv(c, s) && s.fast.FastIdle?
    ensures Inv(c, s.(tasks := RecoverStale(s.tasks, s.now - DISPATCH_CLAIM_TIMEOUT)))
  {
    var cutoff := s.now - DISPATCH_CLAIM_TIMEOUT;
    var tasks' := RecoverStale(s.tasks, cutoff);
    RecoveredRows(s.tasks, cutoff);
    RecoverTables(c, s, tasks');
    forall w | MustBeIdle(s.(tasks := tasks'), w)
      ensures Unattended(tasks', w)
    {
      assert MustBeIdle(s, w);
    }
  }

  lemma ClaimKeeps(c: Config, s: State, t: TaskId, w: WorkerId)
    requires Inv(c, s) && OldestClaimable(s.tasks, t) && w in s.workers && Acquire(c, s.tasks, s.workers, {}) == Some(w)
    ensures Inv(c, TakenBy(s, t, Claimed(s.tasks[t], w, s.now), w, {}))
  {
    var row := Claimed(s.tasks[t], w, s.now);
    assert Shape(t, s.tasks[t]);
    assert RowStep(c, s, t, row);
    hide Inv, RowStep;
    TakenKeeps(c, s, t, row, w, {});
  }

  lemma SyncListKeeps(c: Config, s: State, ts: set<TaskId>)
    requires Inv(c, s) && s.fast.FastIdle? && forall t <- ts :: t in s.tasks && SyncCandidate(s.tasks[t], s.now)
    ensures Inv(c, s.(fast := Syncing(ts)))
  {
    forall t | t in ts
      ensures t in s.tasks && s.tasks[t].status.Processing?
    {
      assert Shape(t, s.tasks[t]);
    }
    FastMoveKeeps(c, s, Syncing(ts));
  }

  lemma PersistListKeeps(c: Config, s: State, ts: set<TaskId>, s': State)
    requires Inv(c, s) && s.fast.FastIdle? && StartNext(c, s, PersistList(ts)) == Some(s')
    ensures Inv(c, s')
  {
    FastMoveKeeps(c, s, s'.fast);
  }

  lemma StartKeeps(c: Config, s: State, f: FastStep, s': State)
    requires Inv(c, s) && s.fast.FastIdle? && StartNext(c, s, f) == Some(s')
    ensures Inv(c, s')
  {
    hide Inv, Acquire, SyncCandidate, PersistCandidate, RecoverStale;
    match f
    case RecoverStaleClaims => RecoverKeeps(c, s);
    case ClaimNext(t, w) => ClaimKeeps(c, s, t, w);
    case SyncList(ts) => SyncListKeeps(c, s, ts);
    case PersistList(ts) => PersistListKeeps(c, s, ts, s');
  }

  lemma AcceptKeeps(c: Config, s: State, upstreamId: string, reported: string, s': State)
    requires Inv(c, s) && s.fast.Submitting? && s.fast.task in s.tasks
    requires SubmitNext(c, s, SubmitAccepted(upstreamId, reported)) == Some(s')
    ensures Inv(c, s')
  {
    var t := s.fast.task;
    var r := PayloadOf(s, t).request;
    SubmittedIsRequested(c, s, t);
    assert forall u :: PayloadStored(s', u) == PayloadStored(s, u);
    assert forall u <- s.tasks :: Identified(s, u) ==> Identified(s', u);
    assert forall u <- s.tasks :: ResultStored(s', u) == ResultStored(s, u);
    assert forall w :: MustBeIdle(s', w) ==> MustBeIdle(s, w);
  }

  /** What dispatch rebuilds for a live task is what its client sent. */
  lemma SubmittedIsRequested(c: Config, s: State, t: TaskId)
    requires Inv(c, s) && t in s.tasks && !Terminal(s.tasks[t].status) && s.tasks[t].payloadKey.Some?
    ensures t in s.requests && PayloadOf(s, t) == Payload.Rebuilt(s.requests[t])
  {
    assert Shape(t, s.tasks[t]);
    assert PayloadStored(s, t);
    Payload.RebuildInvertsPack(s.requests[t]);
  }

  lemma FailKeeps(c: Config, s: State, t: TaskId)
    requires Inv(c, s) && t in s.tasks && s.tasks[t].status.Dispatching?
    ensures Inv(c, SetTask(s, t, MarkedFailed(s.tasks[t], s.now)).(fast := FastIdle))
  {
    assert Shape(t, s.tasks[t]);
    RowStepKeeps(c, s, t, MarkedFailed(s.tasks[t], s.now), FastIdle);
  }

  lemma RequeueKeeps(c: Config, s: State, t: TaskId)
    requires Inv(c, s) && t in s.tasks && s.tasks[t].status.Dispatching?
    ensures Inv(c, SetTask(s, t, Requeued(s.tasks[t])).(fast := FastIdle))
  {
    assert Shape(t, s.tasks[t]);
    RowStepKeeps(c, s, t, Requeued(s.tasks[t]), FastIdle);
  }

  lemma ReassignKeeps(c: Config, s: State, t: TaskId, v: WorkerId, excluded: set<WorkerId>)
    requires Inv(c, s) && t in s.tasks && s.tasks[t].status.Dispatching? && v in s.workers
    requires Acquire(c, s.tasks, s.workers, excluded) == Some(v)
    ensures Inv(c, TakenBy(s, t, Reassigned(s.tasks[t], v), v, excluded))
  {
    assert Shape(t, s.tasks[t]);
    TakenKeeps(c, s, t, Reassigned(s.tasks[t], v), v, excluded);
  }

  lemma SubmitKeeps(c: Config, s: State, f: FastStep, s': State)
    requires Inv(c, s) && s.fast.Submitting? && s.fast.task in s.tasks && SubmitNext(c, s, f) == Some(s')
    ensures Inv(c, s')
  {
    var t := s.fast.task;
    assert ClaimHeld(s.tasks, t, s.fast.worker);
    match f
    case SubmitAccepted(upstreamId, reported) => AcceptKeeps(c, s, upstreamId, reported, s');
    case FailPayload => FailKeeps(c, s, t);
    case FailContent => FailKeeps(c, s, t);
    case Reassign(v) => ReassignKeeps(c, s, t, v, s.fast.excluded + {s.fast.worker});
    case Requeue => RequeueKeeps(c, s, t);
  }

  lemma RecordedShape(t: TaskId, row: Task, w: WorkerId, upstreamId: string, url: string, reported: string, now: Time)
    requires Shape(t, row) && row.status.Dispatching? && row.workerId == Some(w) && url != ""
    ensures var r := Recorded(row, w, upstreamId, url, reported, now);
            && Shape(t, r) && HoldsNoMore(row, r) && r.payloadKey == row.payloadKey && !r.status.Completed?
            && r.upstreamId == Some(upstreamId) && r.upstreamUrl == Some(url)
  {
    LiveTasksNeverRequeue(Some(reported), Processing);
  }

  lemma RecordKeeps(c: Config, s: State, s': State)
    requires Inv(c, s) && s.fast.Accepted? && FastNext(c, s, RecordAccepted) == Some(s')
    ensures Inv(c, s')
  {
    var Accepted(t, w, url, upstreamId, reported) := s.fast;
    assert Shape(t, s.tasks[t]);
    RecordedShape(t, s.tasks[t], w, upstreamId, url, reported, s.now);
    RowStepKeeps(c, s, t, Recorded(s.tasks[t], w, upstreamId, url, reported, s.now), FastIdle);
  }

  lemma PolledShape(t: TaskId, row: Task, report: Report, now: Time)
    requires Shape(t, row) && row.status.Processing?
    ensures Shape(t, Polled(row, report, now)) && HoldsNoMore(row, Polled(row, report, now))
    ensures var r := Polled(row, report, now);
            r.payloadKey == row.payloadKey && r.upstreamId == row.upstreamId && r.upstreamUrl == row.upstreamUrl
            && !r.status.Completed?
  {
    if report.status.Some? {
      LiveTasksNeverRequeue(report.status.value, row.status);
    }
  }

  lemma SyncKeeps(c: Config, s: State, f: FastStep, s': State)
    requires Inv(c, s) && s.fast.Syncing? && SyncNext(s, f) == Some(s')
    ensures Inv(c, s')
  {
    match f
    case SyncApply(t, report) =>
      assert Shape(t, s.tasks[t]) && Identified(s, t);
      PolledShape(t, s.tasks[t], report, s.now);
      RowStepKeeps(c, s, t, Polled(s.tasks[t], report, s.now), Syncing(s.fast.toSync - {t}));
    case SyncClear(t) =>
      assert Shape(t, s.tasks[t]) && Identified(s, t);
      RowStepKeeps(c, s, t, s.tasks[t].(nextPollAt := None), s.fast);
    case SyncDefer(t) =>
      assert Shape(t, s.tasks[t]) && Identified(s, t);
      RowStepKeeps(c, s, t, Deferred(s.tasks[t], s.now), Syncing(s.fast.toSync - {t}));
    case SyncDone => FastMoveKeeps(c, s, FastIdle);
    case TouchWorker(w) => TouchKeeps(c, s, w);
  }

  /** Writing or deleting the result object of a task that is not finished disturbs no other. */
  lemma ResultObjectKeeps(c: Config, s: State, t: TaskId, store': map<ObjKey, Bytes>, served': set<Served>)
    requires TablesOk(c, s) && t in s.tasks && !s.tasks[t].status.Completed?
    requires forall k | k != ResultObj(t) ::
               (k in store' <==> k in s.store) && (k in s.store ==> store'[k] == s.store[k])
    requires s.served <= served'
    ensures TablesOk(c, s.(store := store', served := served'))
  {
    var s' := s.(store := store', served := served');
    forall u
      ensures PayloadStored(s', u) == PayloadStored(s, u)
    {
      assert PayloadObj(u) != ResultObj(t);
    }
    assert forall u <- s.tasks :: Identified(s', u) == Identified(s, u);
    forall u | u in s.tasks && u != t && ResultStored(s, u)
      ensures ResultStored(s', u)
    {
      assert ResultObj(u) != ResultObj(t);
    }
    forall u | u in s.copying
      ensures ResultObj(u) in s'.store
    {
      assert u != t;
    }
  }

  /** The result object of one task and the list of results on their way change together. */
  lemma ResultWriteKeeps(c: Config, s: State, t: TaskId, store': map<ObjKey, Bytes>, served': set<Served>,
                         todo': map<TaskId, Persist>)
    requires Inv(c, s) && s.fast.Persisting? && t in s.tasks && !s.tasks[t].status.Completed?
    requires forall k | k != ResultObj(t) ::
               (k in store' <==> k in s.store) && (k in s.store ==> store'[k] == s.store[k])
    requires s.served <= served'
    requires forall u <- todo' :: u != t ==> u in s.fast.toPersist && todo'[u] == s.fast.toPersist[u]
    requires t in todo' ==> PersistOk(s.(store := store', served := served'), t, todo'[t])
    ensures Inv(c, s.(store := store', served := served', fast := Persisting(todo')))
  {
    var s1 := s.(store := store', served := served');
    var s' := s1.(fast := Persisting(todo'));
    ResultObjectKeeps(c, s, t, store', served');
    TasksOkFast(c, s1, Persisting(todo'));
    forall u | u in todo'
      ensures PersistOk(s', u, todo'[u])
    {
      if u != t {
        assert PersistOk(s, u, todo'[u]);
        assert ResultObj(u) != ResultObj(t);
      }
    }
    assert forall w :: MustBeIdle(s', w) ==> MustBeIdle(s, w);
  }

  lemma PutKeeps(c: Config, s: State, t: TaskId, data: Bytes, s': State)
    requires Inv(c, s) && s.fast.Persisting? && PersistNext(s, PersistPut(t, data)) == Some(s')
    ensures Inv(c, s')
  {
    assert PersistOk(s, t, s.fast.toPersist[t]);
    ResultWriteKeeps(c, s, t, s'.store, s'.served, s'.fast.toPersist);
  }

  lemma RollbackKeeps(c: Config, s: State, t: TaskId, deleted: bool, s': State)
    requires Inv(c, s) && s.fast.Persisting? && PersistNext(s, PersistRollback(t, deleted)) == Some(s')
    ensures Inv(c, s')
  {
    assert PersistOk(s, t, s.fast.toPersist[t]);
    ResultWriteKeeps(c, s, t, s'.store, s.served, s'.fast.toPersist);
  }

  /** One waiting task is written and leaves the list. */
  lemma LeavesListKeeps(c: Config, s: State, t: TaskId, row: Task)
    requires Inv(c, s) && s.fast.Persisting? && t in s.tasks && RowStep(c, s, t, row) && HoldsNoMore(s.tasks[t], row)
    ensures Inv(c, SetTask(s, t, row).(fast := Persisting(s.fast.toPersist - {t})))
  {
    var todo' := s.fast.toPersist - {t};
    var s' := SetTask(s, t, row).(fast := Persisting(todo'));
    forall u | u in todo'
      ensures PersistOk(s', u, todo'[u])
    {
      assert PersistOk(s, u, todo'[u]);
    }
    RowStepKeeps(c, s, t, row, Persisting(todo'));
  }

  lemma CompleteKeeps(c: Config, s: State, t: TaskId, s': State)
    requires Inv(c, s) && s.fast.Persisting? && PersistNext(s, PersistComplete(t)) == Some(s')
    ensures Inv(c, s')
  {
    var row := CompletedWith(s.tasks[t], ResultObj(t), s.now);
    assert PersistOk(s, t, s.fast.toPersist[t]);
    assert Shape(t, s.tasks[t]) && Identified(s, t);
    assert ResultStored(SetTask(s, t, row), t);
    LeavesListKeeps(c, s, t, row);
  }

  lemma DeferKeeps(c: Config, s: State, t: TaskId)
    requires Inv(c, s) && s.fast.Persisting? && t in s.tasks && s.tasks[t].status.StoringResult?
    ensures Inv(c, SetTask(s, t, Deferred(s.tasks[t], s.now)).(fast := Persisting(s.fast.toPersist - {t})))
  {
    var row := Deferred(s.tasks[t], s.now);
    assert Shape(t, s.tasks[t]) && Identified(s, t);
    assert Identified(SetTask(s, t, row), t);
    hide Inv;
    LeavesListKeeps(c, s, t, row);
  }

  lemma PersistKeeps(c: Config, s: State, f: FastStep, s': State)
    requires Inv(c, s) && s.fast.Persisting? && PersistNext(s, f) == Some(s')
    ensures Inv(c, s')
  {
    match f
    case PersistPut(t, data) => PutKeeps(c, s, t, data, s');
    case PersistRollback(t, deleted) => RollbackKeeps(c, s, t, deleted, s');
    case PersistComplete(t) => CompleteKeeps(c, s, t, s');
    case PersistDefer(t) => DeferKeeps(c, s, t);
    case PersistDone => FastMoveKeeps(c, s, FastIdle);
  }

  lemma FastKeeps(c: Config, s: State, f: FastStep, s': State)
    requires Inv(c, s) && FastNext(c, s, f) == Some(s')
    ensures Inv(c, s')
  {
    if f.FastAbort? {
      FastMoveKeeps(c, s, FastIdle);
    } else {
      match s.fast
      case FastIdle => StartKeeps(c, s, f, s');
      case Submitting(_, _, _, _) => SubmitKeeps(c, s, f, s');
      case Accepted(_, _, _, _, _) => RecordKeeps(c, s, s');
      case Syncing(_) => SyncKeeps(c, s, f, s');
      case Persisting(_) => PersistKeeps(c, s, f, s');
    }
  }

  // ---------- steps about one task that the loops do not hold ----------

  predicate SameObject(a: map<ObjKey, Bytes>, b: map<ObjKey, Bytes>, k: ObjKey) {
    (k in a <==> k in b) && (k in a ==> a[k] == b[k])
  }

  /** Only the rows, objects and intake entries of t may differ; its row may appear, or go if it is
      finished. */
  ghost predicate OnlyAbout(s: State, s': State, t: TaskId) {
    && s'.workers == s.workers && s'.now == s.now && s'.fast == s.fast && s'.quiet == s.quiet
    && s'.accepted == s.accepted && s'.served == s.served
    && (forall u | u != t ::
          SameObject(s.store, s'.store, PayloadObj(u)) && SameObject(s.store, s'.store, ResultObj(u)))
    && (forall u | u != t :: u in s'.tasks <==> u in s.tasks)
    && (forall u | u != t && u in s.tasks :: s'.tasks[u] == s.tasks[u])
    && (t in s.tasks ==> Terminal(s.tasks[t].status))
    && (t in s'.tasks ==> s'.tasks[t].workerId.None? || (t in s.tasks && s'.tasks[t] == s.tasks[t]))
    && (forall u | u in s.requests :: u in s'.requests && s'.requests[u] == s.requests[u])
    && (forall u | u in s'.requests && u != t :: u in s.requests)
    && (forall u | u in s'.uploading && u != t :: u in s.uploading)
    && (forall u | u in s'.copying && u != t :: u in s.copying)
  }

  /** The invariant's claims about t itself. */
  ghost predicate AboutOk(c: Config, s: State, t: TaskId) {
    && (t in s.tasks ==>
          && Shape(t, s.tasks[t]) && Identified(s, t)
          && (s.tasks[t].payloadKey.Some? && !Terminal(s.tasks[t].status) ==> PayloadStored(s, t))
          && (s.tasks[t].status.Completed? && !PastRetention(s.tasks[t], s.now - c.retention) ==> ResultStored(s, t)))
    && (t in s.uploading ==> PayloadStored(s, t))
    && (t in s.requests ==> Accepts(s.requests[t]))
    && (t in s.copying ==> ResultObj(t) in s.store)
  }

  lemma AboutCapacity(c: Config, s: State, s': State, t: TaskId)
    requires WithinCapacity(c, s.tasks) && OnlyAbout(s, s', t)
    ensures WithinCapacity(c, s'.tasks)
  {
    forall w: WorkerId
      ensures Load(s'.tasks, w) <= c.targetPerWorker
    {
      forall u | u in LoadSet(s'.tasks, w)
        ensures u in LoadSet(s.tasks, w)
      {
      }
      LoadNotGrown(s.tasks, s'.tasks, w);
    }
  }

  lemma AboutPayloads(c: Config, s: State, s': State, t: TaskId)
    requires PayloadsOk(s) && OnlyAbout(s, s', t) && AboutOk(c, s', t)
    ensures PayloadsOk(s')
  {
    forall u | u != t && PayloadStored(s, u)
      ensures PayloadStored(s', u)
    {
      assert SameObject(s.store, s'.store, PayloadObj(u));
    }
  }

  lemma AboutResults(c: Config, s: State, s': State, t: TaskId)
    requires ResultsOk(c, s) && OnlyAbout(s, s', t) && AboutOk(c, s', t)
    ensures ResultsOk(c, s')
  {
    forall u | u in s'.tasks
      ensures Identified(s', u)
      ensures s'.tasks[u].status.Completed? && !PastRetention(s'.tasks[u], s'.now - c.retention) ==> ResultStored(s', u)
    {
      if u != t {
        assert Identified(s, u);
        assert SameObject(s.store, s'.store, ResultObj(u));
      }
    }
    forall u | u in s'.copying
      ensures ResultObj(u) in s'.store
    {
      if u != t {
        assert SameObject(s.store, s'.store, ResultObj(u));
      }
    }
  }

  lemma AboutTables(c: Config, s: State, s': State, t: TaskId)
    requires TablesOk(c, s) && OnlyAbout(s, s', t) && AboutOk(c, s', t) && IdsOk(s') && CleaningOk(c, s')
    ensures TablesOk(c, s')
  {
    AboutCapacity(c, s, s', t);
    AboutPayloads(c, s, s', t);
    AboutResults(c, s, s', t);
    assert Shapes(s'.tasks);
  }

  lemma AboutFast(s: State, s': State, t: TaskId)
    requires FastOk(s) && OnlyAbout(s, s', t)
    ensures FastOk(s')
  {
    match s.fast
    case Persisting(todo) =>
      forall u | u in todo
        ensures PersistOk(s', u, todo[u])
      {
        assert PersistOk(s, u, todo[u]);
        assert u != t;
        assert SameObject(s.store, s'.store, ResultObj(u));
      }
    case Syncing(todo) =>
      forall u | u in todo
        ensures u in s'.tasks && s'.tasks[u].status.Processing?
      {
        assert u != t;
      }
    case _ =>
  }

  lemma AboutKeeps(c: Config, s: State, s': State, t: TaskId)
    requires Inv(c, s) && OnlyAbout(s, s', t) && AboutOk(c, s', t) && IdsOk(s') && CleaningOk(c, s')
    requires s'.slow == s.slow
             || ((s.slow.CleanupCheck? || s.slow.Cleaning?) && (s'.slow.SlowIdle? || s'.slow.Cleaning?))
    ensures Inv(c, s')
  {
    AboutTables(c, s, s', t);
    AboutFast(s, s', t);
    forall w | MustBeIdle(s', w)
      ensures Unattended(s'.tasks, w)
    {
      assert MustBeIdle(s, w);
    }
  }

  // ---------- the gateway ----------

  lemma PutPayloadKeeps(c: Config, s: State, t: TaskId, r: Payload.Request, s': State)
    requires Inv(c, s) && GatewayNext(s, PutPayload(t, r)) == Some(s')
    ensures Inv(c, s')
  {
    assert t !in s.tasks && t !in s.requests && t !in s.uploading && t !in s.copying;
    AboutKeeps(c, s, s', t);
  }

  lemma InsertTaskKeeps(c: Config, s: State, t: TaskId, cacheKey: Option<string>, s': State)
    requires Inv(c, s) && GatewayNext(s, InsertTask(t, cacheKey)) == Some(s')
    ensures Inv(c, s')
  {
    InsertedOnly(s, t, cacheKey, s');
    InsertedAbout(c, s, t, cacheKey, s');
    AboutKeeps(c, s, s', t);
  }

  lemma InsertedOnly(s: State, t: TaskId, cacheKey: Option<string>, s': State)
    requires IdsOk(s) && GatewayNext(s, InsertTask(t, cacheKey)) == Some(s')
    ensures OnlyAbout(s, s', t) && IdsOk(s')
  {
  }

  lemma InsertedAbout(c: Config, s: State, t: TaskId, cacheKey: Option<string>, s': State)
    requires IdsOk(s) && PayloadsOk(s) && GatewayNext(s, InsertTask(t, cacheKey)) == Some(s')
    ensures AboutOk(c, s', t)
  {
    assert PayloadStored(s, t);
    assert PayloadStored(s', t);
  }

  lemma PutHitKeeps(c: Config, s: State, t: TaskId, data: Bytes, s': State)
    requires Inv(c, s) && GatewayNext(s, PutHit(t, data)) == Some(s')
    ensures Inv(c, s')
  {
    assert t !in s.tasks && t !in s.requests && t !in s.uploading;
    AboutKeeps(c, s, s', t);
  }

  lemma InsertHitKeeps(c: Config, s: State, t: TaskId, hitKey: string, s': State)
    requires Inv(c, s) && GatewayNext(s, InsertHit(t, hitKey)) == Some(s')
    ensures Inv(c, s')
  {
    AboutKeeps(c, s, s', t);
  }

  lemma DropPayloadKeeps(c: Config, s: State, t: TaskId, deleted: bool, s': State)
    requires Inv(c, s) && GatewayNext(s, DropPayload(t, deleted)) == Some(s')
    ensures Inv(c, s')
  {
    AboutKeeps(c, s, s', t);
  }

  lemma DropHitKeeps(c: Config, s: State, t: TaskId, deleted: bool, s': State)
    requires Inv(c, s) && GatewayNext(s, DropHit(t, deleted)) == Some(s')
    ensures Inv(c, s')
  {
    AboutKeeps(c, s, s', t);
  }

  lemma GatewayKeeps(c: Config, s: State, g: GatewayStep, s': State)
    requires Inv(c, s) && GatewayNext(s, g) == Some(s')
    ensures Inv(c, s')
  {
    match g
    case PutPayload(t, r) => PutPayloadKeeps(c, s, t, r, s');
    case InsertTask(t, cacheKey) => InsertTaskKeeps(c, s, t, cacheKey, s');
    case DropPayload(t, deleted) => DropPayloadKeeps(c, s, t, deleted, s');
    case PutHit(t, data) => PutHitKeeps(c, s, t, data, s');
    case InsertHit(t, hitKey) => InsertHitKeeps(c, s, t, hitKey, s');
    case DropHit(t, deleted) => DropHitKeeps(c, s, t, deleted, s');
  }

  // ---------- the cleanup ----------

  lemma CleanTaskKeeps(c: Config, s: State, t: TaskId, s': State)
    requires Inv(c, s) && s.slow.Cleaning? && t in s.slow.toClean && OnlyAbout(s, s', t)
    requires s'.issued == s.issued && s'.requests == s.requests && s'.uploading == s.uploading
             && s'.copying == s.copying
    requires s'.slow.Cleaning? && CleaningOk(c, s')
    requires s'.tasks == s.tasks || s'.tasks == s.tasks - {t}
    ensures Inv(c, s')
  {
    assert PastRetention(s.tasks[t], s.slow.cutoff);
    assert Shape(t, s.tasks[t]) && Identified(s, t);
    assert t !in s.uploading && t !in s.copying;
    assert t in s.requests ==> Accepts(s.requests[t]);
    assert AboutOk(c, s', t) by {
      assert t in s'.tasks ==> Identified(s', t);
    }
    assert IdsOk(s');
    AboutKeeps(c, s, s', t);
  }

  lemma CleanObjectKeeps(c: Config, s: State, l: SlowStep, s': State)
    requires Inv(c, s) && s.slow.Cleaning? && CleanNext(c, s, l) == Some(s')
    requires l.CleanPayload? || l.CleanResult?
    ensures Inv(c, s')
  {
    var t := l.t;
    assert Shape(t, s.tasks[t]);
    assert PastRetention(s.tasks[t], s.slow.cutoff);
    CleanedOnly(c, s, l, s');
    CleanTaskKeeps(c, s, t, s');
  }

  lemma CleanedOnly(c: Config, s: State, l: SlowStep, s': State)
    requires s.slow.Cleaning? && CleanNext(c, s, l) == Some(s') && CleaningOk(c, s)
    requires l.CleanPayload? || l.CleanResult?
    requires l.t in s.tasks && Shape(l.t, s.tasks[l.t]) && Terminal(s.tasks[l.t].status)
    ensures OnlyAbout(s, s', l.t) && CleaningOk(c, s')
    ensures s' == s.(store := s'.store, slow := s'.slow) && s'.slow.Cleaning?
  {
    var (row, _) := s.slow.toClean[l.t];
    assert row.payloadKey.None? || row.payloadKey == Some(PayloadObj(l.t));
    assert row.resultKey.None? || row.resultKey == Some(ResultObj(l.t));
  }

  lemma CleanRowKeeps(c: Config, s: State, t: TaskId, s': State)
    requires Inv(c, s) && s.slow.Cleaning? && CleanNext(c, s, CleanRow(t)) == Some(s')
    ensures Inv(c, s')
  {
    CleanedAreOld(c, s);
    hide Inv;
    RowCleanedOnly(c, s, t, s');
    hide CleanNext, OnlyAbout, CleaningOk;
    CleanTaskKeeps(c, s, t, s');
  }

  lemma CleanedAreOld(c: Config, s: State)
    requires Inv(c, s) && s.slow.Cleaning?
    ensures CleaningOk(c, s)
  {
  }

  lemma RowCleanedOnly(c: Config, s: State, t: TaskId, s': State)
    requires CleaningOk(c, s) && s.slow.Cleaning? && CleanNext(c, s, CleanRow(t)) == Some(s')
    ensures OnlyAbout(s, s', t) && CleaningOk(c, s') && t in s.slow.toClean && s'.slow.Cleaning?
    ensures s'.issued == s.issued && s'.requests == s.requests && s'.uploading == s.uploading && s'.copying == s.copying
    ensures s'.tasks == s.tasks - {t}
  {
    assert PastRetention(s.tasks[t], s.slow.cutoff);
  }

  lemma CleanMoveKeeps(c: Config, s: State, l: SlowStep, s': State)
    requires Inv(c, s) && (s.slow.CleanupCheck? || s.slow.Cleaning?) && CleanNext(c, s, l) == Some(s')
    requires !l.CleanPayload? && !l.CleanResult? && !l.CleanRow?
    ensures Inv(c, s')
  {
    assert CleaningOk(c, s');
    SlowPcKeeps(c, s, s'.slow);
  }

  lemma CleanupListKeeps(c: Config, s: State, l: SlowStep, s': State)
    requires Inv(c, s) && s.slow.CleanupCheck? && CleanNext(c, s, l) == Some(s')
    ensures Inv(c, s')
  {
    assert l.CleanupList? || l.CleanupDone? by {
      hide Inv;
    }
    hide Inv, CleanNext;
    CleanMoveKeeps(c, s, l, s');
  }

  /** A change of what the slow loop holds, around the cleanup. */
  lemma SlowPcKeeps(c: Config, s: State, slow': SlowPc)
    requires Inv(c, s) && (slow'.SlowIdle? || slow'.Cleaning?) && CleaningOk(c, s.(slow := slow'))
    ensures Inv(c, s.(slow := slow'))
  {
    var s' := s.(slow := slow');
    assert forall u :: PayloadStored(s', u) == PayloadStored(s, u);
    assert forall u <- s.tasks :: ResultStored(s', u) == ResultStored(s, u) && Identified(s', u) == Identified(s, u);
    if s.fast.Persisting? {
      assert forall u <- s.fast.toPersist ::
          PersistOk(s', u, s.fast.toPersist[u]) == PersistOk(s, u, s.fast.toPersist[u]);
    }
    assert forall w :: MustBeIdle(s', w) ==> MustBeIdle(s, w);
  }

  // ---------- time ----------

  lemma TickKeeps(c: Config, s: State, later: Time)
    requires Inv(c, s) && later >= s.now
    ensures Inv(c, s.(now := later))
  {
    var s' := s.(now := later);
    assert forall u :: PayloadStored(s', u) == PayloadStored(s, u);
    assert forall u <- s.tasks :: ResultStored(s', u) == ResultStored(s, u) && Identified(s', u) == Identified(s, u);
    assert TablesOk(c, s');
    if s.fast.Persisting? {
      assert forall u <- s.fast.toPersist ::
          PersistOk(s', u, s.fast.toPersist[u]) == PersistOk(s, u, s.fast.toPersist[u]);
    }
    assert FastOk(s');
    assert forall w :: MustBeIdle(s', w) ==> MustBeIdle(s, w);
  }
}
