/** The synchronising half of the fast loop (tasks/results.py; scheduler/task_repository.py): status
    refresh, and fetching, storing and recording results. The original handles up to four tasks of a list
    at once; here one call is followed at a time, and the protocol interleaves them. */
module Results {
  import opened Wrappers
  import opened Status
  import opened Rows
  import opened Protocol
  import opened Invariant
  import opened Theorems
  import opened Database
  import opened Interleaving

  ghost predicate Fetching(s: State, t: TaskId) {
    s.fast.Persisting? && t in s.fast.toPersist
  }

  // ---------- the sessions as steps ----------

  lemma PutStep(c: Config, s: State, t: TaskId, data: Bytes)
    requires Fetching(s, t) && s.fast.toPersist[t].ToFetch?
    ensures var p := s.fast.toPersist[t];
            Next(c, s, Fast(PersistPut(t, data)))
            == Some(s.(served := s.served + {Served(p.url, p.upstreamId, data)}, store := s.store[ResultObj(t) := data],
                       fast := Persisting(s.fast.toPersist[t := ToComplete(p.url, p.upstreamId)])))
  {
  }

  lemma CompleteStep(c: Config, s: State, t: TaskId)
    requires Fetching(s, t) && s.fast.toPersist[t].ToComplete? && t in s.tasks
    ensures Next(c, s, Fast(PersistComplete(t)))
            == Some(SetTask(s, t, CompletedWith(s.tasks[t], ResultObj(t), s.now))
                    .(fast := Persisting(s.fast.toPersist - {t})))
  {
  }

  lemma RollbackStep(c: Config, s: State, t: TaskId, deleted: bool)
    requires Fetching(s, t) && s.fast.toPersist[t].ToComplete?
    ensures Next(c, s, Fast(PersistRollback(t, deleted)))
            == Some(s.(store := if deleted then s.store - {ResultObj(t)} else s.store,
                       fast := Persisting(s.fast.toPersist - {t})))
  {
  }

  lemma DeferStep(c: Config, s: State, t: TaskId)
    requires s.fast.Persisting? && t in s.tasks && s.tasks[t].status.StoringResult?
    ensures Next(c, s, Fast(PersistDefer(t)))
            == Some(SetTask(s, t, Deferred(s.tasks[t], s.now)).(fast := Persisting(s.fast.toPersist - {t})))
  {
  }

  /** A task whose result is on its way is waiting for it. */
  lemma FetchedWaits(c: Config, s: State, t: TaskId)
    requires Inv(c, s) && Fetching(s, t)
    ensures t in s.tasks && s.tasks[t].status.StoringResult?
    ensures PersistOk(s, t, s.fast.toPersist[t])
  {
  }

  lemma WaitingStays(c: Config, run: seq<State>, steps: seq<Step>, i: nat, t: TaskId)
    requires Behavior(c, run, steps) && i < |run| && OnlyForeign(FastLoop, steps, i)
    requires t in run[i].tasks && run[i].tasks[t].status.StoringResult?
    ensures var s := run[|run| - 1];
            s.fast == run[i].fast && t in s.tasks && s.tasks[t] == run[i].tasks[t] && s.served == run[i].served
    ensures Fetching(run[|run| - 1], t) ==> PersistOk(run[|run| - 1], t, run[|run| - 1].fast.toPersist[t])
  {
    FastAwaits(c, run, steps, i);
    InvAlways(c, run, steps, |run| - 1);
    hide Behavior;
    if Fetching(run[|run| - 1], t) {
      FetchedWaits(c, run[|run| - 1], t);
    }
    hide Inv, PersistOk;
  }

  lemma LastStep(c: Config, run: seq<State>, steps: seq<Step>)
    requires Behavior(c, run, steps)
    ensures |run| == |steps| + 1
  {
  }

  /** The log says that the result of t has been recorded, or that the task has been put off. */
  ghost predicate Dealt(before: seq<FastStep>, after: seq<FastStep>, t: TaskId, stored: bool) {
    (if stored then PersistComplete(t) else PersistDefer(t)) in Since(before, after)
  }

  /** The log says that the worker's answer about t has been applied, or that the task has been put off. */
  ghost predicate Refreshed(before: seq<FastStep>, after: seq<FastStep>, t: TaskId) {
    exists f <- Since(before, after) :: f == SyncDefer(t) || (f.SyncApply? && f.t == t)
  }

  // ---------- the methods ----------

  /** An await of the dispatcher while the result of t is on its way. */
  method Pause(db: Deployment, t: TaskId)
    requires db.Valid() && t in db.tasks && db.tasks[t].status.StoringResult?
    modifies db
    ensures db.Valid() && t in db.tasks && db.tasks[t] == old(db.tasks[t])
    ensures db.Cur().fast == old(db.Cur().fast) && db.Cur().served == old(db.Cur().served)
    ensures Fetching(db.Cur(), t) ==> PersistOk(db.Cur(), t, db.Cur().fast.toPersist[t])
    ensures old(db.run) <= db.run && db.fastDone == old(db.fastDone)
  {
    hide Behavior, PersistOk, SlowOnes, FastOnes;
    ghost var i := |db.run| - 1;
    LastStep(db.c, db.run, db.steps);
    Wait(db);
    WaitingStays(db.c, db.run, db.steps, i, t);
  }

  method Wait(db: Deployment)
    requires db.Valid()
    modifies db
    ensures db.Valid() && old(db.run) <= db.run && old(db.steps) <= db.steps
    ensures OnlyForeign(FastLoop, db.steps, |old(db.steps)|) && db.fastDone == old(db.fastDone)
  {
    hide Behavior, SlowOnes, FastOnes;
    db.Await(FastLoop);
  }

  /** `defer_task_poll`, after a failed attempt. */
  method DeferTaskPoll(db: Deployment, t: TaskId)
    requires db.Valid() && db.Cur().fast.Persisting? && t in db.tasks && db.tasks[t].status.StoringResult?
    modifies db
    ensures db.Valid() && db.Cur().fast == Persisting(old(db.Cur().fast.toPersist) - {t})
    ensures db.tasks == old(db.tasks)[t := old(db.tasks)[t].(nextPollAt := Some(db.now + POLL_RETRY_DELAY))]
    ensures old(db.run) <= db.run && db.fastDone == old(db.fastDone) + [PersistDefer(t)]
  {
    hide Next, Behavior, SlowOnes, FastOnes;
    DeferStep(db.c, db.Cur(), t);
    db.tasks := db.tasks[t := Deferred(db.tasks[t], db.now)];
    db.Record(Fast(PersistDefer(t)));
  }

  /** `store_result`. */
  method StoreResult(db: Deployment, t: TaskId, data: Bytes)
    requires db.Valid() && Fetching(db.Cur(), t) && db.Cur().fast.toPersist[t].ToFetch?
    modifies db
    ensures db.Valid() && db.tasks == old(db.tasks) && old(db.run) <= db.run
    ensures var p := old(db.Cur().fast.toPersist)[t];
            && db.Cur().fast == Persisting(old(db.Cur().fast.toPersist)[t := ToComplete(p.url, p.upstreamId)])
            && db.store == old(db.store)[ResultObj(t) := data]
            && db.Cur().served == old(db.Cur().served) + {Served(p.url, p.upstreamId, data)}
    ensures db.fastDone == old(db.fastDone) + [PersistPut(t, data)]
  {
    hide Next, Behavior, SlowOnes, FastOnes;
    PutStep(db.c, db.Cur(), t, data);
    db.store := db.store[ResultObj(t) := data];
    db.Record(Fast(PersistPut(t, data)));
  }

  /** `complete_with_result`; when it fails, the object is deleted again, if the store lets it. */
  method RecordResult(db: Deployment, t: TaskId) returns (recorded: bool, deleted: bool)
    requires db.Valid() && Fetching(db.Cur(), t) && db.Cur().fast.toPersist[t].ToComplete?
    requires t in db.tasks && PersistOk(db.Cur(), t, db.Cur().fast.toPersist[t])
    modifies db
    ensures db.Valid() && db.Cur().fast == Persisting(old(db.Cur().fast.toPersist) - {t}) && t in db.tasks
    ensures old(db.run) <= db.run
    ensures recorded ==>
              var p := old(db.Cur().fast.toPersist)[t];
              && db.tasks[t].status.Completed? && db.tasks[t].resultKey == Some(ResultObj(t))
              && ResultObj(t) in db.store
              && db.tasks[t].upstreamId == Some(p.upstreamId) && db.tasks[t].upstreamUrl == Some(p.url)
              && Served(p.url, p.upstreamId, db.store[ResultObj(t)]) in db.Cur().served
    ensures !recorded ==> db.tasks == old(db.tasks)
    ensures db.store == if recorded || !deleted then old(db.store) else old(db.store) - {ResultObj(t)}
    ensures db.fastDone == old(db.fastDone) + [if recorded then PersistComplete(t) else PersistRollback(t, deleted)]
  {
    hide Next, Behavior, SlowOnes, FastOnes;
    recorded, deleted := *, *;
    if recorded {
      CompleteStep(db.c, db.Cur(), t);
      db.tasks := db.tasks[t := CompletedWith(db.tasks[t], ResultObj(t), db.now)];
      db.Record(Fast(PersistComplete(t)));
    } else {
      RollbackStep(db.c, db.Cur(), t, deleted);
      if deleted {
        db.store := db.store - {ResultObj(t)};
      }
      db.Record(Fast(PersistRollback(t, deleted)));
    }
  }

  /** `fetch_and_store_result`, with the handler of its caller. The object is put before the row points to
      it; if recording fails the object is deleted again, and the task is tried later. When the call says
      that the result is stored, the task is completed and its object holds what the recorded worker
      served; otherwise the task still waits for its result, and is not polled before the delay is over. */
  method FetchAndStoreResult(db: Deployment, t: TaskId) returns (stored: bool)
    requires db.Valid() && Fetching(db.Cur(), t) && db.Cur().fast.toPersist[t].ToFetch?
    modifies db
    ensures db.Valid() && db.Cur().fast == Persisting(old(db.Cur().fast.toPersist) - {t}) && t in db.tasks
    ensures old(db.run) <= db.run
    ensures stored ==>
              var p := old(db.Cur().fast.toPersist)[t];
              && db.tasks[t].status.Completed? && db.tasks[t].resultKey == Some(ResultObj(t))
              && ResultObj(t) in db.store
              && db.tasks[t].upstreamId == Some(p.upstreamId) && db.tasks[t].upstreamUrl == Some(p.url)
              && Served(p.url, p.upstreamId, db.store[ResultObj(t)]) in db.Cur().served
    ensures !stored ==>
              db.tasks[t].status.StoringResult? && db.tasks[t].nextPollAt == Some(db.now + POLL_RETRY_DELAY)
    ensures FastOnly(old(db.fastDone), db.fastDone, Persists) && Dealt(old(db.fastDone), db.fastDone, t, stored)
  {
    hide Next, Behavior, Inv, PersistOk, SlowOnes, FastOnes, Since, FastOnly;
    ghost var done0 := db.fastDone;
    db.Know();
    FetchedWaits(db.c, db.Cur(), t);
    Pause(db, t);
    var answer: Option<Bytes> := *;
    if !answer.Some? {
      DeferTaskPoll(db, t);
      DealtLast(done0, [], PersistDefer(t), db.fastDone);
      return false;
    }
    stored := Keep(db, t, answer.value);
  }

  /** The rest of `fetch_and_store_result`, once the result has been fetched. */
  method Keep(db: Deployment, t: TaskId, data: Bytes) returns (stored: bool)
    requires db.Valid() && Fetching(db.Cur(), t) && db.Cur().fast.toPersist[t].ToFetch?
    requires t in db.tasks && db.tasks[t].status.StoringResult?
    modifies db
    ensures db.Valid() && db.Cur().fast == Persisting(old(db.Cur().fast.toPersist) - {t}) && t in db.tasks
    ensures old(db.run) <= db.run
    ensures stored ==>
              var p := old(db.Cur().fast.toPersist)[t];
              && db.tasks[t].status.Completed? && db.tasks[t].resultKey == Some(ResultObj(t))
              && ResultObj(t) in db.store
              && db.tasks[t].upstreamId == Some(p.upstreamId) && db.tasks[t].upstreamUrl == Some(p.url)
              && Served(p.url, p.upstreamId, db.store[ResultObj(t)]) in db.Cur().served
    ensures !stored ==>
              db.tasks[t].status.StoringResult? && db.tasks[t].nextPollAt == Some(db.now + POLL_RETRY_DELAY)
    ensures FastOnly(old(db.fastDone), db.fastDone, Persists) && Dealt(old(db.fastDone), db.fastDone, t, stored)
  {
    hide Next, Behavior, Inv, PersistOk, SlowOnes, FastOnes, Since, FastOnly;
    ghost var todo, done0 := db.Cur().fast.toPersist, db.fastDone;
    StoreResult(db, t, data);
    Pause(db, t);
    UpdatedThenGone(todo, t, ToComplete(todo[t].url, todo[t].upstreamId));
    var deleted;
    stored, deleted := RecordResult(db, t);
    if stored {
      DealtLast(done0, [PersistPut(t, data)], PersistComplete(t), db.fastDone);
    } else {
      Retry(db, t);
      DealtLast(done0, [PersistPut(t, data), PersistRollback(t, deleted)], PersistDefer(t), db.fastDone);
    }
  }

  /** The task is put off after its result could not be recorded. */
  method Retry(db: Deployment, t: TaskId)
    requires db.Valid() && db.Cur().fast.Persisting? && t !in db.Cur().fast.toPersist
    requires t in db.tasks && db.tasks[t].status.StoringResult?
    modifies db
    ensures db.Valid() && db.Cur().fast == old(db.Cur().fast) && old(db.run) <= db.run && t in db.tasks
    ensures db.tasks[t].status.StoringResult? && db.tasks[t].nextPollAt == Some(db.now + POLL_RETRY_DELAY)
    ensures db.fastDone == old(db.fastDone) + [PersistDefer(t)]
  {
    hide Next, Behavior, Inv, PersistOk, SlowOnes, FastOnes;
    Pause(db, t);
    assert db.Cur().fast.toPersist - {t} == db.Cur().fast.toPersist;
    DeferTaskPoll(db, t);
  }

  lemma UpdatedThenGone(todo: map<TaskId, Persist>, t: TaskId, p: Persist)
    ensures todo[t := p] - {t} == todo - {t} && t !in todo - {t}
  {
  }

  lemma DealtLast(done: seq<FastStep>, first: seq<FastStep>, last: FastStep, after: seq<FastStep>)
    requires after == done + first + [last]
    requires FastPartOf(last).Persists? && forall f <- first :: FastPartOf(f).Persists?
    ensures FastOnly(done, after, Persists) && last in Since(done, after)
  {
    assert Since(done, after) == first + [last];
  }

  // ---------- whole lists ----------

  lemma PersistListStep(c: Config, s: State, ts: set<TaskId>)
    requires s.fast.FastIdle? && forall t <- ts :: t in s.tasks && PersistCandidate(s.tasks[t], s.now)
    ensures var s' := Next(c, s, Fast(PersistList(ts)));
            && s'.Some? && s'.value == s.(fast := s'.value.fast) && s'.value.fast.Persisting?
            && s'.value.fast.toPersist.Keys == ts && forall t <- ts :: s'.value.fast.toPersist[t].ToFetch?
  {
  }

  lemma SyncListStep(c: Config, s: State, ts: set<TaskId>)
    requires s.fast.FastIdle? && forall t <- ts :: t in s.tasks && SyncCandidate(s.tasks[t], s.now)
    ensures Next(c, s, Fast(SyncList(ts))) == Some(s.(fast := Syncing(ts)))
  {
  }

  lemma DoneStep(c: Config, s: State)
    ensures s.fast.Persisting? ==> Next(c, s, Fast(PersistDone)) == Some(s.(fast := FastIdle))
    ensures s.fast.Syncing? ==> Next(c, s, Fast(SyncDone)) == Some(s.(fast := FastIdle))
  {
  }

  lemma SyncStep(c: Config, s: State, t: TaskId, report: Report)
    requires s.fast.Syncing? && t in s.tasks
    ensures t in s.fast.toSync ==>
              && Next(c, s, Fast(SyncApply(t, report)))
                 == Some(SetTask(s, t, Polled(s.tasks[t], report, s.now)).(fast := Syncing(s.fast.toSync - {t})))
              && Next(c, s, Fast(SyncDefer(t)))
                 == Some(SetTask(s, t, Deferred(s.tasks[t], s.now)).(fast := Syncing(s.fast.toSync - {t})))
    ensures Next(c, s, Fast(SyncClear(t))) == Some(SetTask(s, t, s.tasks[t].(nextPollAt := None)))
  {
    hide Polled;
  }

  lemma TouchStep(c: Config, s: State, w: WorkerId)
    requires s.fast.Syncing?
    ensures Next(c, s, Fast(TouchWorker(w))) == Some(s.(workers := Touched(s, w)))
  {
  }

  lemma SyncedRow(c: Config, s: State, t: TaskId, report: Report)
    requires Inv(c, s) && s.fast.Syncing? && t in s.fast.toSync
    ensures t in s.tasks && s.tasks[t].status.Processing? && Evolves(s.tasks[t], Polled(s.tasks[t], report, s.now))
    ensures Rank(Polled(s.tasks[t], report, s.now).status) >= Rank(Processing)
  {
    assert Shape(t, s.tasks[t]);
    PollEvolves(t, s.tasks[t], report, s.now);
  }

  lemma FastStays(c: Config, run: seq<State>, steps: seq<Step>, i: nat)
    requires Behavior(c, run, steps) && i < |run| && OnlyForeign(FastLoop, steps, i)
    ensures run[|run| - 1].fast == run[i].fast
    ensures forall t <- run[i].tasks :: !Terminal(run[i].tasks[t].status) ==>
              t in run[|run| - 1].tasks && run[|run| - 1].tasks[t] == run[i].tasks[t]
  {
    FastAwaits(c, run, steps, i);
  }

  method Rest(db: Deployment)
    requires db.Valid()
    modifies db
    ensures db.Valid() && db.Cur().fast == old(db.Cur().fast) && old(db.run) <= db.run
    ensures db.fastDone == old(db.fastDone)
    ensures forall t <- old(db.tasks) :: !Terminal(old(db.tasks)[t].status) ==>
              t in db.tasks && db.tasks[t] == old(db.tasks)[t]
  {
    hide Behavior, SlowOnes, FastOnes;
    ghost var i := |db.run| - 1;
    LastStep(db.c, db.run, db.steps);
    Wait(db);
    FastStays(db.c, db.run, db.steps, i);
  }

  /** One answer of the worker, or none: an unanswered poll is put off; an answer moves the task on, never
      back, and changes nothing of its identity. */
  method ApplyAnswer(db: Deployment, t: TaskId, answer: Option<Report>)
    requires db.Valid() && db.Cur().fast.Syncing? && t in db.Cur().fast.toSync
    modifies db
    ensures db.Valid() && db.Cur().fast == Syncing(old(db.Cur().fast.toSync) - {t}) && old(db.run) <= db.run
    ensures t in old(db.tasks) && t in db.tasks && Evolves(old(db.tasks)[t], db.tasks[t])
    ensures Rank(db.tasks[t].status) >= Rank(Processing)
    ensures answer.None? ==> db.tasks[t] == old(db.tasks)[t].(nextPollAt := Some(db.now + POLL_RETRY_DELAY))
    ensures answer.Some? ==> db.tasks[t] == Polled(old(db.tasks)[t], answer.value, db.now)
    ensures db.fastDone == old(db.fastDone) + [if answer.Some? then SyncApply(t, answer.value) else SyncDefer(t)]
  {
    hide Next, Behavior, Inv, Polled, SlowOnes, FastOnes;
    db.Know();
    SyncedRow(db.c, db.Cur(), t, answer.GetOr(Report(None)));
    SyncStep(db.c, db.Cur(), t, answer.GetOr(Report(None)));
    if answer.Some? {
      db.tasks := db.tasks[t := Polled(db.tasks[t], answer.value, db.now)];
      db.Record(Fast(SyncApply(t, answer.value)));
    } else {
      db.tasks := db.tasks[t := Deferred(db.tasks[t], db.now)];
      db.Record(Fast(SyncDefer(t)));
    }
  }

  /** `refresh_task_from_upstream`, with the caller's follow-up: an unanswered poll is put off; an answer is
      applied to the row, whose poll time is then cleared, and the worker of a finished task is marked as
      active. */
  method RefreshTaskFromUpstream(db: Deployment, t: TaskId, answer: Option<Report>)
    requires db.Valid() && db.Cur().fast.Syncing? && t in db.Cur().fast.toSync
    modifies db
    ensures db.Valid() && db.Cur().fast == Syncing(old(db.Cur().fast.toSync) - {t}) && old(db.run) <= db.run
    ensures t in old(db.tasks) && old(db.tasks)[t].status.Processing?
    ensures answer.None? ==>
              && t in db.tasks && db.tasks[t] == old(db.tasks)[t].(nextPollAt := Some(db.now + POLL_RETRY_DELAY))
              && db.fastDone == old(db.fastDone) + [SyncDefer(t)]
    ensures answer.Some? ==>
              var row := Polled(old(db.tasks)[t], answer.value, old(db.now));
              && (!Terminal(row.status) ==> t in db.tasks && db.tasks[t] == row.(nextPollAt := None))
              && old(db.fastDone) + [SyncApply(t, answer.value)] <= db.fastDone
    ensures FastOnly(old(db.fastDone), db.fastDone, Syncs) && Refreshed(old(db.fastDone), db.fastDone, t)
  {
    hide Next, Behavior, Inv, Polled, Evolves, SlowOnes, FastOnes;
    ghost var done0 := db.fastDone;
    db.Know();
    SyncedRow(db.c, db.Cur(), t, answer.GetOr(Report(None)));
    ghost var row, now := db.tasks[t], db.now;
    Rest(db);
    ApplyAnswer(db, t, answer);
    if answer.Some? {
      ghost var done1 := db.fastDone;
      PolledAnyTime(row, answer.value, now, db.now);
      FollowUp(db, t);
      FollowedUp(done0, done1, db.fastDone, SyncApply(t, answer.value));
    } else {
      OneFast(done0, SyncDefer(t));
      assert db.fastDone == done0 + [SyncDefer(t)];
      assert Since(done0, db.fastDone) == [SyncDefer(t)];
      assert SyncDefer(t) in Since(done0, db.fastDone);
    }
  }

  lemma PolledAnyTime(row: Task, report: Report, now: Time, later: Time)
    requires row.status.Processing?
    ensures var r, r' := Polled(row, report, now), Polled(row, report, later);
            Terminal(r.status) == Terminal(r'.status) && (!Terminal(r.status) ==> r' == r)
  {
  }

  lemma FollowedUp(a: seq<FastStep>, b: seq<FastStep>, c: seq<FastStep>, f: FastStep)
    requires b == a + [f] && FastPartOf(f).Syncs? && FastOnly(b, c, Syncs)
    ensures FastOnly(a, c, Syncs) && a + [f] <= c && f in Since(a, c)
  {
    OneFast(a, f);
    FastOnlyJoins(a, b, c, Syncs);
    assert c[|a|] == f && Since(a, c)[0] == f;
  }

  /** What follows an answer: the poll time is cleared, and the worker of a finished task is touched. */
  method FollowUp(db: Deployment, t: TaskId)
    requires db.Valid() && db.Cur().fast.Syncing? && t in db.tasks
    modifies db
    ensures db.Valid() && db.Cur().fast == old(db.Cur().fast) && old(db.run) <= db.run
    ensures !Terminal(old(db.tasks)[t].status) ==>
              t in db.tasks && db.tasks[t] == old(db.tasks)[t].(nextPollAt := None)
    ensures FastOnly(old(db.fastDone), db.fastDone, Syncs)
  {
    hide Next, Behavior, SlowOnes, FastOnes, FastOnly;
    ghost var done0, row := db.fastDone, db.tasks[t];
    OneFast(done0, SyncClear(t));
    RestWith(db, t);
    if t in db.tasks {
      ClearPoll(db, t);
    }
    ghost var done1 := db.fastDone;
    assert done1 == done0 || done1 == done0 + [SyncClear(t)];
    assert !Terminal(row.status) ==> t in db.tasks && db.tasks[t] == row.(nextPollAt := None);
    RestWith(db, t);
    if t in db.tasks && Terminal(db.tasks[t].status) && db.tasks[t].workerId.Some? {
      var w := db.tasks[t].workerId.value;
      Touch(db, w);
      OneFast(done1, TouchWorker(w));
      FastOnlyJoins(done0, done1, db.fastDone, Syncs);
    }
  }

  /** An await, for one task. */
  method RestWith(db: Deployment, t: TaskId)
    requires db.Valid()
    modifies db
    ensures db.Valid() && db.Cur().fast == old(db.Cur().fast) && old(db.run) <= db.run
    ensures db.fastDone == old(db.fastDone)
    ensures t in old(db.tasks) && !Terminal(old(db.tasks)[t].status) ==>
              t in db.tasks && db.tasks[t] == old(db.tasks)[t]
  {
    hide Next, Behavior, SlowOnes, FastOnes;
    Rest(db);
  }

  method ClearPoll(db: Deployment, t: TaskId)
    requires db.Valid() && db.Cur().fast.Syncing? && t in db.tasks
    modifies db
    ensures db.Valid() && db.Cur().fast == old(db.Cur().fast) && old(db.run) <= db.run
    ensures db.tasks == old(db.tasks)[t := old(db.tasks)[t].(nextPollAt := None)]
    ensures db.fastDone == old(db.fastDone) + if old(db.tasks)[t].nextPollAt.Some? then [SyncClear(t)] else []
  {
    hide Next, Behavior, SlowOnes, FastOnes;
    if db.tasks[t].nextPollAt.Some? {
      SyncStep(db.c, db.Cur(), t, Report(None));
      db.tasks := db.tasks[t := db.tasks[t].(nextPollAt := None)];
      db.Record(Fast(SyncClear(t)));
    }
  }

  method Touch(db: Deployment, w: WorkerId)
    requires db.Valid() && db.Cur().fast.Syncing?
    modifies db
    ensures db.Valid() && db.Cur().fast == old(db.Cur().fast) && old(db.run) <= db.run && db.tasks == old(db.tasks)
    ensures db.fastDone == old(db.fastDone) + [TouchWorker(w)]
    ensures w in db.workers ==> db.workers[w].lastActiveAt == Some(db.now)
  {
    hide Next, Behavior, SlowOnes, FastOnes;
    TouchStep(db.c, db.Cur(), w);
    if w in db.workers {
      db.workers := db.workers[w := db.workers[w].(lastActiveAt := Some(db.now))];
    }
    db.Record(Fast(TouchWorker(w)));
  }

  /** At most `limit` of the candidates; the order in which the original prefers them is not modelled. */
  method UpTo(candidates: set<TaskId>, limit: nat) returns (some: set<TaskId>)
    ensures some <= candidates && |some| <= limit && (|some| == limit || some == candidates)
  {
    some := {};
    var rest := candidates;
    while rest != {} && |some| < limit
      invariant some !! rest && some + rest == candidates && |some| <= limit
      decreases |rest|
    {
      ghost var x := Pick(rest);
      assert x in rest;
      var t :| t in rest;
      some, rest := some + {t}, rest - {t};
    }
  }

  function SyncCandidates(tasks: Tasks, now: Time): set<TaskId> {
    set t | t in tasks && SyncCandidate(tasks[t], now)
  }

  function PersistCandidates(tasks: Tasks, now: Time): set<TaskId> {
    set t | t in tasks && PersistCandidate(tasks[t], now)
  }

  ghost predicate AllRefreshed(before: seq<FastStep>, after: seq<FastStep>, ts: set<TaskId>) {
    forall t <- ts :: Refreshed(before, after, t)
  }

  lemma OneMoreRefreshed(a: seq<FastStep>, b: seq<FastStep>, c: seq<FastStep>, ts: set<TaskId>, t: TaskId)
    requires FastOnly(a, b, Syncs) && FastOnly(b, c, Syncs) && AllRefreshed(a, b, ts) && Refreshed(b, c, t)
    ensures FastOnly(a, c, Syncs) && AllRefreshed(a, c, ts + {t})
  {
    FastOnlyJoins(a, b, c, Syncs);
    SinceGrows(a, b, c);
    var f :| f in Since(b, c) && (f == SyncDefer(t) || (f.SyncApply? && f.t == t));
    assert f in Since(a, c);
    hide Since;
    forall u | u in ts
      ensures Refreshed(a, c, u)
    {
      var g :| g in Since(a, b) && (g == SyncDefer(u) || (g.SyncApply? && g.t == u));
      assert g in Since(a, c);
    }
  }

  lemma NoneRefreshed(done: seq<FastStep>, f: FastStep)
    requires FastPartOf(f).Syncs?
    ensures FastOnly(done, done + [f], Syncs) && AllRefreshed(done, done + [f], {})
  {
  }

  lemma LastSync(a: seq<FastStep>, b: seq<FastStep>, f: FastStep, ts: set<TaskId>)
    requires FastOnly(a, b, Syncs) && AllRefreshed(a, b, ts) && FastPartOf(f).Syncs?
    ensures FastOnly(a, b + [f], Syncs) && AllRefreshed(a, b + [f], ts)
  {
    OneFast(b, f);
    FastOnlyJoins(a, b, b + [f], Syncs);
    SinceGrows(a, b, b + [f]);
    hide Since;
    forall u | u in ts
      ensures Refreshed(a, b + [f], u)
    {
      var g :| g in Since(a, b) && (g == SyncDefer(u) || (g.SyncApply? && g.t == u));
      assert g in Since(a, b + [f]);
    }
  }

  /** `sync_dispatched_task_statuses`: up to the limit, each task that can be polled is: its worker's answer is
      applied, or it is put off. */
  method SyncDispatchedTaskStatuses(db: Deployment, limit: nat) returns (ghost listed: set<TaskId>)
    requires db.Valid() && db.Cur().fast.FastIdle?
    modifies db
    ensures db.Valid() && db.Cur().fast.FastIdle? && old(db.run) <= db.run
    ensures listed <= SyncCandidates(old(db.tasks), old(db.now)) && |listed| <= limit
    ensures |listed| == limit || listed == SyncCandidates(old(db.tasks), old(db.now))
    ensures FastOnly(old(db.fastDone), db.fastDone, Syncs) && AllRefreshed(old(db.fastDone), db.fastDone, listed)
  {
    hide Next, Behavior, FastOnly, AllRefreshed, Refreshed, SlowOnes, FastOnes;
    var candidates := SyncCandidates(db.tasks, db.now);
    var todo := UpTo(candidates, limit);
    listed := todo;
    assert forall t <- todo :: t in candidates;
    SyncListStep(db.c, db.Cur(), todo);
    hide SyncCandidates;
    ghost var done0 := db.fastDone;
    db.Record(Fast(SyncList(todo)));
    NoneRefreshed(done0, SyncList(todo));
    RefreshListed(db, todo, done0);
    DoneStep(db.c, db.Cur());
    LastSync(done0, db.fastDone, SyncDone, listed);
    db.Record(Fast(SyncDone));
  }

  /** The loop of `sync_dispatched_task_statuses`. */
  method RefreshListed(db: Deployment, listed: set<TaskId>, ghost done0: seq<FastStep>)
    requires db.Valid() && db.Cur().fast == Syncing(listed)
    requires FastOnly(done0, db.fastDone, Syncs) && AllRefreshed(done0, db.fastDone, {})
    modifies db
    ensures db.Valid() && db.Cur().fast == Syncing({}) && old(db.run) <= db.run
    ensures FastOnly(done0, db.fastDone, Syncs) && AllRefreshed(done0, db.fastDone, listed)
  {
    hide Next, Behavior, FastOnly, AllRefreshed, Refreshed, Polled, SlowOnes, FastOnes;
    var todo := listed;
    assert listed - todo == {};
    while todo != {}
      invariant db.Valid() && db.Cur().fast == Syncing(todo) && old(db.run) <= db.run && todo <= listed
      invariant FastOnly(done0, db.fastDone, Syncs) && AllRefreshed(done0, db.fastDone, listed - todo)
      decreases |todo|
    {
      ghost var x := Pick(todo);
      assert x in todo;
      var t :| t in todo;
      var answer: Option<Report> := *;
      ghost var done1 := db.fastDone;
      RefreshTaskFromUpstream(db, t, answer);
      OneMoreRefreshed(done0, done1, db.fastDone, listed - todo, t);
      assert listed - todo + {t} == listed - (todo - {t});
      todo := todo - {t};
    }
    assert listed - todo == listed;
  }

  ghost predicate AllDealt(before: seq<FastStep>, after: seq<FastStep>, kept: set<TaskId>, putOff: set<TaskId>) {
    (forall t <- kept :: Dealt(before, after, t, true)) && (forall t <- putOff :: Dealt(before, after, t, false))
  }

  lemma DealtGrows(a: seq<FastStep>, b: seq<FastStep>, c: seq<FastStep>, kept: set<TaskId>, putOff: set<TaskId>)
    requires FastOnly(a, b, Persists) && FastOnly(b, c, Persists) && AllDealt(a, b, kept, putOff)
    ensures FastOnly(a, c, Persists) && AllDealt(a, c, kept, putOff)
    ensures forall t, stored :: Dealt(b, c, t, stored) ==> Dealt(a, c, t, stored)
  {
    FastOnlyJoins(a, b, c, Persists);
    SinceGrows(a, b, c);
    hide Since;
  }

  lemma NoneDealt(done: seq<FastStep>, f: FastStep)
    requires FastPartOf(f).Persists?
    ensures FastOnly(done, done + [f], Persists) && AllDealt(done, done + [f], {}, {})
  {
  }

  /** The tasks of the list that are dealt with are stored or put off, and counted. */
  ghost predicate Tallied(listed: set<TaskId>, todo: set<TaskId>, kept: set<TaskId>, putOff: set<TaskId>) {
    todo <= listed && kept !! putOff && kept + putOff == listed - todo
  }

  lemma OneMoreTallied(listed: set<TaskId>, todo: set<TaskId>, kept: set<TaskId>, putOff: set<TaskId>, t: TaskId)
    requires Tallied(listed, todo, kept, putOff) && t in todo
    ensures Tallied(listed, todo - {t}, kept + {t}, putOff) && Tallied(listed, todo - {t}, kept, putOff + {t})
    ensures |kept + {t}| == |kept| + 1 && |putOff + {t}| == |putOff| + 1
  {
  }

  /** `list_unstored_completed` and `persist_pending_results`: up to the limit, each task that waits for its
      result has it stored, or is put off. */
  method PersistPendingResults(db: Deployment, limit: nat)
    returns (stored: nat, failed: nat, ghost kept: set<TaskId>, ghost putOff: set<TaskId>)
    requires db.Valid() && db.Cur().fast.FastIdle?
    modifies db
    ensures db.Valid() && db.Cur().fast.FastIdle? && old(db.run) <= db.run
    ensures stored == |kept| && failed == |putOff| && kept !! putOff
    ensures var candidates, listed := PersistCandidates(old(db.tasks), old(db.now)), kept + putOff;
            listed <= candidates && |listed| <= limit && (|listed| == limit || listed == candidates)
    ensures FastOnly(old(db.fastDone), db.fastDone, Persists)
    ensures AllDealt(old(db.fastDone), db.fastDone, kept, putOff)
  {
    hide Next, Behavior, FastOnly, AllDealt, Dealt, SlowOnes, FastOnes;
    var candidates := PersistCandidates(db.tasks, db.now);
    var todo := UpTo(candidates, limit);
    assert forall t <- todo :: t in candidates;
    PersistListStep(db.c, db.Cur(), todo);
    hide PersistCandidates;
    ghost var done0 := db.fastDone;
    db.Record(Fast(PersistList(todo)));
    NoneDealt(done0, PersistList(todo));
    stored, failed, kept, putOff := StoreListed(db, todo, done0);
    DoneStep(db.c, db.Cur());
    OneFast(db.fastDone, PersistDone);
    DealtGrows(done0, db.fastDone, db.fastDone + [PersistDone], kept, putOff);
    db.Record(Fast(PersistDone));
  }

  /** The loop of `persist_pending_results`. */
  method StoreListed(db: Deployment, listed: set<TaskId>, ghost done0: seq<FastStep>)
    returns (stored: nat, failed: nat, ghost kept: set<TaskId>, ghost putOff: set<TaskId>)
    requires db.Valid() && db.Cur().fast.Persisting? && db.Cur().fast.toPersist.Keys == listed
    requires forall t <- listed :: db.Cur().fast.toPersist[t].ToFetch?
    requires FastOnly(done0, db.fastDone, Persists) && AllDealt(done0, db.fastDone, {}, {})
    modifies db
    ensures db.Valid() && db.Cur().fast.Persisting? && old(db.run) <= db.run
    ensures stored == |kept| && failed == |putOff| && kept !! putOff && kept + putOff == listed
    ensures FastOnly(done0, db.fastDone, Persists) && AllDealt(done0, db.fastDone, kept, putOff)
  {
    hide Next, Behavior, FastOnly, AllDealt, Dealt, Tallied, SlowOnes, FastOnes;
    var todo := listed;
    stored, failed, kept, putOff := 0, 0, {}, {};
    NoneTallied(listed);
    while todo != {}
      invariant db.Valid() && db.Cur().fast.Persisting? && db.Cur().fast.toPersist.Keys == todo
      invariant forall t <- todo :: db.Cur().fast.toPersist[t].ToFetch?
      invariant stored == |kept| && failed == |putOff| && Tallied(listed, todo, kept, putOff) && old(db.run) <= db.run
      invariant FastOnly(done0, db.fastDone, Persists) && AllDealt(done0, db.fastDone, kept, putOff)
      decreases |todo|
    {
      ghost var x := Pick(todo);
      assert x in todo;
      var t :| t in todo;
      ghost var done1 := db.fastDone;
      var ok := FetchAndStoreResult(db, t);
      DealtGrows(done0, done1, db.fastDone, kept, putOff);
      OneMoreDealt(done0, db.fastDone, kept, putOff, t, ok);
      OneMoreTallied(listed, todo, kept, putOff, t);
      todo := todo - {t};
      if ok {
        stored, kept := stored + 1, kept + {t};
      } else {
        failed, putOff := failed + 1, putOff + {t};
      }
    }
    AllTallied(listed, kept, putOff);
  }

  lemma OneMoreDealt(a: seq<FastStep>, c: seq<FastStep>, kept: set<TaskId>, putOff: set<TaskId>, t: TaskId,
        stored: bool)
    requires AllDealt(a, c, kept, putOff) && Dealt(a, c, t, stored)
    ensures if stored then AllDealt(a, c, kept + {t}, putOff) else AllDealt(a, c, kept, putOff + {t})
  {
    hide Dealt;
  }

  lemma NoneTallied(listed: set<TaskId>)
    ensures Tallied(listed, listed, {}, {})
  {
  }

  lemma AllTallied(listed: set<TaskId>, kept: set<TaskId>, putOff: set<TaskId>)
    requires Tallied(listed, {}, kept, putOff)
    ensures kept !! putOff && kept + putOff == listed
  {
  }
}
