/** Deletion of expired tasks (scheduler/scheduler.py, _cleanup_expired_tasks), as a method of the slow loop. */
module Retention {
  import opened Wrappers
  import opened Rows
  import opened Protocol
  import opened Database
  import opened Interleaving
  import opened Scheduler
  import Results

  /** What the loop holds: the rows it listed, as they were. */
  function Listed(tasks: Tasks, ts: set<TaskId>): map<TaskId, (Task, CleanStage)> {
    map t | t in ts && t in tasks :: (tasks[t], PayloadLeft)
  }

  lemma CleanupListSteps(c: Config, s: State, ts: set<TaskId>)
    requires s.slow.CleanupCheck?
    ensures Next(c, s, Slow(CleanupDone)) == Some(s.(slow := SlowIdle))
    ensures (forall t <- ts :: t in s.tasks && PastRetention(s.tasks[t], s.now - c.retention)) ==>
              Next(c, s, Slow(CleanupList(ts))) == Some(s.(slow := Cleaning(Listed(s.tasks, ts), s.now - c.retention)))
    ensures forall t <- Listed(s.tasks, ts) :: Listed(s.tasks, ts)[t].1.PayloadLeft?
  {
    hide PastRetention, FastNext, GatewayNext, AdminNext, ReconcileNext, VisitNext;
    hide ConvergeNext, DrainNext, RotateNext, RotationNext, ScaleNext, Select, Finalized;
  }

  lemma CleanStep(c: Config, s: State, l: SlowStep)
    requires s.slow.Cleaning? && !l.SlowAbort?
    ensures Next(c, s, Slow(l)) == CleanNext(c, s, l)
  {
    hide CleanNext;
  }

  lemma CleanEnds(c: Config, s: State, t: TaskId)
    requires s.slow.Cleaning? && t in s.slow.toClean
    ensures var Cleaning(todo, cutoff) := s.slow;
            && CleanNext(c, s, CleanSkip(t)) == Some(s.(slow := Cleaning(todo - {t}, cutoff)))
            && (todo[t].1.RowLeft? ==>
                  CleanNext(c, s, CleanRow(t))
                  == Some(s.(tasks := s.tasks - {t}, slow := Cleaning(todo - {t}, cutoff))))
  {
  }

  lemma CleanObjects(c: Config, s: State, t: TaskId)
    requires s.slow.Cleaning? && t in s.slow.toClean
    ensures var Cleaning(todo, cutoff) := s.slow;
            var (row, stage) := todo[t];
            && (stage.PayloadLeft? ==>
                  CleanNext(c, s, CleanPayload(t))
                  == Some(s.(store := WithoutObject(s.store, row.payloadKey),
                             slow := Cleaning(todo[t := (row, ResultLeft)], cutoff))))
            && (stage.ResultLeft? ==>
                  CleanNext(c, s, CleanResult(t))
                  == Some(s.(store := WithoutObject(s.store, row.resultKey),
                             slow := Cleaning(todo[t := (row, RowLeft)], cutoff))))
  {
  }

  lemma CleanDoneStep(c: Config, s: State)
    requires s.slow.Cleaning? && s.slow.toClean == map[]
    ensures Next(c, s, Slow(CleanupDone)) == Some(s.(slow := SlowIdle))
  {
  }

  /** `safe_delete`, when it succeeds. */
  function WithoutObject(store: map<ObjKey, Bytes>, key: Option<ObjKey>): map<ObjKey, Bytes> {
    if key.Some? then store - {key.value} else store
  }

  lemma UpdatedThenGone(todo: map<TaskId, (Task, CleanStage)>, t: TaskId, e: (Task, CleanStage))
    ensures todo[t := e] - {t} == todo - {t}
  {
  }

  function DeletionLog(t: TaskId, payloadGone: bool, resultGone: bool): seq<SlowStep> {
    if !payloadGone then [CleanSkip(t)]
    else if !resultGone then [CleanPayload(t), CleanSkip(t)]
    else [CleanPayload(t), CleanResult(t), CleanRow(t)]
  }

  /** One expired task: its payload object, its result object, and only then its row; a failed deletion
      leaves the row for a later cleanup. */
  method DeleteTask(db: Deployment, ghost todo: map<TaskId, (Task, CleanStage)>, cutoff: Time, t: TaskId, row: Task,
                    payloadGone: bool, resultGone: bool)
    requires db.Valid() && db.Cur().slow == Cleaning(todo, cutoff) && t in todo && todo[t] == (row, PayloadLeft)
    modifies db
    ensures db.Valid() && old(db.run) <= db.run && db.Cur().slow == Cleaning(todo - {t}, cutoff)
    ensures payloadGone && resultGone ==> t !in db.tasks
    ensures db.slowDone == old(db.slowDone) + DeletionLog(t, payloadGone, resultGone)
  {
    hide Next, Behavior, WorkersRest, CleanNext, WithoutObject, SlowOnes, FastOnes;
    UpdatedThenGone(todo, t, (row, ResultLeft));
    Rest(db);
    CleanEnds(db.c, db.Cur(), t);
    CleanObjects(db.c, db.Cur(), t);
    CleanStep(db.c, db.Cur(), if payloadGone then CleanPayload(t) else CleanSkip(t));
    if !payloadGone {
      db.Record(Slow(CleanSkip(t)));
      return;
    }
    db.store := WithoutObject(db.store, row.payloadKey);
    db.Record(Slow(CleanPayload(t)));
    DeleteRest(db, todo[t := (row, ResultLeft)], cutoff, t, row, resultGone);
  }

  method DeleteRest(db: Deployment, ghost todo: map<TaskId, (Task, CleanStage)>, cutoff: Time, t: TaskId, row: Task,
                    resultGone: bool)
    requires db.Valid() && db.Cur().slow == Cleaning(todo, cutoff) && t in todo && todo[t] == (row, ResultLeft)
    modifies db
    ensures db.Valid() && old(db.run) <= db.run && db.Cur().slow == Cleaning(todo - {t}, cutoff)
    ensures resultGone ==> t !in db.tasks
    ensures db.slowDone == old(db.slowDone) + if resultGone then [CleanResult(t), CleanRow(t)] else [CleanSkip(t)]
  {
    hide Next, Behavior, WorkersRest, CleanNext, WithoutObject, SlowOnes, FastOnes;
    UpdatedThenGone(todo, t, (row, RowLeft));
    Rest(db);
    if !resultGone {
      CleanEnds(db.c, db.Cur(), t);
      CleanStep(db.c, db.Cur(), CleanSkip(t));
      db.Record(Slow(CleanSkip(t)));
      return;
    }
    CleanObjects(db.c, db.Cur(), t);
    CleanStep(db.c, db.Cur(), CleanResult(t));
    db.store := WithoutObject(db.store, row.resultKey);
    db.Record(Slow(CleanResult(t)));
    DeleteRow(db, todo[t := (row, RowLeft)], cutoff, t);
  }

  /** `delete_task`. */
  method DeleteRow(db: Deployment, ghost todo: map<TaskId, (Task, CleanStage)>, cutoff: Time, t: TaskId)
    requires db.Valid() && db.Cur().slow == Cleaning(todo, cutoff) && t in todo && todo[t].1.RowLeft?
    modifies db
    ensures db.Valid() && old(db.run) <= db.run && db.Cur().slow == Cleaning(todo - {t}, cutoff)
    ensures t !in db.tasks && db.slowDone == old(db.slowDone) + [CleanRow(t)]
  {
    hide Next, Behavior, WorkersRest, CleanNext, SlowOnes, FastOnes;
    Rest(db);
    CleanEnds(db.c, db.Cur(), t);
    CleanStep(db.c, db.Cur(), CleanRow(t));
    db.tasks := db.tasks - {t};
    db.Record(Slow(CleanRow(t)));
  }

  /** A tick in which no cleanup is due. */
  method SkipCleanup(db: Deployment)
    requires db.Valid() && db.Cur().slow.CleanupCheck?
    modifies db
    ensures db.Valid() && old(db.run) <= db.run && db.Cur().slow.SlowIdle? && db.tasks == old(db.tasks)
    ensures db.slowDone == old(db.slowDone) + [CleanupDone]
  {
    hide Next, Behavior, SlowOnes, FastOnes;
    CleanupListSteps(db.c, db.Cur(), {});
    db.Record(Slow(CleanupDone));
  }

  /** The log says that the row of the expired task is gone, or that an object of it could not be deleted and
      the row is kept. */
  ghost predicate Cleaned(before: seq<SlowStep>, after: seq<SlowStep>, t: TaskId) {
    CleanRow(t) in Since(before, after) || CleanSkip(t) in Since(before, after)
  }

  ghost predicate AllCleaned(before: seq<SlowStep>, after: seq<SlowStep>, ts: set<TaskId>) {
    forall t <- ts :: Cleaned(before, after, t)
  }

  lemma DeletionOnly(done: seq<SlowStep>, t: TaskId, payloadGone: bool, resultGone: bool)
    ensures var after := done + DeletionLog(t, payloadGone, resultGone);
            SlowOnly(done, after, Cleans) && Cleaned(done, after, t)
  {
    var ls := DeletionLog(t, payloadGone, resultGone);
    SomeSlow(done, ls, Cleans);
    assert Since(done, done + ls) == ls && ls[|ls| - 1] in ls;
  }

  lemma OneMoreCleaned(a: seq<SlowStep>, b: seq<SlowStep>, c: seq<SlowStep>, ts: set<TaskId>, t: TaskId)
    requires SlowOnly(a, b, Cleans) && SlowOnly(b, c, Cleans) && AllCleaned(a, b, ts) && Cleaned(b, c, t)
    ensures SlowOnly(a, c, Cleans) && AllCleaned(a, c, ts + {t})
  {
    hide SlowPartOf;
    SlowOnlyJoins(a, b, c, Cleans);
    SinceGrows(a, b, c);
    hide Since;
  }

  lemma NoneCleaned(done: seq<SlowStep>, ts: set<TaskId>)
    ensures SlowOnly(done, done + [CleanupList(ts)], Cleans) && AllCleaned(done, done + [CleanupList(ts)], {})
  {
  }

  lemma CleaningEnds(a: seq<SlowStep>, b: seq<SlowStep>, ts: set<TaskId>)
    requires SlowOnly(a, b, Cleans) && AllCleaned(a, b, ts)
    ensures SlowOnly(a, b + [CleanupDone], Cleans) && AllCleaned(a, b + [CleanupDone], ts)
  {
    SomeSlow(b, [CleanupDone], Cleans);
    hide SlowPartOf;
    SlowOnlyJoins(a, b, b + [CleanupDone], Cleans);
    SinceGrows(a, b, b + [CleanupDone]);
    hide Since;
  }

  /** The tasks that retention may delete. */
  function ExpiredTasks(tasks: Tasks, cutoff: Time): set<TaskId> {
    set t | t in tasks && PastRetention(tasks[t], cutoff)
  }

  /** `_cleanup_expired_tasks`: up to the limit, each finished task past the cutoff is deleted, or kept because
      an object of it could not be. */
  method CleanupExpiredTasks(db: Deployment, limit: nat) returns (ghost listed: set<TaskId>)
    requires db.Valid() && db.Cur().slow.CleanupCheck?
    modifies db
    ensures db.Valid() && old(db.run) <= db.run && db.Cur().slow.SlowIdle?
    ensures var expired := ExpiredTasks(old(db.tasks), old(db.now) - db.c.retention);
            listed <= expired && |listed| <= limit && (|listed| == limit || listed == expired)
    ensures SlowOnly(old(db.slowDone), db.slowDone, Cleans) && AllCleaned(old(db.slowDone), db.slowDone, listed)
  {
    hide Next, Behavior, PastRetention, Listed, SlowOnes, FastOnes, SlowOnly, AllCleaned;
    ghost var done0 := db.slowDone;
    var cutoff := db.now - db.c.retention;
    var expired := ExpiredTasks(db.tasks, cutoff);
    var batch := Results.UpTo(expired, limit);
    listed := batch;
    assert forall t <- batch :: t in expired;
    CleanupListSteps(db.c, db.Cur(), batch);
    var todo := Listed(db.tasks, batch);
    ListedAre(db.tasks, batch);
    hide ExpiredTasks;
    db.Record(Slow(CleanupList(batch)));
    NoneCleaned(done0, batch);
    DeleteListed(db, todo, cutoff, done0);
    CleanDoneStep(db.c, db.Cur());
    CleaningEnds(done0, db.slowDone, batch);
    db.Record(Slow(CleanupDone));
  }

  lemma ListedAre(tasks: Tasks, ts: set<TaskId>)
    requires forall t <- ts :: t in tasks
    ensures Listed(tasks, ts).Keys == ts
  {
  }

  /** Of the tasks that were listed, those already seen to. */
  ghost function DoneWith(
      listed: map<TaskId, (Task, CleanStage)>, todo: map<TaskId, (Task, CleanStage)>): set<TaskId>
  {
    listed.Keys - todo.Keys
  }

  lemma OneMoreDone(listed: map<TaskId, (Task, CleanStage)>, todo: map<TaskId, (Task, CleanStage)>, t: TaskId)
    requires t in todo && t in listed
    ensures DoneWith(listed, todo - {t}) == DoneWith(listed, todo) + {t} && |todo - {t}| < |todo|
    ensures forall u <- todo - {t} :: u in todo && (todo - {t})[u] == todo[u]
  {
  }

  lemma NoneDone(listed: map<TaskId, (Task, CleanStage)>)
    ensures DoneWith(listed, listed) == {} && DoneWith(listed, map[]) == listed.Keys
  {
  }

  /** The loop of `_cleanup_expired_tasks`. */
  method DeleteListed(
      db: Deployment, listed: map<TaskId, (Task, CleanStage)>, cutoff: Time, ghost done0: seq<SlowStep>)
    requires db.Valid() && db.Cur().slow == Cleaning(listed, cutoff)
    requires forall t <- listed :: listed[t].1.PayloadLeft?
    requires SlowOnly(done0, db.slowDone, Cleans) && AllCleaned(done0, db.slowDone, {})
    modifies db
    ensures db.Valid() && old(db.run) <= db.run && db.Cur().slow == Cleaning(map[], cutoff)
    ensures SlowOnly(done0, db.slowDone, Cleans) && AllCleaned(done0, db.slowDone, listed.Keys)
  {
    hide Next, Behavior, SlowOnes, FastOnes, SlowOnly, AllCleaned, Cleaned, DoneWith, DeletionLog;
    var todo := listed;
    NoneDone(listed);
    while todo != map[]
      invariant db.Valid() && old(db.run) <= db.run && db.Cur().slow == Cleaning(todo, cutoff)
      invariant forall t <- todo :: t in listed && todo[t].1.PayloadLeft?
      invariant SlowOnly(done0, db.slowDone, Cleans) && AllCleaned(done0, db.slowDone, DoneWith(listed, todo))
      decreases |todo|
    {
      var t := PickTask(todo);
      var payloadGone: bool, resultGone: bool := *, *;
      ghost var done1 := db.slowDone;
      DeleteTask(db, todo, cutoff, t, todo[t].0, payloadGone, resultGone);
      DeletionOnly(done1, t, payloadGone, resultGone);
      OneMoreCleaned(done0, done1, db.slowDone, DoneWith(listed, todo), t);
      OneMoreDone(listed, todo, t);
      todo := todo - {t};
    }
  }

  method PickTask(todo: map<TaskId, (Task, CleanStage)>) returns (t: TaskId)
    requires todo != map[]
    ensures t in todo
  {
    assert todo.Keys != {};
    ghost var x := Pick(todo.Keys);
    assert x in todo;
    t :| t in todo;
  }
}
