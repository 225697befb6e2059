/** The two loops of the scheduler (scheduler/scheduler.py): each tick is a stretch of the protocol's run,
    from idle to idle, whatever the other components do in between. */
module Ticks {
  import opened Wrappers
  import opened Rows
  import opened Scaling
  import opened Protocol
  import opened WorkerTheorems
  import opened Database
  import opened Scheduler
  import Fleet
  import Rotation
  import Retention
  import Reconcile
  import Results
  import TaskRepository
  import Vms

  const HEALTH_BATCH: nat := 32
  const CLEANUP_BATCH: nat := 100
  const MAX_PER_TICK: nat := 32

  /** The log has grown by a fast tick: its parts follow each other in their order. */
  ghost predicate FastParts(before: seq<FastStep>, after: seq<FastStep>) {
    exists synced, stored, dispatched ::
      && after == before + [RecoverStaleClaims] + synced + stored + dispatched
      && AllOf(synced, Syncs) && AllOf(stored, Persists) && AllOf(dispatched, Dispatches)
  }

  predicate AllOf(fs: seq<FastStep>, part: FastPart) {
    forall f <- fs :: FastPartOf(f) == part
  }

  lemma PartOfLog(before: seq<FastStep>, after: seq<FastStep>, part: FastPart)
    requires FastOnly(before, after, part)
    ensures after == before + Since(before, after) && AllOf(Since(before, after), part)
  {
  }

  lemma PartsOfLog(before: seq<FastStep>, a: seq<FastStep>, b: seq<FastStep>, c: seq<FastStep>, d: seq<FastStep>)
    requires a == before + [RecoverStaleClaims]
    requires FastOnly(a, b, Syncs) && FastOnly(b, c, Persists) && FastOnly(c, d, Dispatches)
    ensures FastParts(before, d)
  {
    PartOfLog(a, b, Syncs);
    PartOfLog(b, c, Persists);
    PartOfLog(c, d, Dispatches);
    hide FastOnly, AllOf, Since;
    assert d == before + [RecoverStaleClaims] + Since(a, b) + Since(b, c) + Since(c, d);
  }

  /** The parts of a slow tick, in their order. */
  function Place(part: SlowPart): nat {
    match part
    case Reconciles => 0
    case Converges => 1
    case Probes => 2
    case Scales => 3
    case Rotates => 4
    case Retires => 5
    case Finalizes => 6
    case Begins => 7
    case Cleans => 8
    case Aborts => 9
  }

  /** The log has grown by steps of the given parts, in the order of the parts. */
  ghost predicate Ordered(before: seq<SlowStep>, after: seq<SlowStep>, first: nat, last: nat) {
    && before <= after
    && (forall k | |before| <= k < |after| :: first <= Place(SlowPartOf(after[k])) <= last)
    && forall j, k | |before| <= j < k < |after| :: Place(SlowPartOf(after[j])) <= Place(SlowPartOf(after[k]))
  }

  lemma StartsOrdered(done: seq<SlowStep>, first: nat)
    ensures Ordered(done, done, first, first)
  {
  }

  lemma OrderedJoins(a: seq<SlowStep>, b: seq<SlowStep>, c: seq<SlowStep>, i: nat, j: nat, k: nat, l: nat)
    requires i <= j <= k <= l && Ordered(a, b, i, j) && Ordered(b, c, k, l)
    ensures Ordered(a, c, i, l)
  {
    hide SlowPartOf;
    forall m | |a| <= m < |c|
      ensures i <= Place(SlowPartOf(c[m])) <= l && (m < |b| ==> Place(SlowPartOf(c[m])) <= j)
    {
      if m < |b| {
        assert c[m] == b[m];
      }
    }
    forall m, n | |a| <= m < n < |c|
      ensures Place(SlowPartOf(c[m])) <= Place(SlowPartOf(c[n]))
    {
      if n < |b| {
        assert c[m] == b[m] && c[n] == b[n];
      }
    }
  }

  /** The next part of the tick. */
  lemma GoesOn(a: seq<SlowStep>, b: seq<SlowStep>, c: seq<SlowStep>, first: nat, part: SlowPart)
    requires SlowOnly(b, c, part) && first <= Place(part)
    requires Ordered(a, b, first, if first < Place(part) then Place(part) - 1 else first)
    ensures Ordered(a, c, first, Place(part))
  {
    hide SlowPartOf;
    var n := if first < Place(part) then Place(part) - 1 else first;
    assert Ordered(b, c, Place(part), Place(part));
    OrderedJoins(a, b, c, first, n, Place(part), Place(part));
  }

  lemma ProbesOnly(done: seq<SlowStep>, batch: set<WorkerId>, ok: set<WorkerId>)
    ensures SlowOnly(done, done + [HealthSkip], Probes)
    ensures SlowOnly(done, done + [HealthList(batch), HealthApply(ok)], Probes)
  {
    SomeSlow(done, [HealthSkip], Probes);
    SomeSlow(done, [HealthList(batch), HealthApply(ok)], Probes);
  }

  lemma ScalesOnly(signal: Signal, before: seq<SlowStep>, after: seq<SlowStep>)
    requires Fleet.TurnFor(signal, before, after)
    ensures SlowOnly(before, after, Scales)
  {
  }

  class Ticker {
    const db: Deployment
    const tasks: TaskRepository.Repository
    const autoscaler: Fleet.Autoscaler
    var nextRotationCheckAt: Option<Time>
    var nextCleanupAt: Option<Time>
    const cleanupInterval: nat

    constructor (db: Deployment, cleanupInterval: nat)
      ensures this.db == db && this.cleanupInterval == cleanupInterval && tasks.db == db && autoscaler.db == db
      ensures fresh(tasks) && fresh(autoscaler)
      ensures nextRotationCheckAt.None? && nextCleanupAt.None?
    {
      this.db := db;
      this.cleanupInterval := cleanupInterval;
      tasks := new TaskRepository.Repository(db);
      autoscaler := new Fleet.Autoscaler(db);
      nextRotationCheckAt, nextCleanupAt := None, None;
    }

    /** `_fast_tick`: first stale claims go back to the queue, then tasks are polled, then results stored, and
        then queued tasks dispatched; an exception ends the tick, which can be only the dispatch. */
    method FastTick() returns (raised: bool)
      requires tasks.db == db && db.Valid() && db.Cur().fast.FastIdle?
      modifies db, tasks
      ensures db.Valid() && old(db.run) <= db.run && db.Cur().fast.FastIdle?
      ensures FastParts(old(db.fastDone), db.fastDone)
    {
      hide Next, Behavior, SlowOnes, FastOnes, FastOnly, StaleClaim;
      hide Results.AllRefreshed, Results.AllDealt, Results.SyncCandidates, Results.PersistCandidates;
      ghost var done := db.fastDone;
      var _ := tasks.RecoverStaleDispatchClaims();
      ghost var done0 := db.fastDone;
      ghost var _ := Results.SyncDispatchedTaskStatuses(db, HEALTH_BATCH);
      ghost var done1 := db.fastDone;
      var _, _, _, _ := Results.PersistPendingResults(db, HEALTH_BATCH);
      ghost var done2 := db.fastDone;
      // The workers that exist before the dispatch ends: some finite set.
      ghost var universe :| db.workers.Keys <= universe;
      var _, r := tasks.DispatchQueuedTasks(MAX_PER_TICK, universe);
      raised := r;
      PartsOfLog(done, done0, done1, done2, db.fastDone);
    }

    /** `_advance_drains_and_rotations`: rotations, drains, terminations, and then, when the check is due, a
        new rotation, in this order; the next check is an interval after this one. */
    method AdvanceDrainsAndRotations() returns (checked: bool, ghost now: Time)
      requires db.Valid() && db.Cur().slow.Scaled?
      modifies db, this
      ensures db.Valid() && old(db.run) <= db.run && db.Cur().slow.CleanupCheck?
      ensures Rotation.SeenAt(db.run, |old(db.run)| - 1, now)
      ensures checked <==> old(nextRotationCheckAt).None? || now >= old(nextRotationCheckAt).value
      ensures nextRotationCheckAt == if checked then Some(now + db.c.rotationInterval) else old(nextRotationCheckAt)
      ensures !checked ==> db.slowDone != [] && Last(db.slowDone) == RotationNone
      ensures nextCleanupAt == old(nextCleanupAt)
      ensures Ordered(old(db.slowDone), db.slowDone, 4, 7)
    {
      hide Next, Behavior, SlowOnes, FastOnes, SlowOnly, Ordered, Rotation.SeenAt, Rotation.AllRotated;
      hide AllLooked, AllFinalized;
      ghost var done0, i := db.slowDone, |db.run| - 1;
      StartsOrdered(done0, 4);
      Rotation.ProgressRotations(db);
      ghost var done1 := db.slowDone;
      GoesOn(done0, done0, done1, 4, Rotates);
      AdvanceDrains(db);
      ghost var done2 := db.slowDone;
      GoesOn(done0, done1, done2, 4, Retires);
      FinalizeTerminations(db);
      ghost var done3 := db.slowDone;
      GoesOn(done0, done2, done3, 4, Finalizes);
      var time := db.now;
      now := time;
      ghost var run1 := db.run;
      Rotation.NowAt(run1, i);
      checked := nextRotationCheckAt.None? || time >= nextRotationCheckAt.value;
      if checked {
        nextRotationCheckAt := Some(time + db.c.rotationInterval);
      }
      BeginRotation(db, checked);
      GoesOn(done0, done3, db.slowDone, 4, Begins);
      Rotation.StillAt(run1, db.run, i, now);
    }

    /** `_cleanup_if_due`: retention exactly when the cleanup is due; the cache sweep that follows is in the
        cache's own model. */
    method CleanupIfDue() returns (cleaned: bool, ghost listed: set<TaskId>)
      requires db.Valid() && db.Cur().slow.CleanupCheck?
      modifies db, this
      ensures db.Valid() && old(db.run) <= db.run && db.Cur().slow.SlowIdle?
      ensures cleaned <==> old(nextCleanupAt).None? || old(db.now) >= old(nextCleanupAt).value
      ensures nextCleanupAt == if cleaned then Some(old(db.now) + cleanupInterval) else old(nextCleanupAt)
      ensures nextRotationCheckAt == old(nextRotationCheckAt)
      ensures !cleaned ==> db.slowDone == old(db.slowDone) + [CleanupDone] && db.tasks == old(db.tasks)
      ensures cleaned ==> Retention.AllCleaned(old(db.slowDone), db.slowDone, listed)
      ensures cleaned ==>
                var expired := Retention.ExpiredTasks(old(db.tasks), old(db.now) - db.c.retention);
                listed <= expired && (|listed| == CLEANUP_BATCH || listed == expired)
      ensures SlowOnly(old(db.slowDone), db.slowDone, Cleans)
    {
      hide Next, Behavior, SlowOnes, FastOnes, SlowOnly, Retention.AllCleaned, Retention.ExpiredTasks;
      ghost var done := db.slowDone;
      var now := db.now;
      listed := {};
      if nextCleanupAt.Some? && now < nextCleanupAt.value {
        Retention.SkipCleanup(db);
        SomeSlow(done, [CleanupDone], Cleans);
        return false, {};
      }
      nextCleanupAt := Some(now + cleanupInterval);
      listed := Retention.CleanupExpiredTasks(db, CLEANUP_BATCH);
      cleaned := true;
    }

    /** `_slow_tick`: reconciliation, the stalled workers, health, the autoscaler, rotations, drains,
        terminations, new rotations and retention, in this order. */
    method SlowTick()
      requires autoscaler.db == db && db.Valid() && db.Cur().slow.SlowIdle?
      modifies db, this, autoscaler
      ensures db.Valid() && old(db.run) <= db.run && db.Cur().slow.SlowIdle?
      ensures Ordered(old(db.slowDone), db.slowDone, 0, 8)
    {
      hide Next, Behavior, SlowOnes, FastOnes, SlowOnly, Ordered, Reconcile.AllHandled, ConvergePass, HealthCandidates;
      hide AllProbed, Fleet.CountedAt, Fleet.EndsDecision, Fleet.TurnFor, LiveWorkers, Rotation.SeenAt;
      hide Retention.AllCleaned, Retention.ExpiredTasks, Vms.Duplicates, Vms.Orphans;
      ghost var done0 := db.slowDone;
      StartsOrdered(done0, 0);
      var _, _, _, _ := Reconcile.ReconcileWorkers(db);
      ghost var done1 := db.slowDone;
      GoesOn(done0, done0, done1, 0, Reconciles);
      ConvergeStalledWorkers(db);
      ghost var done2 := db.slowDone;
      GoesOn(done0, done1, done2, 0, Converges);
      var batch, ok := RefreshWorkerHealth(db);
      ghost var done3 := db.slowDone;
      ProbesOnly(done2, batch, ok);
      GoesOn(done0, done2, done3, 0, Probes);
      var signal, _ := autoscaler.ApplyAutoscaling();
      ghost var done4 := db.slowDone;
      ScalesOnly(signal, done3, done4);
      GoesOn(done0, done3, done4, 0, Scales);
      var _, _ := AdvanceDrainsAndRotations();
      ghost var done5 := db.slowDone;
      OrderedJoins(done0, done4, done5, 0, 3, 4, 7);
      var _, _ := CleanupIfDue();
      GoesOn(done0, done5, db.slowDone, 0, Cleans);
    }
  }

  /** `_start_new_rotations`, when it is due. */
  method BeginRotation(db: Deployment, due: bool)
    requires db.Valid() && db.Cur().slow.RotationCheck?
    modifies db
    ensures db.Valid() && old(db.run) <= db.run && db.Cur().slow.CleanupCheck?
    ensures SlowOnly(old(db.slowDone), db.slowDone, Begins)
    ensures !due ==> db.slowDone == old(db.slowDone) + [RotationNone]
  {
    hide Next, Behavior, SlowOnes, FastOnes, ActiveReplacements, LiveWorkers, Rotation.IsTarget, SlowOnly;
    ghost var done := db.slowDone;
    SomeSlow(done, [RotationNone], Begins);
    if due {
      var started, _, _, _ := Rotation.StartNewRotations(db);
      if started.Some? {
        SomeSlow(done, [RotationBegin(started.value.0), RotationCommit(started.value.1)], Begins);
      }
    } else {
      Rotation.NoRotation(db);
    }
  }
}
