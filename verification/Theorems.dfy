/** What holds over whole runs of the deployment. */
module Theorems {
  import opened Wrappers
  import opened Status
  import opened Rows
  import opened Selection
  import opened Protocol
  import opened Invariant
  import opened WorkerProofs
  import opened TaskProofs
  import Payload

  // ---------- the invariant is inductive ----------

  lemma SlowKeeps(c: Config, s: State, l: SlowStep, s': State)
    requires Inv(c, s) && SlowNext(c, s, l) == Some(s')
    ensures Inv(c, s')
  {
    hide Inv, ReconcileNext, VisitNext, ConvergeNext, ScaleNext, RotateNext, DrainNext, RotationNext, CleanNext;
    if l.SlowAbort? {
      SlowPcKeeps(c, s, SlowIdle);
    } else {
      match s.slow
      case SlowIdle => ReconcileKeeps(c, s, l, s');
      case Reconciling(_, _) => if l.Rebind? { RebindKeeps(c, s, l, s'); } else { ReconcileKeeps(c, s, l, s'); }
      case Visiting(_, _, _, _) => VisitKeeps(c, s, l, s');
      case Converging(_, _) => ConvergeMoveKeeps(c, s, l, s');
      case ConvergeAt(_, _, _, _, _) => ConvergeWriteKeeps(c, s, l, s');
      case Converged => HealthListKeeps(c, s, l, s');
      case Probing(_) => HealthApplyKeeps(c, s, l, s');
      case Scaling => ScaleKeeps(c, s, l, s');
      case ScaleRestart(_) => ScaleKeeps(c, s, l, s');
      case ScaleCreate => ScaleKeeps(c, s, l, s');
      case ScaleDrain(_) => ScaleKeeps(c, s, l, s');
      case Scaled => RotationsListKeeps(c, s, s');
      case Rotating(_, _) => RotateKeeps(c, s, l, s');
      case Draining(_) => DrainMoveKeeps(c, s, l, s');
      case DrainAt(_, _, _) => DrainMoveKeeps(c, s, l, s');
      case DrainTo(_, _, _) => DrainCommitKeeps(c, s, l, s');
      case Finalizing(_) => FinalizeKeeps(c, s, l, s');
      case RotationCheck => RotationKeeps(c, s, l, s');
      case RotationStart(_) => RotationKeeps(c, s, l, s');
      case CleanupCheck => CleanupListKeeps(c, s, l, s');
      case Cleaning(_, _) => CleaningKeeps(c, s, l, s');
    }
  }

  lemma CleaningKeeps(c: Config, s: State, l: SlowStep, s': State)
    requires Inv(c, s) && s.slow.Cleaning? && CleanNext(c, s, l) == Some(s')
    ensures Inv(c, s')
  {
    hide Inv, CleanNext;
    if l.CleanPayload? || l.CleanResult? {
      CleanObjectKeeps(c, s, l, s');
    } else if l.CleanRow? {
      CleanRowKeeps(c, s, l.t, s');
    } else {
      CleanMoveKeeps(c, s, l, s');
    }
  }

  lemma StepKeeps(c: Config, s: State, step: Step, s': State)
    requires Inv(c, s) && Next(c, s, step) == Some(s')
    ensures Inv(c, s')
  {
    match step
    case Gateway(g) => GatewayKeeps(c, s, g, s');
    case Admin(a) => AdminKeeps(c, s, a, s');
    case Fast(f) => FastKeeps(c, s, f, s');
    case Slow(l) => SlowKeeps(c, s, l, s');
    case Tick(later) => TickKeeps(c, s, later);
    case Crash =>
      FastMoveKeeps(c, s, FastIdle);
      SlowPcKeeps(c, s.(fast := FastIdle), SlowIdle);
  }

  lemma InitOk(c: Config, s: State)
    requires c.Valid() && Init(s)
    ensures Inv(c, s)
  {
    forall w: WorkerId
      ensures Load(s.tasks, w) <= c.targetPerWorker
    {
      assert LoadSet(s.tasks, w) == {};
    }
    assert LiveWorkers(s.workers) == {} && ActiveReplacements(s.workers) == {};
  }

  lemma {:induction false} InvAlways(c: Config, run: seq<State>, steps: seq<Step>, i: nat)
    requires Behavior(c, run, steps) && i < |run|
    ensures Inv(c, run[i])
  {
    if i == 0 {
      InitOk(c, run[0]);
    } else {
      InvAlways(c, run, steps, i - 1);
      assert Follows(c, run, steps, i - 1);
      StepKeeps(c, run[i - 1], steps[i - 1], run[i]);
    }
  }

  // ---------- what one step does to a task row ----------

  /** Intake data never changes, the upstream identity is written once, terminal rows are final, and
      the only step back is from dispatching to queued. */
  predicate Evolves(old': Task, row: Task) {
    && row.createdAt == old'.createdAt && row.payloadKey == old'.payloadKey && row.cacheKey == old'.cacheKey
    && (old'.upstreamId.Some? ==> row.upstreamId == old'.upstreamId && row.upstreamUrl == old'.upstreamUrl)
    && (Terminal(old'.status) ==>
          row.status == old'.status && row.completedAt == old'.completedAt && row.resultKey == old'.resultKey)
    && (Rank(row.status) >= Rank(old'.status) || (old'.status.Dispatching? && row.status.Queued?))
  }

  /** At most the row of t is written, and it evolves. */
  ghost predicate OneRowEvolves(tasks: Tasks, tasks': Tasks, t: TaskId) {
    tasks' == tasks || (t in tasks && t in tasks' && tasks' == tasks[t := tasks'[t]] && Evolves(tasks[t], tasks'[t]))
  }

  lemma OneRowEvolved(tasks: Tasks, tasks': Tasks, t: TaskId)
    requires OneRowEvolves(tasks, tasks', t)
    ensures forall u <- tasks :: u in tasks' && Evolves(tasks[u], tasks'[u])
  {
  }

  lemma ClaimEvolves(c: Config, s: State, f: FastStep, s': State)
    requires s.fast.Submitting? && s.fast.task in s.tasks && SubmitNext(c, s, f) == Some(s')
    requires s.tasks[s.fast.task].status.Dispatching? && Shape(s.fast.task, s.tasks[s.fast.task])
    ensures OneRowEvolves(s.tasks, s'.tasks, s.fast.task)
  {
    hide PayloadOf, Acquire, Touched;
  }

  lemma RecordEvolves(t: TaskId, row: Task, w: WorkerId, upstreamId: string, url: string, reported: string, now: Time)
    requires Shape(t, row) && row.status.Dispatching?
    ensures Evolves(row, Recorded(row, w, upstreamId, url, reported, now))
  {
    LiveTasksNeverRequeue(Some(reported), Processing);
  }

  lemma SubmitEvolves(c: Config, s: State, f: FastStep, s': State)
    requires Inv(c, s) && (s.fast.Submitting? || s.fast.Accepted?) && FastNext(c, s, f) == Some(s') && !f.FastAbort?
    ensures forall t <- s.tasks :: t in s'.tasks && Evolves(s.tasks[t], s'.tasks[t])
  {
    var t := s.fast.task;
    assert ClaimHeld(s.tasks, t, s.fast.worker);
    assert Shape(t, s.tasks[t]);
    hide Inv, SubmitNext, Shape, Evolves, Recorded;
    if s.fast.Accepted? {
      RecordEvolves(t, s.tasks[t], s.fast.worker, s.fast.upstreamId, s.fast.acceptedBy, s.fast.reported, s.now);
      assert OneRowEvolves(s.tasks, s'.tasks, t);
    } else {
      ClaimEvolves(c, s, f, s');
    }
    OneRowEvolved(s.tasks, s'.tasks, t);
  }

  lemma PollEvolves(t: TaskId, row: Task, report: Report, now: Time)
    requires Shape(t, row) && row.status.Processing?
    ensures Evolves(row, Polled(row, report, now))
  {
    if report.status.Some? {
      LiveTasksNeverRequeue(report.status.value, row.status);
      ReportLosesProgressIff(report.status.value, row.status);
    }
  }

  lemma SyncRow(s: State, f: FastStep, s': State)
    requires s.fast.Syncing? && SyncNext(s, f) == Some(s')
    requires f.SyncApply? && f.t in s.tasks ==> Evolves(s.tasks[f.t], Polled(s.tasks[f.t], f.report, s.now))
    ensures s'.tasks == s.tasks
            || ((f.SyncApply? || f.SyncClear? || f.SyncDefer?) && OneRowEvolves(s.tasks, s'.tasks, f.t))
  {
    hide Polled;
  }

  lemma SyncEvolves(c: Config, s: State, f: FastStep, s': State)
    requires Inv(c, s) && s.fast.Syncing? && SyncNext(s, f) == Some(s')
    ensures forall t <- s.tasks :: t in s'.tasks && Evolves(s.tasks[t], s'.tasks[t])
  {
    if f.SyncApply? {
      assert Shape(f.t, s.tasks[f.t]) && s.tasks[f.t].status.Processing?;
      PollEvolves(f.t, s.tasks[f.t], f.report, s.now);
    }
    hide Inv, SyncNext, Evolves, Polled, Shape;
    SyncRow(s, f, s');
    if s'.tasks != s.tasks {
      OneRowEvolved(s.tasks, s'.tasks, f.t);
    } else {
      forall t | t in s.tasks
        ensures Evolves(s.tasks[t], s.tasks[t])
      {
        EvolvesRefl(s.tasks[t]);
      }
    }
  }

  lemma PersistRow(s: State, f: FastStep, s': State)
    requires s.fast.Persisting? && PersistNext(s, f) == Some(s')
    requires f.PersistComplete? && f.t in s.tasks ==> s.tasks[f.t].status.StoringResult?
    ensures s'.tasks == s.tasks || ((f.PersistComplete? || f.PersistDefer?) && OneRowEvolves(s.tasks, s'.tasks, f.t))
  {
  }

  lemma PersistEvolves(c: Config, s: State, f: FastStep, s': State)
    requires Inv(c, s) && s.fast.Persisting? && PersistNext(s, f) == Some(s')
    ensures forall t <- s.tasks :: t in s'.tasks && Evolves(s.tasks[t], s'.tasks[t])
  {
    if f.PersistComplete? {
      assert PersistOk(s, f.t, s.fast.toPersist[f.t]);
    }
    hide Inv, PersistOk, PersistNext, Evolves;
    PersistRow(s, f, s');
    if s'.tasks != s.tasks {
      OneRowEvolved(s.tasks, s'.tasks, f.t);
    } else {
      forall t | t in s.tasks
        ensures Evolves(s.tasks[t], s.tasks[t])
      {
        EvolvesRefl(s.tasks[t]);
      }
    }
  }

  lemma EvolvesRefl(row: Task)
    ensures Evolves(row, row)
  {
  }

  lemma StartEvolves(c: Config, s: State, f: FastStep, s': State)
    requires s.fast.FastIdle? && StartNext(c, s, f) == Some(s')
    ensures forall t <- s.tasks :: t in s'.tasks && Evolves(s.tasks[t], s'.tasks[t])
  {
    hide Acquire, Touched;
  }

  lemma FastEvolves(c: Config, s: State, f: FastStep, s': State)
    requires Inv(c, s) && FastNext(c, s, f) == Some(s')
    ensures forall t <- s.tasks :: t in s'.tasks && Evolves(s.tasks[t], s'.tasks[t])
  {
    hide SubmitNext, SyncNext, PersistNext, StartNext, Inv;
    if !f.FastAbort? {
      match s.fast
      case FastIdle => StartEvolves(c, s, f, s');
      case Submitting(_, _, _, _) => SubmitEvolves(c, s, f, s');
      case Accepted(_, _, _, _, _) => SubmitEvolves(c, s, f, s');
      case Syncing(_) => SyncEvolves(c, s, f, s');
      case Persisting(_) => PersistEvolves(c, s, f, s');
    }
  }

  /** Rows only leave the table by retention. */
  predicate Survives(c: Config, s: State, s': State, t: TaskId)
    requires t in s.tasks
  {
    if t in s'.tasks then Evolves(s.tasks[t], s'.tasks[t]) else PastRetention(s.tasks[t], s.now - c.retention)
  }

  lemma SlowEvolves(c: Config, s: State, l: SlowStep, s': State)
    requires Inv(c, s) && SlowNext(c, s, l) == Some(s')
    ensures forall t <- s.tasks :: Survives(c, s, s', t)
  {
    SlowFrame(c, s, l, s');
    if l.CleanRow? && s.slow.Cleaning? {
      assert PastRetention(s.tasks[l.t], s.slow.cutoff);
    }
  }

  /** The slow loop touches no part of the task side but the objects and rows it cleans up. */
  ghost predicate LeavesIntake(s: State, s': State) {
    && s'.issued == s.issued && s'.requests == s.requests && s'.uploading == s.uploading && s'.copying == s.copying
    && s'.accepted == s.accepted && s'.served == s.served && s'.now == s.now && s'.fast == s.fast
  }

  ghost predicate SlowFramed(s: State, l: SlowStep, s': State) {
    && LeavesIntake(s, s')
    && s'.tasks == (if l.CleanRow? && s.slow.Cleaning? then s.tasks - {l.t} else s.tasks)
    && (l.CleanRow? && s.slow.Cleaning? ==> l.t in s.slow.toClean)
  }

  lemma ReconcileFrame(c: Config, s: State, l: SlowStep, s': State)
    requires s.slow.Reconciling? && ReconcileNext(c, s, l) == Some(s')
    ensures SlowFramed(s, l, s')
  {
    hide Select, SkipsReconcile;
  }

  lemma VisitFrame(c: Config, s: State, l: SlowStep, s': State)
    requires s.slow.Visiting? && s.slow.w in s.workers && VisitNext(c, s, l) == Some(s')
    ensures SlowFramed(s, l, s')
  {
    hide FailureRecorded, FailuresReset, Disappeared;
  }

  lemma ScaleFrame(c: Config, s: State, l: SlowStep, s': State)
    requires s.slow.Scaling? && ScaleNext(c, s, l) == Some(s')
    ensures SlowFramed(s, l, s')
  {
    hide LiveWorkers, IdleSince;
  }

  lemma RotateFrame(c: Config, s: State, l: SlowStep, s': State)
    requires s.slow.Rotating? && RotateNext(c, s, l) == Some(s')
    ensures SlowFramed(s, l, s')
  {
    hide Select, ReplacementExpired, CanStartDraining;
  }

  lemma ConvergeFrame(c: Config, s: State, l: SlowStep, s': State)
    requires (s.slow.Converging? || (s.slow.ConvergeAt? && s.slow.w in s.workers)) && ConvergeNext(c, s, l) == Some(s')
    ensures SlowFramed(s, l, s')
  {
  }

  lemma DrainFrame(c: Config, s: State, l: SlowStep, s': State)
    requires s.slow.Draining? || ((s.slow.DrainAt? || s.slow.DrainTo?) && s.slow.w in s.workers)
    requires DrainNext(c, s, l) == Some(s')
    ensures SlowFramed(s, l, s')
  {
  }

  lemma RotationFrame(c: Config, s: State, l: SlowStep, s': State)
    requires s.slow.RotationCheck? || (s.slow.RotationStart? && s.slow.target in s.workers)
    requires RotationNext(c, s, l) == Some(s')
    ensures SlowFramed(s, l, s')
  {
  }

  lemma CleanFrame(c: Config, s: State, l: SlowStep, s': State)
    requires (s.slow.CleanupCheck? || s.slow.Cleaning?) && CleanNext(c, s, l) == Some(s')
    ensures SlowFramed(s, l, s')
  {
  }

  lemma SingleFrame(c: Config, s: State, l: SlowStep, s': State)
    requires || l.SlowAbort? || s.slow.SlowIdle? || s.slow.Converged? || s.slow.Probing? || s.slow.ScaleRestart?
             || s.slow.ScaleCreate? || s.slow.ScaleDrain? || s.slow.Scaled? || s.slow.Finalizing?
    requires SlowNext(c, s, l) == Some(s')
    ensures SlowFramed(s, l, s')
  {
    hide Select, Finalized, Probed, Restarted;
  }

  lemma SlowFrame(c: Config, s: State, l: SlowStep, s': State)
    requires SlowNext(c, s, l) == Some(s')
    ensures SlowFramed(s, l, s')
  {
    hide ReconcileNext, VisitNext, ConvergeNext, ScaleNext, RotateNext, DrainNext, CleanNext, RotationNext, SlowFramed;
    if l.SlowAbort? {
      SingleFrame(c, s, l, s');
    } else {
      match s.slow
      case Reconciling(_, _) => ReconcileFrame(c, s, l, s');
      case Visiting(_, _, _, _) => VisitFrame(c, s, l, s');
      case Scaling => ScaleFrame(c, s, l, s');
      case Rotating(_, _) => RotateFrame(c, s, l, s');
      case Converging(_, _) => ConvergeFrame(c, s, l, s');
      case ConvergeAt(_, _, _, _, _) => ConvergeFrame(c, s, l, s');
      case Draining(_) => DrainFrame(c, s, l, s');
      case DrainAt(_, _, _) => DrainFrame(c, s, l, s');
      case DrainTo(_, _, _) => DrainFrame(c, s, l, s');
      case RotationCheck => RotationFrame(c, s, l, s');
      case RotationStart(_) => RotationFrame(c, s, l, s');
      case CleanupCheck => CleanFrame(c, s, l, s');
      case Cleaning(_, _) => CleanFrame(c, s, l, s');
      case _ => SingleFrame(c, s, l, s');
    }
  }

  /** The gateway adds rows under ids it drew itself and writes no other. */
  lemma GatewayFrame(s: State, g: GatewayStep, s': State)
    requires GatewayNext(s, g) == Some(s')
    ensures s.issued <= s'.issued
    ensures s'.tasks == s.tasks
            || (g.InsertTask? && g.t in s.uploading && s'.tasks == s.tasks[g.t := s'.tasks[g.t]] && g.t in s'.tasks)
            || (g.InsertHit? && g.t in s.copying && s'.tasks == s.tasks[g.t := s'.tasks[g.t]] && g.t in s'.tasks)
    ensures s'.uploading <= s.uploading || (g.PutPayload? && g.t !in s.issued && s'.uploading == s.uploading + {g.t})
    ensures s'.copying <= s.copying || (g.PutHit? && g.t !in s.issued && s'.copying == s.copying + {g.t})
  {
    hide Payload.Packed, Accepts;
  }

  lemma FastFrame(c: Config, s: State, f: FastStep, s': State)
    requires FastNext(c, s, f) == Some(s')
    ensures s'.issued == s.issued && s'.uploading == s.uploading && s'.copying == s.copying
    ensures s'.tasks.Keys == s.tasks.Keys && s'.now == s.now && s'.slow == s.slow && s'.quiet == s.quiet
  {
    hide Payload.Rebuild, Acquire, Recorded, Polled;
  }

  /** The dispatcher writes no column of a worker's row but the time of its last activity. */
  lemma FastTouches(c: Config, s: State, f: FastStep, s': State)
    requires FastNext(c, s, f) == Some(s')
    ensures s'.workers == s.workers || exists w :: s'.workers == Touched(s, w)
    ensures s'.slow == s.slow && s'.quiet == s.quiet && s'.now == s.now
  {
    hide PayloadOf, Acquire, Recorded, Polled, Touched;
  }

  lemma RowsAreInserted(c: Config, s: State, t: TaskId)
    requires Inv(c, s) && t in s.tasks
    ensures t !in s.uploading && t !in s.copying
  {
  }

  lemma TaskEvolves(c: Config, s: State, step: Step, s': State, t: TaskId)
    requires Inv(c, s) && Next(c, s, step) == Some(s') && t in s.tasks
    ensures Survives(c, s, s', t)
  {
    hide Inv, GatewayNext, FastNext, SlowNext;
    RowsAreInserted(c, s, t);
    match step
    case Gateway(g) => GatewayFrame(s, g, s');
    case Admin(a) =>
    case Fast(f) => FastEvolves(c, s, f, s');
    case Slow(l) => SlowEvolves(c, s, l, s');
    case Tick(_) =>
    case Crash =>
  }

  // ---------- tasks over whole runs ----------

  /** A row that is in the table at both ends of a stretch was there all along, and evolved. */
  lemma {:induction false} TaskEvolvesOverRun(c: Config, run: seq<State>, steps: seq<Step>, i: nat, j: nat, t: TaskId)
    requires Behavior(c, run, steps) && i <= j < |run| && t in run[i].tasks && t in run[j].tasks
    ensures forall k | i <= k <= j :: t in run[k].tasks
    ensures var a, b := run[i].tasks[t], run[j].tasks[t];
            && b.createdAt == a.createdAt && b.payloadKey == a.payloadKey && b.cacheKey == a.cacheKey
            && (a.upstreamId.Some? ==>
                  b.upstreamId == a.upstreamId && b.upstreamUrl == a.upstreamUrl && Rank(b.status) >= Rank(a.status))
            && (Terminal(a.status) ==>
                  b.status == a.status && b.completedAt == a.completedAt && b.resultKey == a.resultKey)
    decreases j - i
  {
    hide Next;
    if i < j {
      InvAlways(c, run, steps, i);
      assert Shape(t, run[i].tasks[t]);
      hide Inv;
      assert Follows(c, run, steps, i);
      TaskEvolves(c, run[i], steps[i], run[i + 1], t);
      if t !in run[i + 1].tasks {
        IdsStayIssued(c, run, steps, i, i + 1, t);
        GoneForGood(c, run, steps, i + 1, j, t);
      }
      TaskEvolvesOverRun(c, run, steps, i + 1, j, t);
    }
  }

  lemma IssuedGrows(c: Config, s: State, step: Step, s': State)
    requires Next(c, s, step) == Some(s')
    ensures s.issued <= s'.issued
    ensures forall t <- s'.tasks :: t in s.tasks || t in s.uploading || t in s.copying
    ensures forall t <- s'.uploading :: t in s.uploading || t !in s.issued
    ensures forall t <- s'.copying :: t in s.copying || t !in s.issued
  {
    hide GatewayNext, FastNext, SlowNext;
    match step
    case Gateway(g) => GatewayFrame(s, g, s');
    case Fast(f) => FastFrame(c, s, f, s');
    case Slow(l) => SlowFrame(c, s, l, s');
    case _ =>
  }

  lemma IdsStayIssued(c: Config, run: seq<State>, steps: seq<Step>, i: nat, j: nat, t: TaskId)
    requires Behavior(c, run, steps) && i <= j < |run| && t in run[i].tasks && j == i + 1
    ensures t in run[j].issued && t !in run[j].uploading && t !in run[j].copying
  {
    InvAlways(c, run, steps, i);
    assert Follows(c, run, steps, i);
    IssuedGrows(c, run[i], steps[i], run[j]);
  }

  /** An id that has been used and is in no table is never used again. */
  lemma {:induction false} GoneForGood(c: Config, run: seq<State>, steps: seq<Step>, i: nat, j: nat, t: TaskId)
    requires Behavior(c, run, steps) && i <= j < |run|
    requires t in run[i].issued && t !in run[i].tasks && t !in run[i].uploading && t !in run[i].copying
    ensures t !in run[j].tasks
    decreases j - i
  {
    if i < j {
      assert Follows(c, run, steps, i);
      IssuedGrows(c, run[i], steps[i], run[i + 1]);
      GoneForGood(c, run, steps, i + 1, j, t);
    }
  }

  /** However often the scheduler crashes and workers accept the task again, the upstream identity on
      its row is written at most once, and the task never returns to the queue afterwards. */
  lemma UpstreamIdentityIsWriteOnce(c: Config, run: seq<State>, steps: seq<Step>, i: nat, j: nat, t: TaskId)
    requires Behavior(c, run, steps) && i <= j < |run| && t in run[i].tasks && t in run[j].tasks
    requires run[i].tasks[t].upstreamId.Some?
    ensures run[j].tasks[t].upstreamId == run[i].tasks[t].upstreamId
    ensures run[j].tasks[t].upstreamUrl == run[i].tasks[t].upstreamUrl
    ensures Rank(run[j].tasks[t].status) >= Rank(run[i].tasks[t].status) >= Rank(Processing)
  {
    InvAlways(c, run, steps, i);
    assert Shape(t, run[i].tasks[t]);
    TaskEvolvesOverRun(c, run, steps, i, j, t);
  }

  /** Until retention, the result of a finished dispatched task is in the store; it is what the worker
      recorded on the row served for the recorded upstream task; and that upstream task is one the worker
      accepted for this very request. */
  lemma ResultIsOfRecordedSubmission(c: Config, run: seq<State>, steps: seq<Step>, i: nat, t: TaskId)
    requires Behavior(c, run, steps) && i < |run| && t in run[i].tasks
    requires run[i].tasks[t].status.Completed? && run[i].tasks[t].upstreamId.Some?
    requires run[i].now - c.retention <= run[i].tasks[t].completedAt.GetOr(0)
    ensures var s, row := run[i], run[i].tasks[t];
            && row.resultKey == Some(ResultObj(t)) && ResultObj(t) in s.store && row.upstreamUrl.Some?
            && Served(row.upstreamUrl.value, row.upstreamId.value, s.store[ResultObj(t)]) in s.served
            && t in s.requests
            && Acceptance(t, row.upstreamUrl.value, row.upstreamId.value, s.requests[t]) in s.accepted
  {
    InvAlways(c, run, steps, i);
    assert Shape(t, run[i].tasks[t]) && Identified(run[i], t);
    assert ResultStored(run[i], t);
  }

  /** Every worker that ever accepted a task was given exactly what the client had sent. */
  lemma AcceptedRequestsAreTheClients(c: Config, run: seq<State>, steps: seq<Step>, i: nat, a: Acceptance)
    requires Behavior(c, run, steps) && i < |run| && a in run[i].accepted
    ensures a.task in run[i].requests && a.request == run[i].requests[a.task]
  {
    InvAlways(c, run, steps, i);
  }

  /** Dispatch never finds the payload of a live task gone: it rebuilds the client's request, so a
      dispatch that fails for a missing payload cannot happen. */
  lemma DispatchFindsThePayload(c: Config, run: seq<State>, steps: seq<Step>, i: nat)
    requires Behavior(c, run, steps) && i < |run| && run[i].fast.Submitting?
    ensures var s := run[i];
            && s.fast.task in s.tasks
            && (s.tasks[s.fast.task].payloadKey.Some? ==>
                  && s.fast.task in s.requests
                  && PayloadOf(s, s.fast.task) == Payload.Rebuilt(s.requests[s.fast.task])
                  && FastNext(c, s, FailPayload) == None)
  {
    InvAlways(c, run, steps, i);
    var s := run[i];
    assert ClaimHeld(s.tasks, s.fast.task, s.fast.worker);
    if s.tasks[s.fast.task].payloadKey.Some? {
      SubmittedIsRequested(c, s, s.fast.task);
    }
  }

  /** The fields set on a row are those its status calls for, in every reachable state. */
  lemma ShapeAlways(c: Config, run: seq<State>, steps: seq<Step>, i: nat, t: TaskId)
    requires Behavior(c, run, steps) && i < |run| && t in run[i].tasks
    ensures var row := run[i].tasks[t];
            && (row.status.Queued? ==> row.workerId.None? && row.upstreamId.None?)
            && (row.status.Dispatching? ==>
                  row.workerId.Some? && row.dispatchStartedAt.Some? && row.upstreamId.None? && row.upstreamUrl.None?)
            && (row.status.Processing? || row.status.StoringResult? ==>
                  row.workerId.Some? && row.upstreamId.Some? && row.upstreamUrl.Some? && row.upstreamUrl.value != "")
            && (Terminal(row.status) <==> row.completedAt.Some?)
            && (row.status.Completed? <==> row.resultKey.Some?)
  {
    InvAlways(c, run, steps, i);
    assert Shape(t, run[i].tasks[t]);
  }

  /** A claim that a crash or an exception left behind is put back into the queue by the first recovery
      after its timeout, and can then be claimed again. */
  lemma AbandonedClaimIsRecovered(c: Config, run: seq<State>, steps: seq<Step>, i: nat, t: TaskId)
    requires Behavior(c, run, steps) && i < |steps| && steps[i] == Fast(RecoverStaleClaims)
    requires t in run[i].tasks && run[i].tasks[t].status.Dispatching?
    requires run[i].tasks[t].dispatchStartedAt.GetOr(0) < run[i].now - DISPATCH_CLAIM_TIMEOUT
    ensures t in run[i + 1].tasks && Claimable(run[i + 1].tasks[t]) && run[i + 1].tasks[t].workerId.None?
    ensures run[i + 1].tasks[t].createdAt == run[i].tasks[t].createdAt
  {
    assert Follows(c, run, steps, i);
    InvAlways(c, run, steps, i);
    assert Shape(t, run[i].tasks[t]);
  }

  /** A task leaves the table only when it is finished and past its retention. */
  lemma OnlyRetentionDeletes(c: Config, run: seq<State>, steps: seq<Step>, i: nat, t: TaskId)
    requires Behavior(c, run, steps) && i < |steps| && t in run[i].tasks && t !in run[i + 1].tasks
    ensures Terminal(run[i].tasks[t].status)
    ensures run[i].tasks[t].completedAt.Some? && run[i].tasks[t].completedAt.value < run[i].now - c.retention
  {
    InvAlways(c, run, steps, i);
    assert Follows(c, run, steps, i);
    TaskEvolves(c, run[i], steps[i], run[i + 1], t);
  }

  /** No worker ever holds more tasks in compute than its target, whatever claims, reassignments,
      recoveries and crashes occur. */
  lemma CapacityAlways(c: Config, run: seq<State>, steps: seq<Step>, i: nat, w: WorkerId)
    requires Behavior(c, run, steps) && i < |run|
    ensures Load(run[i].tasks, w) <= c.targetPerWorker
  {
    InvAlways(c, run, steps, i);
  }
}
