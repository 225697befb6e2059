/** What holds of the workers over whole runs: drains, terminations, stalled workers, the fleet. */
module WorkerTheorems {
  import opened Wrappers
  import opened Status
  import opened Rows
  import opened Selection
  import opened Protocol
  import opened Invariant
  import opened Theorems
  import Payload

  // ---------- what one step does to a worker row ----------

  /** Termination is for good, a link is only ever cut, a stall ends only by an administrator's recovery,
      and only a successful probe makes a worker healthy. */
  predicate RowFollows(step: Step, w: WorkerId, old': Worker, row: Worker) {
    && row.generation == old'.generation && row.createdAt == old'.createdAt
    && (old'.desired.WantTerminated? ==> row.desired.WantTerminated?)
    && (old'.terminatedAt.Some? ==> row.terminatedAt.Some?)
    && (row.replacementFor == old'.replacementFor || row.replacementFor.None?)
    && (old'.stalledAt.Some? && step != Admin(AdminRecover(w)) ==> row.stalledAt == old'.stalledAt)
    && (row.healthy && !old'.healthy ==> step.Slow? && step.l.HealthApply? && w in step.l.ok)
  }

  ghost predicate RowsFollow(step: Step, s: State, s': State) {
    && (forall w <- s.workers :: w in s'.workers && RowFollows(step, w, s.workers[w], s'.workers[w]))
    && s.quiet <= s'.quiet
  }

  lemma OneRowFollows(step: Step, s: State, s': State, w: WorkerId)
    requires w in s.workers && w in s'.workers && s'.workers == s.workers[w := s'.workers[w]] && s.quiet <= s'.quiet
    requires RowFollows(step, w, s.workers[w], s'.workers[w])
    ensures RowsFollow(step, s, s')
  {
  }

  lemma SameRowsFollow(step: Step, s: State, s': State)
    requires s'.workers == s.workers && s.quiet <= s'.quiet
    ensures RowsFollow(step, s, s')
  {
  }

  lemma VisitFollows(c: Config, s: State, l: SlowStep, s': State)
    requires s.slow.Visiting? && s.slow.w in s.workers && VisitNext(c, s, l) == Some(s')
    requires RowOk(c, s.workers[s.slow.w])
    ensures RowsFollow(Slow(l), s, s')
  {
    OneRowFollows(Slow(l), s, s', s.slow.w);
  }

  lemma RebindFollows(c: Config, s: State, l: SlowStep, s': State)
    requires s.slow.Reconciling? && l.Rebind? && ReconcileNext(c, s, l) == Some(s')
    ensures RowsFollow(Slow(l), s, s')
  {
    OneRowFollows(Slow(l), s, s', l.w);
  }

  lemma ConvergeFollows(c: Config, s: State, l: SlowStep, s': State)
    requires s.slow.ConvergeAt? && s.slow.w in s.workers && ConvergeNext(c, s, l) == Some(s')
    requires s.slow.seen.stalledAt.Some?
    ensures RowsFollow(Slow(l), s, s')
  {
    OneRowFollows(Slow(l), s, s', s.slow.w);
  }

  lemma RotateFollows(c: Config, s: State, l: SlowStep, s': State)
    requires s.slow.Rotating? && RotateNext(c, s, l) == Some(s')
    ensures RowsFollow(Slow(l), s, s')
  {
    if l.RotateExpire? {
      OneRowFollows(Slow(l), s, s', l.w);
    } else if l.RotateDrainOld? {
      OneRowFollows(Slow(l), s, s', s.slow.todo[l.w].replacementFor.value);
    } else {
      SameRowsFollow(Slow(l), s, s');
    }
  }

  lemma DrainFollows(c: Config, s: State, l: SlowStep, s': State)
    requires s.slow.Draining? || ((s.slow.DrainAt? || s.slow.DrainTo?) && s.slow.w in s.workers)
    requires DrainNext(c, s, l) == Some(s')
    requires s.slow.DrainTo? ==> !s.workers[s.slow.w].desired.WantTerminated?
    ensures RowsFollow(Slow(l), s, s')
  {
    if s.slow.DrainTo? {
      OneRowFollows(Slow(l), s, s', s.slow.w);
    } else {
      SameRowsFollow(Slow(l), s, s');
    }
  }

  /** The steps of the slow loop that write no worker row, or write one of a session of their own. */
  lemma QuietFollows(c: Config, s: State, l: SlowStep, s': State)
    requires SlowNext(c, s, l) == Some(s')
    requires || l.SlowAbort? || s.slow.SlowIdle? || (s.slow.Reconciling? && !l.Rebind?) || s.slow.Converging?
             || s.slow.Converged?
             || s.slow.Scaling? || s.slow.Scaled? || s.slow.CleanupCheck? || s.slow.Cleaning? || s.slow.RotationCheck?
    ensures RowsFollow(Slow(l), s, s')
  {
    hide Select, RowFollows;
    SameRowsFollow(Slow(l), s, s');
  }

  lemma ScaleFollows(c: Config, s: State, l: SlowStep, s': State)
    requires SlowNext(c, s, l) == Some(s') && !l.SlowAbort?
    requires s.slow.ScaleRestart? || s.slow.ScaleCreate? || s.slow.ScaleDrain? || s.slow.RotationStart?
    requires s.slow.ScaleRestart? ==> s.slow.w in s.workers && !s.workers[s.slow.w].desired.WantTerminated?
    ensures RowsFollow(Slow(l), s, s')
  {
    if s.slow.ScaleRestart? || s.slow.ScaleDrain? {
      OneRowFollows(Slow(l), s, s', s.slow.w);
    }
  }

  lemma HealthFollows(c: Config, s: State, l: SlowStep, s': State)
    requires SlowNext(c, s, l) == Some(s') && !l.SlowAbort? && s.slow.Probing?
    ensures RowsFollow(Slow(l), s, s')
  {
  }

  lemma FinalizeFollows(c: Config, s: State, l: SlowStep, s': State)
    requires SlowNext(c, s, l) == Some(s') && !l.SlowAbort? && s.slow.Finalizing?
    ensures RowsFollow(Slow(l), s, s')
  {
  }

  /** What the invariant says of the row the slow loop is about to write. */
  lemma WrittenRow(c: Config, s: State)
    requires Inv(c, s)
    ensures s.slow.Visiting? ==> s.slow.w in s.workers && RowOk(c, s.workers[s.slow.w])
    ensures s.slow.ConvergeAt? ==> s.slow.w in s.workers && s.slow.seen.stalledAt.Some?
    ensures s.slow.ScaleRestart? ==> s.slow.w in s.workers && !s.workers[s.slow.w].desired.WantTerminated?
    ensures s.slow.DrainTo? ==> s.slow.w in s.workers && !s.workers[s.slow.w].desired.WantTerminated?
  {
  }

  lemma SlowFollows(c: Config, s: State, l: SlowStep, s': State)
    requires Inv(c, s) && SlowNext(c, s, l) == Some(s')
    ensures RowsFollow(Slow(l), s, s')
  {
    WrittenRow(c, s);
    hide Inv, RowsFollow, RowOk;
    hide ReconcileNext, VisitNext, ConvergeNext, ScaleNext, RotateNext, DrainNext, CleanNext, RotationNext;
    if l.SlowAbort? {
      QuietFollows(c, s, l, s');
    } else {
      match s.slow
      case Reconciling(_, _) => if l.Rebind? { RebindFollows(c, s, l, s'); } else { QuietFollows(c, s, l, s'); }
      case Visiting(_, _, _, _) => VisitFollows(c, s, l, s');
      case ConvergeAt(_, _, _, _, _) => ConvergeFollows(c, s, l, s');
      case Rotating(_, _) => RotateFollows(c, s, l, s');
      case Draining(_) => DrainFollows(c, s, l, s');
      case DrainAt(_, _, _) => DrainFollows(c, s, l, s');
      case DrainTo(_, _, _) => DrainFollows(c, s, l, s');
      case Probing(_) => HealthFollows(c, s, l, s');
      case Finalizing(_) => FinalizeFollows(c, s, l, s');
      case ScaleRestart(_) => ScaleFollows(c, s, l, s');
      case ScaleCreate => ScaleFollows(c, s, l, s');
      case ScaleDrain(_) => ScaleFollows(c, s, l, s');
      case RotationStart(_) => ScaleFollows(c, s, l, s');
      case _ => QuietFollows(c, s, l, s');
    }
  }

  lemma FastFollows(c: Config, s: State, f: FastStep, s': State)
    requires FastNext(c, s, f) == Some(s')
    ensures RowsFollow(Fast(f), s, s')
  {
    hide PayloadOf, Acquire, Recorded, Polled;
  }

  lemma GatewayFollows(s: State, g: GatewayStep, s': State)
    requires GatewayNext(s, g) == Some(s')
    ensures s'.workers == s.workers && s'.quiet == s.quiet && s'.slow == s.slow && s'.now == s.now
  {
    hide Payload.Packed, Accepts;
  }

  lemma StepFollows(c: Config, s: State, step: Step, s': State)
    requires Inv(c, s) && Next(c, s, step) == Some(s')
    ensures RowsFollow(step, s, s')
  {
    hide Inv, GatewayNext, FastNext, SlowNext;
    match step
    case Gateway(g) =>
      GatewayFollows(s, g, s');
      SameRowsFollow(step, s, s');
    case Admin(a) => OneRowFollows(step, s, s', a.w);
    case Fast(f) =>
      hide RowsFollow;
      FastFollows(c, s, f, s');
    case Slow(l) =>
      hide RowsFollow;
      SlowFollows(c, s, l, s');
    case Tick(_) => SameRowsFollow(step, s, s');
    case Crash => SameRowsFollow(step, s, s');
  }

  // ---------- work arrives only at serviceable workers ----------

  /** The worker's active tasks, and those that take a slot, are among those it had before. */
  ghost predicate NoNewWork(s: State, s': State, w: WorkerId) {
    forall t <- s'.tasks ::
      s'.tasks[t].workerId == Some(w) && BlocksDrain(s'.tasks[t].status) ==>
        && t in s.tasks && s.tasks[t].workerId == Some(w) && BlocksDrain(s.tasks[t].status)
        && (UsesCapacity(s'.tasks[t].status) ==> UsesCapacity(s.tasks[t].status))
  }

  /** The step gives the worker a task: a claim, or the reassignment of one. */
  predicate TakesFor(step: Step, w: WorkerId) {
    step.Fast? && (step.f.ClaimNext? || step.f.Reassign?) && step.f.w == w
  }

  lemma OnlyServiceableTake(c: Config, s: State, step: Step, s': State, w: WorkerId)
    requires Next(c, s, step) == Some(s') && TakesFor(step, w)
    ensures w in s.workers && Serviceable(c, s.workers[w]) && Load(s.tasks, w) < c.targetPerWorker
  {
    hide PayloadOf, Touched, Serviceable;
    var excluded := if step.f.ClaimNext? then {} else s.fast.excluded + {s.fast.worker};
    assert Acquire(c, s.tasks, s.workers, excluded) == Some(w);
    assert w in Dispatchable(c, s.tasks, s.workers, excluded);
  }

  lemma SubmitWork(c: Config, s: State, f: FastStep, s': State, w: WorkerId)
    requires s.fast.Submitting? && ClaimHeld(s.tasks, s.fast.task, s.fast.worker) && SubmitNext(c, s, f) == Some(s')
    requires !TakesFor(Fast(f), w)
    ensures NoNewWork(s, s', w)
  {
    hide PayloadOf, Touched, Acquire;
  }

  lemma StartWork(c: Config, s: State, f: FastStep, s': State, w: WorkerId)
    requires s.fast.FastIdle? && StartNext(c, s, f) == Some(s') && !TakesFor(Fast(f), w)
    ensures NoNewWork(s, s', w)
  {
    hide Touched, Acquire;
  }

  lemma RecordWork(c: Config, s: State, s': State, w: WorkerId)
    requires s.fast.Accepted? && ClaimHeld(s.tasks, s.fast.task, s.fast.worker)
    requires FastNext(c, s, RecordAccepted) == Some(s')
    ensures NoNewWork(s, s', w)
  {
  }

  lemma SyncWork(s: State, f: FastStep, s': State, w: WorkerId)
    requires s.fast.Syncing? && SyncNext(s, f) == Some(s')
    requires forall t <- s.fast.toSync :: t in s.tasks && s.tasks[t].status.Processing?
    ensures NoNewWork(s, s', w)
  {
  }

  lemma PersistWork(s: State, f: FastStep, s': State, w: WorkerId)
    requires s.fast.Persisting? && PersistNext(s, f) == Some(s')
    ensures NoNewWork(s, s', w)
  {
  }

  lemma FastWork(c: Config, s: State, f: FastStep, s': State, w: WorkerId)
    requires Inv(c, s) && FastNext(c, s, f) == Some(s') && !TakesFor(Fast(f), w)
    ensures NoNewWork(s, s', w)
  {
    assert FastOk(s);
    hide Inv, NoNewWork, SubmitNext, StartNext, SyncNext, PersistNext, PersistOk;
    if f.FastAbort? {
      SameTasksWork(s, s', w);
    } else {
      match s.fast
      case FastIdle => StartWork(c, s, f, s', w);
      case Submitting(_, _, _, _) => SubmitWork(c, s, f, s', w);
      case Accepted(_, _, _, _, _) => RecordWork(c, s, s', w);
      case Syncing(_) => SyncWork(s, f, s', w);
      case Persisting(_) => PersistWork(s, f, s', w);
    }
  }

  lemma SameTasksWork(s: State, s': State, w: WorkerId)
    requires s'.tasks == s.tasks
    ensures NoNewWork(s, s', w)
  {
  }

  lemma GatewayWork(s: State, g: GatewayStep, s': State, w: WorkerId)
    requires GatewayNext(s, g) == Some(s')
    ensures NoNewWork(s, s', w)
  {
    hide Payload.Packed, Accepts;
  }

  lemma StepWork(c: Config, s: State, step: Step, s': State, w: WorkerId)
    requires Inv(c, s) && Next(c, s, step) == Some(s') && !TakesFor(step, w)
    ensures NoNewWork(s, s', w)
  {
    hide Inv, GatewayNext, FastNext, SlowNext;
    match step
    case Gateway(g) => GatewayWork(s, g, s', w);
    case Admin(a) =>
    case Fast(f) => FastWork(c, s, f, s', w);
    case Slow(l) => SlowFrame(c, s, l, s');
    case Tick(_) =>
    case Crash =>
  }

  // ---------- over whole runs ----------

  ghost predicate InServiceDuring(c: Config, run: seq<State>, i: nat, j: nat, w: WorkerId) {
    exists k | i <= k < j && k < |run| :: w in run[k].workers && Serviceable(c, run[k].workers[w])
  }

  /** While a worker is out of service, because it drains, is stopped, unhealthy or stalled, its active
      work can only shrink, whatever the dispatcher, the gateway and the administrator do meanwhile. */
  lemma {:induction false} WorkOnlyShrinksOutOfService(
      c: Config, run: seq<State>, steps: seq<Step>, i: nat, j: nat, w: WorkerId)
    requires Behavior(c, run, steps) && i <= j < |run| && !InServiceDuring(c, run, i, j, w)
    ensures ActiveOn(run[j].tasks, w) <= ActiveOn(run[i].tasks, w)
    decreases j - i
  {
    if i < j {
      InvAlways(c, run, steps, i);
      assert Follows(c, run, steps, i);
      if TakesFor(steps[i], w) {
        OnlyServiceableTake(c, run[i], steps[i], run[i + 1], w);
      }
      StepWork(c, run[i], steps[i], run[i + 1], w);
      assert ActiveOn(run[i + 1].tasks, w) <= ActiveOn(run[i].tasks, w);
      forall k | i + 1 <= k < j
        ensures w !in run[k].workers || !Serviceable(c, run[k].workers[w])
      {
      }
      WorkOnlyShrinksOutOfService(c, run, steps, i + 1, j, w);
    }
  }

  /** The intent to terminate a worker is never withdrawn. */
  lemma {:induction false} TerminationIsFinal(
      c: Config, run: seq<State>, steps: seq<Step>, i: nat, j: nat, w: WorkerId)
    requires Behavior(c, run, steps) && i <= j < |run|
    requires w in run[i].workers && run[i].workers[w].desired.WantTerminated?
    ensures w in run[j].workers && run[j].workers[w].desired.WantTerminated?
    decreases j - i
  {
    if i < j {
      hide Inv, Next;
      InvAlways(c, run, steps, i);
      assert Follows(c, run, steps, i);
      StepFollows(c, run[i], steps[i], run[i + 1]);
      TerminationIsFinal(c, run, steps, i + 1, j, w);
    }
  }

  lemma MustBeIdleIsIdle(c: Config, s: State, w: WorkerId)
    requires Inv(c, s) && MustBeIdle(s, w)
    ensures ActiveOn(s.tasks, w) == {}
  {
    assert Unattended(s.tasks, w);
  }

  lemma DrainCommitted(c: Config, s: State, s': State)
    requires Next(c, s, Slow(DrainCommit)) == Some(s') && s.slow.DrainTo?
    ensures s'.tasks == s.tasks && s.slow.w in s'.workers
    ensures s.slow.intent.WantTerminated? ==> s'.workers[s.slow.w].desired.WantTerminated?
  {
    hide FastNext, GatewayNext;
  }

  /** Draining loses no work: when the drain of a worker is committed, some time after its tasks were
      counted, no task is being dispatched to it, processed by it or waiting for its result there; and
      none is attached to it for as long as the worker keeps the intent, which is forever when the intent
      is to terminate. */
  lemma DrainNeverLosesWork(c: Config, run: seq<State>, steps: seq<Step>, i: nat, j: nat, w: WorkerId)
    requires Behavior(c, run, steps) && i < j < |run|
    requires steps[i] == Slow(DrainCommit) && run[i].slow.DrainTo? && run[i].slow.w == w
    requires run[i].slow.intent.WantTerminated?
             || forall k | i < k < j :: w in run[k].workers && !run[k].workers[w].desired.WantRunning?
    ensures ActiveOn(run[i].tasks, w) == {}
    ensures ActiveOn(run[j].tasks, w) == {}
  {
    hide Inv, Next;
    InvAlways(c, run, steps, i);
    MustBeIdleIsIdle(c, run[i], w);
    assert Follows(c, run, steps, i);
    DrainCommitted(c, run[i], run[i + 1]);
    forall k | i + 1 <= k < j
      ensures w !in run[k].workers || !Serviceable(c, run[k].workers[w])
    {
      if run[i].slow.intent.WantTerminated? {
        TerminationIsFinal(c, run, steps, i + 1, k, w);
      }
    }
    WorkOnlyShrinksOutOfService(c, run, steps, i + 1, j, w);
  }

  /** A stopped worker has no active work, and neither has one terminated by a drain, or as stalled after
      its work was seen to be done. */
  lemma IdleWhenStopped(c: Config, run: seq<State>, steps: seq<Step>, i: nat, w: WorkerId)
    requires Behavior(c, run, steps) && i < |run|
    requires (w in run[i].workers && run[i].workers[w].desired.WantStopped?) || w in run[i].quiet
    ensures ActiveOn(run[i].tasks, w) == {}
  {
    hide Inv;
    InvAlways(c, run, steps, i);
    MustBeIdleIsIdle(c, run[i], w);
  }

  ghost predicate RecoveredDuring(steps: seq<Step>, i: nat, j: nat, w: WorkerId) {
    exists k | i <= k < j && k < |steps| :: steps[k] == Admin(AdminRecover(w))
  }

  /** A stalled worker stays stalled, and out of service, until an administrator recovers it. */
  lemma {:induction false} StalledUntilRecovered(
      c: Config, run: seq<State>, steps: seq<Step>, i: nat, j: nat, w: WorkerId)
    requires Behavior(c, run, steps) && i <= j < |run|
    requires w in run[i].workers && run[i].workers[w].stalledAt.Some? && !RecoveredDuring(steps, i, j, w)
    ensures w in run[j].workers && run[j].workers[w].stalledAt == run[i].workers[w].stalledAt
    ensures !run[j].workers[w].healthy && !Serviceable(c, run[j].workers[w])
    ensures run[j].workers[w].desired.WantTerminated? || run[j].workers[w].failureCount >= c.maxFailures
    decreases j - i
  {
    InvAlways(c, run, steps, i);
    assert RowOk(c, run[i].workers[w]);
    if i < j {
      assert Follows(c, run, steps, i);
      StepFollows(c, run[i], steps[i], run[i + 1]);
      assert steps[i] != Admin(AdminRecover(w));
      assert !RecoveredDuring(steps, i + 1, j, w);
      StalledUntilRecovered(c, run, steps, i + 1, j, w);
    }
  }

  predicate ProbedHealthy(step: Step, w: WorkerId) {
    step.Slow? && step.l.HealthApply? && w in step.l.ok
  }

  lemma {:induction false} HealthyOnlyByProbe(
      c: Config, run: seq<State>, steps: seq<Step>, i: nat, j: nat, w: WorkerId) returns (m: nat)
    requires Behavior(c, run, steps) && i <= j < |run|
    requires w in run[i].workers && !run[i].workers[w].healthy && w in run[j].workers && run[j].workers[w].healthy
    ensures i <= m < j && ProbedHealthy(steps[m], w)
    decreases j - i
  {
    hide Inv, Next;
    InvAlways(c, run, steps, i);
    assert Follows(c, run, steps, i);
    StepFollows(c, run[i], steps[i], run[i + 1]);
    if run[i + 1].workers[w].healthy {
      m := i;
    } else {
      m := HealthyOnlyByProbe(c, run, steps, i + 1, j, w);
    }
  }

  lemma {:induction false} RecoveryEndsStall(
      c: Config, run: seq<State>, steps: seq<Step>, i: nat, j: nat, w: WorkerId) returns (k: nat)
    requires Behavior(c, run, steps) && i <= j < |run|
    requires w in run[i].workers && run[i].workers[w].stalledAt.Some?
    requires w in run[j].workers && run[j].workers[w].stalledAt.None?
    ensures i <= k < j && steps[k] == Admin(AdminRecover(w)) && w in run[k].workers && run[k].workers[w].stalledAt.Some?
    decreases j - i
  {
    hide Inv, Next;
    InvAlways(c, run, steps, i);
    assert Follows(c, run, steps, i);
    StepFollows(c, run[i], steps[i], run[i + 1]);
    if steps[i] == Admin(AdminRecover(w)) {
      k := i;
    } else {
      k := RecoveryEndsStall(c, run, steps, i + 1, j, w);
    }
  }

  /** A stalled worker serves again only after an administrator has recovered it and, later, the slow loop
      has probed it and found it healthy. */
  lemma StalledServesOnlyAfterRecoveryAndProbe(
      c: Config, run: seq<State>, steps: seq<Step>, i: nat, j: nat, w: WorkerId)
    requires Behavior(c, run, steps) && i <= j < |run|
    requires w in run[i].workers && run[i].workers[w].stalledAt.Some?
    requires w in run[j].workers && Serviceable(c, run[j].workers[w])
    ensures exists k, m ::
              i <= k < m < j && steps[k] == Admin(AdminRecover(w)) && ProbedHealthy(steps[m], w)
  {
    InvAlways(c, run, steps, j);
    assert RowOk(c, run[j].workers[w]);
    var k := RecoveryEndsStall(c, run, steps, i, j, w);
    InvAlways(c, run, steps, k);
    assert RowOk(c, run[k].workers[w]);
    assert Follows(c, run, steps, k);
    assert !run[k + 1].workers[w].healthy;
    var m := HealthyOnlyByProbe(c, run, steps, k + 1, j, w);
    assert i <= k < m < j && steps[k] == Admin(AdminRecover(w)) && ProbedHealthy(steps[m], w);
  }

  // ---------- stalled workers converge ----------

  predicate InPass(s: State, at: Time) {
    (s.slow.Converging? || s.slow.ConvergeAt?) && s.slow.at == at
  }

  /** The pass that listed w as stalled at `at` still has it ahead, or has marked it for termination. */
  predicate AheadOrDone(s: State, w: WorkerId, row: Worker) {
    && w in s.workers
    && (|| (s.slow.Converging? && w in s.slow.todo && s.slow.todo[w] == row)
        || (s.slow.ConvergeAt? && w in s.slow.todo && s.slow.todo[w] == row)
        || (s.slow.ConvergeAt? && w == s.slow.w && s.slow.seen == row)
        || s.workers[w].desired.WantTerminated?)
  }

  /** Nothing can keep the pass from terminating the worker now: the worker has no active work, or its
      grace period is over. */
  ghost predicate Doomed(c: Config, s: State, w: WorkerId, row: Worker, at: Time) {
    || (row.stalledAt.Some? && at - row.stalledAt.value >= c.stalledGrace)
    || (Unattended(s.tasks, w) && (s.slow.ConvergeAt? && s.slow.w == w ==> !s.slow.active))
  }

  lemma ConvergeAdvances(c: Config, s: State, l: SlowStep, s': State, w: WorkerId, row: Worker, at: Time)
    requires (s.slow.Converging? || (s.slow.ConvergeAt? && s.slow.w in s.workers)) && ConvergeNext(c, s, l) == Some(s')
    requires InPass(s, at) && AheadOrDone(s, w, row) && row.stalledAt.Some? && Doomed(c, s, w, row, at)
    ensures AheadOrDone(s', w, row)
    ensures s'.slow.Converged? ==> s'.workers[w].desired.WantTerminated?
    ensures InPass(s', at) || s'.slow.Converged?
  {
    hide Unattended;
  }

  /** What the other steps leave to the pass. */
  lemma OthersLeavePass(c: Config, s: State, step: Step, s': State, w: WorkerId)
    requires Inv(c, s) && Next(c, s, step) == Some(s') && w in s.workers && !step.Slow? && !step.Crash?
    ensures s'.slow == s.slow && w in s'.workers
    ensures s.workers[w].desired.WantTerminated? ==> s'.workers[w].desired.WantTerminated?
  {
    hide Inv, GatewayNext, FastNext, SlowNext;
    StepFollows(c, s, step, s');
    match step
    case Gateway(g) => GatewayFollows(s, g, s');
    case Fast(f) => FastFrame(c, s, f, s');
    case _ =>
  }

  lemma PassAdvances(c: Config, s: State, step: Step, s': State, w: WorkerId, row: Worker, at: Time)
    requires Inv(c, s) && Next(c, s, step) == Some(s') && (InPass(s', at) || s'.slow.Converged?)
    requires InPass(s, at) && AheadOrDone(s, w, row) && row.stalledAt.Some? && Doomed(c, s, w, row, at)
    ensures AheadOrDone(s', w, row)
    ensures s'.slow.Converged? ==> s'.workers[w].desired.WantTerminated?
  {
    hide Inv, FastNext, GatewayNext, ConvergeNext, Doomed;
    if step.Slow? {
      WrittenByPass(c, s);
      ConvergeAdvances(c, s, step.l, s', w, row, at);
    } else {
      OthersLeavePass(c, s, step, s', w);
    }
  }

  /** The pass at index i, which lists the stalled workers, runs through to its end at index j. */
  ghost predicate ConvergePass(run: seq<State>, steps: seq<Step>, i: nat, j: nat) {
    && i + 1 < j < |run| && |run| == |steps| + 1 && steps[i] == Slow(ConvergeList)
    && (forall k | i < k < j :: InPass(run[k], run[i].now))
    && run[j].slow.Converged?
  }

  lemma {:induction false} PassReaches(c: Config, run: seq<State>, steps: seq<Step>, i: nat, j: nat, k: nat,
        w: WorkerId)
    requires Behavior(c, run, steps) && ConvergePass(run, steps, i, j) && i < k <= j
    requires w in run[i].workers && StalledAndActive(c, run[i].workers[w])
    requires var row := run[i].workers[w];
             || (row.stalledAt.Some? && run[i].now - row.stalledAt.value >= c.stalledGrace)
             || (forall m | i <= m <= j :: Unattended(run[m].tasks, w))
    ensures AheadOrDone(run[k], w, run[i].workers[w])
    ensures run[k].slow.ConvergeAt? && run[k].slow.w == w && (forall m | i <= m <= j :: Unattended(run[m].tasks, w)) ==>
              !run[k].slow.active
    ensures run[k].slow.Converged? ==> run[k].workers[w].desired.WantTerminated?
  {
    hide Inv, Next, InPass, AheadOrDone, Unattended;
    var row, at := run[i].workers[w], run[i].now;
    InvAlways(c, run, steps, i);
    StallIsStamped(c, run[i], w);
    assert Follows(c, run, steps, k - 1);
    if k == i + 1 {
      ListedAtStart(c, run[i], run[k], w);
    } else {
      PassReaches(c, run, steps, i, j, k - 1, w);
      InvAlways(c, run, steps, k - 1);
      assert InPass(run[k - 1], at);
      assert k < j ==> InPass(run[k], at);
      if forall m | i <= m <= j :: Unattended(run[m].tasks, w) {
        assert Unattended(run[k - 1].tasks, w);
        LookSeesNoWork(c, run[k - 1], steps[k - 1], run[k], w, at);
      }
      PassAdvances(c, run[k - 1], steps[k - 1], run[k], w, row, at);
    }
  }

  lemma StallIsStamped(c: Config, s: State, w: WorkerId)
    requires Inv(c, s) && w in s.workers && StalledCount(c, s.workers[w])
    ensures s.workers[w].stalledAt.Some?
  {
    assert RowOk(c, s.workers[w]);
  }

  lemma ListedAtStart(c: Config, s: State, s': State, w: WorkerId)
    requires Next(c, s, Slow(ConvergeList)) == Some(s') && w in s.workers && StalledAndActive(c, s.workers[w])
    ensures AheadOrDone(s', w, s.workers[w]) && s'.slow.Converging?
  {
    hide ReconcileNext, GatewayNext, FastNext;
    if s.slow.Reconciling? {
      ListedAfterReconcile(c, s, s', w);
    }
  }

  lemma ListedAfterReconcile(c: Config, s: State, s': State, w: WorkerId)
    requires s.slow.Reconciling? && ReconcileNext(c, s, ConvergeList) == Some(s')
    requires w in s.workers && StalledAndActive(c, s.workers[w])
    ensures AheadOrDone(s', w, s.workers[w]) && s'.slow.Converging?
  {
  }

  lemma ConvergeLooks(c: Config, s: State, l: SlowStep, s': State, w: WorkerId)
    requires s.slow.Converging? || (s.slow.ConvergeAt? && s.slow.w in s.workers)
    requires ConvergeNext(c, s, l) == Some(s')
    requires Unattended(s.tasks, w) && (s.slow.ConvergeAt? && s.slow.w == w ==> !s.slow.active)
    ensures s'.slow.ConvergeAt? && s'.slow.w == w ==> !s'.slow.active
  {
    hide Unattended;
  }

  lemma WrittenByPass(c: Config, s: State)
    requires Inv(c, s)
    ensures s.slow.ConvergeAt? ==> s.slow.w in s.workers
  {
  }

  lemma LookSeesNoWork(c: Config, s: State, step: Step, s': State, w: WorkerId, at: Time)
    requires Inv(c, s) && Next(c, s, step) == Some(s') && InPass(s, at)
    requires InPass(s', at) || s'.slow.Converged?
    requires Unattended(s.tasks, w) && (s.slow.ConvergeAt? && s.slow.w == w ==> !s.slow.active)
    ensures s'.slow.ConvergeAt? && s'.slow.w == w ==> !s'.slow.active
  {
    hide Inv, GatewayNext, FastNext, ConvergeNext, Unattended;
    match step
    case Slow(l) =>
      WrittenByPass(c, s);
      ConvergeLooks(c, s, l, s', w);
    case Fast(f) =>
      hide SlowNext;
      FastFrame(c, s, f, s');
    case Gateway(g) =>
      hide SlowNext;
      GatewayFollows(s, g, s');
    case _ =>
  }

  lemma NoProbeInPass(c: Config, s: State, step: Step, s': State, w: WorkerId, at: Time)
    requires InPass(s, at) && Next(c, s, step) == Some(s')
    ensures !ProbedHealthy(step, w)
  {
    hide GatewayNext, FastNext;
  }

  /** No worker becomes healthy during a convergence pass: the slow loop, which probes, is busy with it. */
  lemma {:induction false} PassKeepsUnhealthy(
      c: Config, run: seq<State>, steps: seq<Step>, i: nat, j: nat, k: nat, w: WorkerId)
    requires Behavior(c, run, steps) && ConvergePass(run, steps, i, j) && i <= k <= j
    requires w in run[i].workers && !run[i].workers[w].healthy
    ensures w in run[k].workers && !run[k].workers[w].healthy
  {
    hide Inv, Next, InPass;
    if k > i {
      PassKeepsUnhealthy(c, run, steps, i, j, k - 1, w);
      InvAlways(c, run, steps, k - 1);
      assert Follows(c, run, steps, k - 1);
      StepFollows(c, run[k - 1], steps[k - 1], run[k]);
      if k - 1 > i {
        NoProbeInPass(c, run[k - 1], steps[k - 1], run[k], w, run[i].now);
      }
    }
  }

  lemma NoWorkMeansUnattended(tasks: Tasks, w: WorkerId)
    ensures ActiveOn(tasks, w) == {} <==> Unattended(tasks, w)
  {
    if ActiveOn(tasks, w) == {} {
      forall t | t in tasks && tasks[t].workerId == Some(w)
        ensures !BlocksDrain(tasks[t].status)
      {
        assert t !in ActiveOn(tasks, w);
      }
    }
  }

  /** A stalled worker without work when the pass begins has none until it ends. */
  lemma PassBringsNoWork(c: Config, run: seq<State>, steps: seq<Step>, i: nat, j: nat, m: nat, w: WorkerId)
    requires Behavior(c, run, steps) && ConvergePass(run, steps, i, j) && i <= m <= j
    requires w in run[i].workers && !run[i].workers[w].healthy && ActiveOn(run[i].tasks, w) == {}
    ensures Unattended(run[m].tasks, w)
  {
    hide Behavior, Unattended;
    forall k | i <= k < m
      ensures w !in run[k].workers || !Serviceable(c, run[k].workers[w])
    {
      PassKeepsUnhealthy(c, run, steps, i, j, k, w);
    }
    WorkOnlyShrinksOutOfService(c, run, steps, i, m, w);
    NoWorkMeansUnattended(run[m].tasks, w);
  }

  /** Stalled workers converge: a worker that has reached the failure limit when a convergence pass lists
      it is marked for termination by the end of that pass, if it has no active work or its grace period is
      over when the pass begins; and the mark is final. */
  lemma StalledWorkersConverge(
      c: Config, run: seq<State>, steps: seq<Step>, i: nat, j: nat, n: nat, w: WorkerId)
    requires Behavior(c, run, steps) && ConvergePass(run, steps, i, j) && j <= n < |run|
    requires w in run[i].workers && Live(run[i].workers[w]) && run[i].workers[w].failureCount >= c.maxFailures
    requires var row := run[i].workers[w];
             || (row.stalledAt.Some? && run[i].now - row.stalledAt.value >= c.stalledGrace)
             || ActiveOn(run[i].tasks, w) == {}
    ensures run[i].workers[w].stalledAt.Some?
    ensures w in run[n].workers && run[n].workers[w].desired.WantTerminated?
    ensures run[n].workers[w].failureCount >= c.maxFailures ==> !SkipsReconcile(c, run[n].workers[w], run[n].now)
  {
    InvAlways(c, run, steps, i);
    assert RowOk(c, run[i].workers[w]);
    hide Inv, RowOk;
    if run[i].workers[w].desired.WantTerminated? {
      TerminationIsFinal(c, run, steps, i, n, w);
    } else {
      if ActiveOn(run[i].tasks, w) == {} {
        forall m | i <= m <= j
          ensures Unattended(run[m].tasks, w)
        {
          PassBringsNoWork(c, run, steps, i, j, m, w);
        }
      }
      PassReaches(c, run, steps, i, j, j, w);
      TerminationIsFinal(c, run, steps, j, n, w);
    }
  }

  // ---------- the fleet ----------

  /** However scaling, rotation, recovery and crashes interleave, the fleet never exceeds its limit by
      more than one worker, one replacement at a time is on its way, and a replacement's target is
      not itself a replacement and is one generation behind. */
  lemma FleetIsBounded(c: Config, run: seq<State>, steps: seq<Step>, i: nat)
    requires Behavior(c, run, steps) && i < |run|
    ensures var ws := run[i].workers;
            && |LiveWorkers(ws)| <= c.maxWorkers + 1
            && |ActiveReplacements(ws)| <= 1
            && (forall v <- ws :: ws[v].replacementFor.Some? ==>
                  var w := ws[v].replacementFor.value;
                  w in ws && w != v && ws[w].replacementFor.None? && ws[v].generation == ws[w].generation + 1)
  {
    InvAlways(c, run, steps, i);
  }
}
