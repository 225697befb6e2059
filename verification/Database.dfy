/** The running deployment: the shared tables, the object store and the clock that the components update
    in place. Its history is a run of the protocol, so that whatever is proved of every run holds of every
    state the program passes through. */
module Database {
  import opened Wrappers
  import opened Rows
  import opened Protocol
  import opened Invariant
  import opened Runs
  import opened Theorems

  datatype Loop = FastLoop | SlowLoop

  /** Steps that can happen while the given loop awaits: those of all other components. A crash ends the
      calls of both loops, so that none of their awaits returns after it. */
  predicate Foreign(loop: Loop, step: Step) {
    !step.Crash? && if loop.FastLoop? then !step.Fast? else !step.Slow?
  }

  ghost predicate OnlyForeign(loop: Loop, steps: seq<Step>, from: nat) {
    forall k | from <= k < |steps| :: Foreign(loop, steps[k])
  }

  /** The steps of the slow loop among the given ones, in order. */
  ghost function SlowOnes(steps: seq<Step>): seq<SlowStep> {
    if steps == [] then []
    else
      var last := steps[|steps| - 1];
      SlowOnes(steps[..|steps| - 1]) + if last.Slow? then [last.l] else []
  }

  /** The steps of the fast loop among the given ones, in order. */
  ghost function FastOnes(steps: seq<Step>): seq<FastStep> {
    if steps == [] then []
    else
      var last := steps[|steps| - 1];
      FastOnes(steps[..|steps| - 1]) + if last.Fast? then [last.f] else []
  }

  lemma OneMoreStep(steps: seq<Step>, step: Step)
    ensures SlowOnes(steps + [step]) == SlowOnes(steps) + if step.Slow? then [step.l] else []
    ensures FastOnes(steps + [step]) == FastOnes(steps) + if step.Fast? then [step.f] else []
  {
    assert (steps + [step])[..|steps|] == steps;
  }

  /** The state before the last step. */
  ghost function Earlier(run: seq<State>): State
    requires |run| >= 2
  {
    run[|run| - 2]
  }

  // ---------- the parts of a tick ----------

  datatype FastPart = Recovers | Syncs | Persists | Dispatches

  function FastPartOf(f: FastStep): FastPart {
    match f
    case RecoverStaleClaims => Recovers
    case SyncList(_) => Syncs
    case SyncApply(_, _) => Syncs
    case SyncClear(_) => Syncs
    case SyncDefer(_) => Syncs
    case SyncDone => Syncs
    case TouchWorker(_) => Syncs
    case PersistList(_) => Persists
    case PersistPut(_, _) => Persists
    case PersistComplete(_) => Persists
    case PersistRollback(_, _) => Persists
    case PersistDefer(_) => Persists
    case PersistDone => Persists
    case _ => Dispatches
  }

  /** The fast loop's log has grown by steps of this part only. */
  ghost predicate FastOnly(before: seq<FastStep>, after: seq<FastStep>, part: FastPart) {
    before <= after && forall k | |before| <= k < |after| :: FastPartOf(after[k]) == part
  }

  lemma FastOnlyJoins(a: seq<FastStep>, b: seq<FastStep>, c: seq<FastStep>, part: FastPart)
    requires FastOnly(a, b, part) && FastOnly(b, c, part)
    ensures FastOnly(a, c, part)
  {
    forall k | |a| <= k < |c|
      ensures FastPartOf(c[k]) == part
    {
      if k < |b| {
        assert c[k] == b[k];
      }
    }
  }

  lemma OneFast(done: seq<FastStep>, f: FastStep)
    ensures FastOnly(done, done, FastPartOf(f)) && FastOnly(done, done + [f], FastPartOf(f))
  {
  }

  datatype SlowPart =
    | Reconciles | Converges | Probes | Scales | Rotates | Retires | Finalizes | Begins | Cleans | Aborts

  function SlowPartOf(l: SlowStep): SlowPart {
    if l.ReconcileList? || l.Rebind? || l.VisitSkip? || l.Visit? || InVisit(l) then Reconciles
    else if l.ConvergeList? || l.ConvergeLook? || l.ConvergeQuiet? || l.ConvergeStamp? || l.ConvergeForce?
            || l.ConvergeWait? || l.ConvergeDone? then Converges
    else if l.HealthList? || l.HealthApply? || l.HealthSkip? then Probes
    else if l.ScaleFindStopped? || l.ScaleNeedNew? || l.ScaleIdle? || l.ScaleNothing? || l.ScaleRestartCommit?
            || l.ScaleCreateCommit? || l.ScaleDrainCommit? then Scales
    else if l.RotationsList? || l.RotateExpire? || l.RotateDrainOld? || l.RotateSkip? then Rotates
    else if l.DrainList? || l.DrainBusy? || l.DrainLook? || l.DrainDefer? || l.DrainDecide? || l.DrainCommit?
      then Retires
    else if l.FinalizeList? || l.Finalize? || l.FinalizeDone? then Finalizes
    else if l.RotationBegin? || l.RotationCommit? || l.RotationNone? then Begins
    else if l.SlowAbort? then Aborts
    else Cleans
  }

  /** The steps of a visit to one worker. */
  predicate InVisit(l: SlowStep) {
    l.RecInstance? || l.RecCloud? || l.RecLaunched? || l.RecDown? || l.RecGone? || l.RecDisappeared? || l.RecStart?
    || l.RecUrl? || l.RecFail? || l.RecReset?
  }

  /** The slow loop's log has grown by steps of this part only. */
  ghost predicate SlowOnly(before: seq<SlowStep>, after: seq<SlowStep>, part: SlowPart) {
    before <= after && forall k | |before| <= k < |after| :: SlowPartOf(after[k]) == part
  }

  lemma SlowOnlyJoins(a: seq<SlowStep>, b: seq<SlowStep>, c: seq<SlowStep>, part: SlowPart)
    requires SlowOnly(a, b, part) && SlowOnly(b, c, part)
    ensures SlowOnly(a, c, part)
  {
    hide SlowPartOf;
    forall k | |a| <= k < |c|
      ensures SlowPartOf(c[k]) == part
    {
      if k < |b| {
        assert c[k] == b[k];
      }
    }
  }

  lemma SomeSlow(done: seq<SlowStep>, ls: seq<SlowStep>, part: SlowPart)
    requires forall l <- ls :: SlowPartOf(l) == part
    ensures SlowOnly(done, done + ls, part)
  {
    hide SlowPartOf;
  }

  /** The steps a log has grown by. */
  function Since<T(==)>(before: seq<T>, after: seq<T>): seq<T> {
    if before <= after then after[|before|..] else []
  }

  lemma SinceGrows<T>(before: seq<T>, after: seq<T>, later: seq<T>)
    requires before <= after <= later
    ensures Since(before, after) <= Since(before, later)
    ensures forall x <- Since(after, later) :: x in Since(before, later)
  {
    var a, b, c := Since(before, after), Since(after, later), Since(before, later);
    assert c == a + b;
  }

  class Deployment {
    const c: Config
    var tasks: Tasks
    var workers: Workers
    var store: map<ObjKey, Bytes>
    var now: Time
    ghost var run: seq<State>
    ghost var steps: seq<Step>
    ghost var slowDone: seq<SlowStep>    // what the slow loop has done, out of the steps
    ghost var fastDone: seq<FastStep>    // what the fast loop has done

    ghost predicate Valid()
      reads this
    {
      && |run| == |steps| + 1 && Behavior(c, run, steps)
      && slowDone == SlowOnes(steps) && fastDone == FastOnes(steps)
      && Cur().tasks == tasks && Cur().workers == workers && Cur().store == store && Cur().now == now
    }

    ghost function Cur(): State
      requires run != []
      reads this
    {
      run[|run| - 1]
    }

    constructor (c: Config, now: Time)
      requires c.Valid()
      ensures Valid() && this.c == c && tasks == map[] && workers == map[] && store == map[] && this.now == now
      ensures Cur().fast.FastIdle? && Cur().slow.SlowIdle?
    {
      this.c := c;
      this.now := now;
      tasks, workers, store := map[], map[], map[];
      run := [State(map[], map[], map[], now, FastIdle, SlowIdle, {}, map[], {}, {}, {}, {}, {})];
      steps, slowDone, fastDone := [], [], [];
    }

    /** What is proved of every run holds now. */
    ghost method Know()
      requires Valid()
      ensures Inv(c, Cur())
    {
      InvAlways(c, run, steps, |run| - 1);
    }

    /** The fields have been updated as the step says: the history records it. */
    ghost method Record(step: Step)
      requires |run| == |steps| + 1 && Behavior(c, run, steps)
      requires slowDone == SlowOnes(steps) && fastDone == FastOnes(steps)
      requires Next(c, Cur(), step).Some?
      requires var s' := Next(c, Cur(), step).value;
               s'.tasks == tasks && s'.workers == workers && s'.store == store && s'.now == now
      modifies `run, `steps, `slowDone, `fastDone
      ensures Valid()
      ensures old(run) < run && old(steps) < steps
      ensures run == old(run) + [Next(c, old(Cur()), step).value] && steps == old(steps) + [step]
      ensures slowDone == old(slowDone) + if step.Slow? then [step.l] else []
      ensures fastDone == old(fastDone) + if step.Fast? then [step.f] else []
    {
      hide Next, Behavior, SlowOnes, FastOnes;
      OneMoreStep(steps, step);
      var s' := Next(c, Cur(), step).value;
      BehaviorGrows(c, run, steps, step, s');
      run, steps := run + [s'], steps + [step];
      slowDone := slowDone + if step.Slow? then [step.l] else [];
      fastDone := fastDone + if step.Fast? then [step.f] else [];
    }

    /** An await: when it returns, the other components may have taken any number of steps. Nothing is done
        here; callers rely on no more than the contract. */
    method Await(loop: Loop)
      requires Valid()
      modifies this
      ensures Valid()
      ensures old(run) <= run && old(steps) <= steps && OnlyForeign(loop, steps, |old(steps)|)
      ensures if loop.SlowLoop? then slowDone == old(slowDone) else fastDone == old(fastDone)
    {
    }

    /** The same, in a stretch of the run in which no worker comes to exist outside a given finite set. */
    method AwaitWithin(loop: Loop, ghost universe: set<WorkerId>)
      requires Valid() && workers.Keys <= universe
      modifies this
      ensures Valid() && workers.Keys <= universe
      ensures old(run) <= run && old(steps) <= steps && OnlyForeign(loop, steps, |old(steps)|)
      ensures if loop.SlowLoop? then slowDone == old(slowDone) else fastDone == old(fastDone)
    {
    }
  }
}
