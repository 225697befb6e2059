/** Autoscaling and rotation (scheduler/scheduler.py), as methods of the slow loop. */
module Fleet {
  import opened Wrappers
  import opened Rows
  import opened Scaling
  import opened Autoscale
  import opened Capacity
  import opened Protocol
  import opened Database
  import opened Interleaving
  import opened Scheduler

  /** Ids of new workers have not been used before. */
  method DrawId(workers: Workers) returns (id: WorkerId)
    ensures id !in workers
  {
    FreshIdExists(workers.Keys);
    id :| id !in workers;
  }

  lemma {:induction false} Above(ids: set<WorkerId>) returns (b: WorkerId)
    ensures forall i <- ids :: i < b
  {
    b := 0;
    if ids != {} {
      var x := Pick(ids);
      var above := Above(ids - {x});
      b := if x < above then above else x + 1;
      assert forall i <- ids :: i == x || i in ids - {x};
    }
  }

  lemma FreshIdExists(ids: set<WorkerId>)
    ensures exists id :: id !in ids
  {
    var b := Above(ids);
    assert b !in ids;
  }

  // ---------- autoscaling ----------

  lemma ScaleSteps(c: Config, s: State, w: WorkerId)
    requires s.slow.Scaling?
    ensures w in s.workers && StoppedSpare(s.workers[w]) ==>
              Next(c, s, Slow(ScaleFindStopped(w))) == Some(s.(slow := ScaleRestart(w)))
    ensures |LiveWorkers(s.workers)| < c.maxWorkers + 1 ==>
              Next(c, s, Slow(ScaleNeedNew)) == Some(s.(slow := ScaleCreate))
    ensures w in s.workers && IdleSince(s.tasks, w, s.workers[w], s.now - c.idleCooldown) ==>
              Next(c, s, Slow(ScaleIdle(w))) == Some(s.(slow := ScaleDrain(w)))
    ensures Next(c, s, Slow(ScaleNothing)) == Some(s.(slow := Scaled))
  {
    hide IdleSince, LiveWorkers, FastNext, GatewayNext, AdminNext, ReconcileNext, VisitNext;
    hide ConvergeNext, DrainNext, RotateNext, RotationNext, CleanNext, Select, Finalized;
  }

  lemma ScaleCommitSteps(c: Config, s: State, id: WorkerId)
    ensures s.slow.ScaleRestart? && s.slow.w in s.workers ==>
              Next(c, s, Slow(ScaleRestartCommit))
              == Some(SetWorker(s, s.slow.w, Restarted(s.workers[s.slow.w], s.now)).(slow := Scaled))
    ensures s.slow.ScaleDrain? && s.slow.w in s.workers ==>
              Next(c, s, Slow(ScaleDrainCommit))
              == Some(SetWorker(s, s.slow.w, DrainIntended(s.workers[s.slow.w], WantStopped)).(slow := Scaled))
    ensures s.slow.ScaleCreate? && id !in s.workers ==>
              Next(c, s, Slow(ScaleCreateCommit(id))) == Some(SetWorker(s, id, NewWorker(s.now)).(slow := Scaled))
  {
    hide Restarted, NewWorker, FastNext, GatewayNext, AdminNext, ReconcileNext, VisitNext;
    hide ConvergeNext, DrainNext, RotateNext, RotationNext, CleanNext, ScaleNext, Select, Finalized;
  }

  /** What the history says of an await during a decision. */
  lemma RestDecides(before: seq<State>, after: seq<State>)
    requires before != [] && SlowRested(before, after) && Deciding(Last(before))
    ensures OneDecision(after, |before| - 1, |after| - 1)
  {
    forall k | |before| - 1 <= k <= |after| - 1
      ensures Deciding(after[k])
    {
      assert WorkersRest(Last(before), after[k]);
    }
  }

  /** An await, for what the autoscaler counts on. */
  method RestLive(db: Deployment)
    requires db.Valid()
    modifies db
    ensures db.Valid() && old(db.run) <= db.run && db.Cur().slow == old(db.Cur().slow)
    ensures LiveWorkers(db.workers) == LiveWorkers(old(db.workers)) && db.workers.Keys == old(db.workers.Keys)
    ensures db.slowDone == old(db.slowDone) && old(db.now) <= db.now && old(db.steps) <= db.steps
    ensures Deciding(old(db.Cur())) ==> OneDecision(db.run, |old(db.run)| - 1, |db.run| - 1)
  {
    hide Next, Behavior, WorkersRest, OneDecision, Deciding, SlowRested, SlowOnes, FastOnes;
    ghost var s, before := db.Cur(), db.run;
    Rest(db);
    ReplacementsRest(db.c, s, db.Cur(), 0);
    if Deciding(s) {
      RestDecides(before, db.run);
    }
  }

  // ---------- decisions in the history ----------

  /** Two stretches of one decision that meet are one. */
  lemma Joined(run: seq<State>, run': seq<State>, i: nat)
    requires run != [] && run <= run' && i < |run|
    requires OneDecision(run, i, |run| - 1) && OneDecision(run', |run| - 1, |run'| - 1)
    ensures OneDecision(run', i, |run'| - 1)
  {
    forall k | i <= k <= |run'| - 1
      ensures Deciding(run'[k])
    {
      if k < |run| {
        assert run'[k] == run[k];
      }
    }
  }

  lemma OneStepDecides(run: seq<State>, s': State)
    requires run != [] && Deciding(Last(run)) && Deciding(s')
    ensures OneDecision(run + [s'], |run| - 1, |run|)
  {
  }

  predicate Commits(step: Step) {
    step.Slow? && (step.l.ScaleDrainCommit? || step.l.ScaleCreateCommit?)
  }

  /** If the last step drains or creates a worker, it ends a decision that was on its way since state i. */
  ghost predicate EndsDecision(run: seq<State>, steps: seq<Step>, i: nat) {
    |run| == |steps| + 1 && i < |steps| && (Commits(Last(steps)) ==> OneDecision(run, i, |steps| - 1))
  }

  lemma EndsAfter(run: seq<State>, run': seq<State>, steps': seq<Step>, i: nat)
    requires run != [] && run <= run' && i < |run|
    requires OneDecision(run, i, |run| - 1) && EndsDecision(run', steps', |run| - 1)
    ensures EndsDecision(run', steps', i)
  {
    forall k | i <= k <= |steps'| - 1 && Commits(Last(steps'))
      ensures Deciding(run'[k])
    {
      if k < |run| {
        assert run'[k] == run[k];
      }
    }
  }

  /** A commit after a stretch of one decision ends it; any other step ends none. */
  lemma StepEnds(run: seq<State>, steps: seq<Step>, step: Step, s': State, i: nat)
    requires |run| == |steps| + 1 && i < |run| && (Commits(step) ==> OneDecision(run, i, |run| - 1))
    ensures EndsDecision(run + [s'], steps + [step], i)
  {
    var run' := run + [s'];
    forall k | i <= k <= |steps| && Commits(step)
      ensures Deciding(run'[k])
    {
      assert run'[k] == run[k];
    }
  }

  /** The states in which the five numbers were counted. */
  datatype Moments = Moments(queue: nat, serviceable: nat, starting: nat, draining: nat, stopping: nat)

  ghost predicate CountedAt(c: Config, run: seq<State>, at: Moments, inputs: Inputs) {
    && at.queue <= at.serviceable <= at.starting <= at.draining <= at.stopping < |run|
    && inputs.queueDepth == |QueueSet(run[at.queue].tasks)|
    && inputs.serviceable == |ServiceableSet(c, run[at.serviceable].workers)|
    && inputs.starting == |StartingSet(c, run[at.starting].workers)|
    && inputs.draining == |DrainingSet(run[at.draining].workers)|
    && inputs.stopping == |StoppingSet(run[at.stopping].workers)|
  }

  lemma CountsStand(c: Config, run: seq<State>, run': seq<State>, at: Moments, inputs: Inputs)
    requires CountedAt(c, run, at, inputs) && run <= run'
    ensures CountedAt(c, run', at, inputs)
  {
    assert forall k | 0 <= k < |run| :: run'[k] == run[k];
  }

  /** `collect_scaling_inputs` and `compute_scaling_signal`: five independent reads, in this order, and what
      follows from them. */
  method ComputeScalingSignal(db: Deployment) returns (signal: Signal, ghost at: Moments)
    requires db.Valid() && Deciding(db.Cur())
    modifies db
    ensures db.Valid() && old(db.run) <= db.run && db.Cur().slow == old(db.Cur().slow)
    ensures OneDecision(db.run, |old(db.run)| - 1, |db.run| - 1)
    ensures |old(db.run)| - 1 <= at.queue && CountedAt(db.c, db.run, at, signal.inputs)
    ensures signal == ComputeSignal(signal.inputs, db.c.targetPerWorker, db.c.minWorkers, db.c.maxWorkers)
    ensures db.c.minWorkers <= signal.desired <= db.c.maxWorkers
    ensures LiveWorkers(db.workers) == LiveWorkers(old(db.workers))
    ensures db.slowDone == old(db.slowDone) && old(db.now) <= db.now
  {
    hide Next, WorkersRest, LiveWorkers, OneDecision;
    assert db.c.Valid();
    hide Behavior, SlowOnes, FastOnes;
    ghost var start := |db.run| - 1;
    var queue := |QueueSet(db.tasks)|;
    ghost var r0 := db.run;
    RestLive(db);
    ghost var r1 := db.run;
    var serviceable := |ServiceableSet(db.c, db.workers)|;
    RestLive(db);
    Joined(r1, db.run, start);
    ghost var r2 := db.run;
    var starting := |StartingSet(db.c, db.workers)|;
    RestLive(db);
    Joined(r2, db.run, start);
    ghost var r3 := db.run;
    var draining := |DrainingSet(db.workers)|;
    RestLive(db);
    Joined(r3, db.run, start);
    var stopping := |StoppingSet(db.workers)|;
    var inputs := Inputs(queue, serviceable, starting, draining, stopping);
    at := Moments(start, |r1| - 1, |r2| - 1, |r3| - 1, |db.run| - 1);
    assert r0 <= r1 <= r2 <= r3 <= db.run;
    signal := ComputeSignal(inputs, db.c.targetPerWorker, db.c.minWorkers, db.c.maxWorkers);
    DesiredIsLeastAllowedCover(inputs, db.c.targetPerWorker, db.c.minWorkers, db.c.maxWorkers);
  }

  ghost method Lengths(db: Deployment)
    requires db.Valid()
    ensures |db.run| == |db.steps| + 1
  {
    hide Behavior, SlowOnes, FastOnes;
  }

  /** The last step of the autoscaler's turn is recorded. */
  ghost method RecordEnd(db: Deployment, l: SlowStep, i: nat)
    requires |db.run| == |db.steps| + 1 && Behavior(db.c, db.run, db.steps)
    requires db.slowDone == SlowOnes(db.steps) && db.fastDone == FastOnes(db.steps)
    requires Next(db.c, db.Cur(), Slow(l)).Some?
    requires var s' := Next(db.c, db.Cur(), Slow(l)).value;
             s'.tasks == db.tasks && s'.workers == db.workers && s'.store == db.store && s'.now == db.now
    requires i < |db.run| && (Commits(Slow(l)) ==> OneDecision(db.run, i, |db.run| - 1))
    modifies db`run, db`steps, db`slowDone, db`fastDone
    ensures db.Valid() && old(db.run) < db.run
    ensures db.Cur() == Next(db.c, old(db.Cur()), Slow(l)).value && db.slowDone == old(db.slowDone) + [l]
    ensures EndsDecision(db.run, db.steps, i)
  {
    hide Next, Behavior, EndsDecision, OneDecision, SlowOnes, FastOnes;
    StepEnds(db.run, db.steps, Slow(l), Next(db.c, db.Cur(), Slow(l)).value, i);
    db.Record(Slow(l));
  }

  /** What the capacity theorem says of a turn of the autoscaler that ends with a drain: if meanwhile no
      administrator drained another of the workers it counted, enough are left. */
  lemma TurnKeepsCapacity(c: Config, run: seq<State>, steps: seq<Step>, signal: Signal, at: Moments)
    requires Behavior(c, run, steps) && EndsDecision(run, steps, at.serviceable)
    requires CountedAt(c, run, at, signal.inputs) && signal.ShouldScaleDown()
    requires steps != [] && Last(steps) == Slow(ScaleDrainCommit)
    ensures run[|steps| - 1].slow.ScaleDrain?
    ensures var w, counted := run[|steps| - 1].slow.w, ServiceableSet(c, run[at.serviceable].workers);
            DrainedOf(counted, steps, at.serviceable, |steps| - 1) <= {w} ==>
              |ServiceableSet(c, Last(run).workers)| >= signal.desired
  {
    var j := |steps| - 1;
    assert Follows(c, run, steps, j);
    DrainCommitFrom(c, run[j], Last(run));
    hide Next, Behavior, OneDecision, ServiceableSet, DrainedOf;
    DrainKeepsCapacityIff(c, run, steps, at.serviceable, j, run[j].slow.w, signal);
  }

  lemma DrainCommitFrom(c: Config, s: State, s': State)
    requires Next(c, s, Slow(ScaleDrainCommit)) == Some(s')
    ensures s.slow.ScaleDrain?
  {
    hide GatewayNext, AdminNext, FastNext;
  }

  /** The restart of a stopped worker. */
  method RestartStopped(db: Deployment, w: WorkerId)
    requires db.Valid() && db.Cur().slow.Scaling? && w in db.workers && StoppedSpare(db.workers[w])
    modifies db
    ensures db.Valid() && old(db.run) <= db.run && db.Cur().slow.Scaled?
    ensures w in db.workers && db.workers[w].desired.WantRunning? && db.workers[w].failureCount == 0
    ensures LiveWorkers(db.workers) == LiveWorkers(old(db.workers))
    ensures db.slowDone == old(db.slowDone) + [ScaleFindStopped(w), ScaleRestartCommit]
    ensures EndsDecision(db.run, db.steps, |old(db.run)| - 1)
  {
    hide Next, Behavior, WorkersRest, LiveWorkers, EndsDecision, OneDecision, Deciding, SlowOnes, FastOnes;
    ghost var start := |db.run| - 1;
    Lengths(db);
    ScaleSteps(db.c, db.Cur(), w);
    db.Record(Slow(ScaleFindStopped(w)));
    RestLive(db);
    ScaleCommitSteps(db.c, db.Cur(), w);
    SameLive(db.workers, w, Restarted(db.workers[w], db.now));
    db.workers := db.workers[w := Restarted(db.workers[w], db.now)];
    RecordEnd(db, ScaleRestartCommit, start);
  }

  /** `create_cloud_worker`, after a count has allowed it. */
  method CreateWorker(db: Deployment) returns (id: WorkerId)
    requires db.Valid() && db.Cur().slow.Scaling? && |LiveWorkers(db.workers)| < db.c.maxWorkers + 1
    modifies db
    ensures db.Valid() && old(db.run) <= db.run && db.Cur().slow.Scaled?
    ensures |LiveWorkers(db.workers)| == |LiveWorkers(old(db.workers))| + 1
    ensures id !in old(db.workers) && id in db.workers && db.workers[id] == NewWorker(db.now)
    ensures db.slowDone == old(db.slowDone) + [ScaleNeedNew, ScaleCreateCommit(id)]
    ensures EndsDecision(db.run, db.steps, |old(db.run)| - 1)
  {
    hide Next, Behavior, WorkersRest, EndsDecision, OneDecision, SlowOnes, FastOnes;
    ghost var before := db.run;
    ScaleSteps(db.c, db.Cur(), 0);
    db.Record(Slow(ScaleNeedNew));
    ghost var needed := db.run;
    OneStepDecides(before, Last(needed));
    RestLive(db);
    Joined(needed, db.run, |before| - 1);
    id := DrawId(db.workers);
    ScaleCommitSteps(db.c, db.Cur(), id);
    NewIsLive(db.workers, id, db.now);
    db.workers := db.workers[id := NewWorker(db.now)];
    RecordEnd(db, ScaleCreateCommit(id), |before| - 1);
  }

  lemma SameLive(ws: Workers, w: WorkerId, row: Worker)
    requires w in ws && row.terminatedAt == ws[w].terminatedAt
    ensures LiveWorkers(ws[w := row]) == LiveWorkers(ws)
  {
  }

  lemma DrainKeepsLive(ws: Workers, w: WorkerId)
    requires w in ws
    ensures LiveWorkers(ws[w := DrainIntended(ws[w], WantStopped)]) == LiveWorkers(ws)
  {
    SameLive(ws, w, DrainIntended(ws[w], WantStopped));
  }

  lemma NewIsLive(ws: Workers, id: WorkerId, now: Time)
    requires id !in ws
    ensures |LiveWorkers(ws[id := NewWorker(now)])| == |LiveWorkers(ws)| + 1
  {
    assert LiveWorkers(ws[id := NewWorker(now)]) == LiveWorkers(ws) + {id};
  }

  /** The log of an autoscaler's turn that ends with the given step. */
  ghost predicate Turn(before: seq<SlowStep>, after: seq<SlowStep>, last: SlowStep) {
    SlowOnly(before, after, Scales) && after != [] && Last(after) == last
  }

  lemma TurnOfTwo(done: seq<SlowStep>, first: SlowStep, last: SlowStep)
    requires SlowPartOf(first).Scales? && SlowPartOf(last).Scales?
    ensures Turn(done, done + [first, last], last) && Turn(done, done + [last], last)
  {
    SomeSlow(done, [first, last], Scales);
    SomeSlow(done, [last], Scales);
  }

  method ScaleNot(db: Deployment)
    requires db.Valid() && db.Cur().slow.Scaling?
    modifies db
    ensures db.Valid() && old(db.run) <= db.run && db.Cur().slow.Scaled? && db.workers == old(db.workers)
    ensures db.slowDone == old(db.slowDone) + [ScaleNothing] && Turn(old(db.slowDone), db.slowDone, ScaleNothing)
    ensures EndsDecision(db.run, db.steps, |old(db.run)| - 1)
  {
    hide Next, Behavior, EndsDecision, OneDecision, SlowOnes, FastOnes;
    ScaleSteps(db.c, db.Cur(), 0);
    TurnOfTwo(db.slowDone, ScaleNothing, ScaleNothing);
    Lengths(db);
    RecordEnd(db, ScaleNothing, |db.run| - 1);
  }

  ghost predicate SomeStalled(c: Config, s: State) {
    exists w <- s.workers :: StalledAndActive(c, s.workers[w])
  }

  /** Somewhere in the decision since state i a worker is seen stalled, and later none is seen serving. */
  ghost predicate EmergencySeen(c: Config, run: seq<State>, i: nat) {
    exists k, m :: i <= k <= m < |run| && SomeStalled(c, run[k]) && ServiceableSet(c, run[m].workers) == {}
  }

  /** Somewhere in it no worker is seen stalled, or one is seen serving. */
  ghost predicate EmergencyDenied(c: Config, run: seq<State>, i: nat) {
    exists k :: i <= k < |run| && (!SomeStalled(c, run[k]) || ServiceableSet(c, run[k].workers) != {})
  }

  /** The counts that allow a new worker: within the limit; or one beyond it, when a worker is stalled and
      none serves. */
  method MayCreate(db: Deployment) returns (more: bool, emergency: bool)
    requires db.Valid() && db.Cur().slow.Scaling?
    modifies db
    ensures db.Valid() && old(db.run) <= db.run && db.Cur().slow.Scaling?
    ensures LiveWorkers(db.workers) == LiveWorkers(old(db.workers))
    ensures more <==> |LiveWorkers(db.workers)| < db.c.maxWorkers + if emergency then 1 else 0
    ensures emergency ==>
              |LiveWorkers(db.workers)| >= db.c.maxWorkers && EmergencySeen(db.c, db.run, |old(db.run)| - 1)
    ensures !more && !emergency ==> EmergencyDenied(db.c, db.run, |old(db.run)| - 1)
    ensures db.slowDone == old(db.slowDone)
    ensures OneDecision(db.run, |old(db.run)| - 1, |db.run| - 1)
  {
    hide Next, Behavior, WorkersRest, LiveWorkers, OneDecision, Serviceable, StalledAndActive, SlowOnes, FastOnes;
    ghost var start := |db.run| - 1;
    ghost var r0 := db.run;
    AlreadyDecides(db.run);
    var count := |LiveWorkers(db.workers)|;
    if count < db.c.maxWorkers {
      return true, false;
    }
    RestLive(db);
    ghost var r1 := db.run;
    var stalled := set w | w in db.workers && StalledAndActive(db.c, db.workers[w]);
    if stalled == {} {
      assert forall w <- db.workers :: w !in stalled;
      assert !SomeStalled(db.c, Last(r1));
      return false, false;
    }
    ghost var x := Pick(stalled);
    assert x in db.workers && SomeStalled(db.c, Last(r1));
    RestLive(db);
    Joined(r1, db.run, start);
    ghost var r2 := db.run;
    var serviceable := ServiceableSet(db.c, db.workers);
    if serviceable != {} {
      return false, false;
    }
    RestLive(db);
    Joined(r2, db.run, start);
    assert r0 <= r1 <= r2 <= db.run;
    more, emergency := |LiveWorkers(db.workers)| < db.c.maxWorkers + 1, true;
    assert db.run[|r1| - 1] == Last(r1) && db.run[|r2| - 1] == Last(r2);
  }

  lemma AlreadyDecides(run: seq<State>)
    requires run != [] && Deciding(Last(run))
    ensures OneDecision(run, |run| - 1, |run| - 1)
  {
  }

  /** The stopped workers that can be restarted. */
  function Spares(workers: Workers): set<WorkerId> {
    set w | w in workers && StoppedSpare(workers[w])
  }

  /** The step that ends a step up. */
  function UpStep(workers: Workers, scaled: bool, chosen: WorkerId): SlowStep {
    if Spares(workers) != {} then ScaleRestartCommit else if scaled then ScaleCreateCommit(chosen) else ScaleNothing
  }

  /** `_scale_up`: restart a stopped worker, or create one within the limit, or, when no worker serves and
      one is stalled, one beyond it. */
  method ScaleUp(db: Deployment) returns (scaled: bool, emergency: bool, chosen: WorkerId)
    requires db.Valid() && db.Cur().slow.Scaling?
    modifies db
    ensures db.Valid() && old(db.run) <= db.run && db.Cur().slow.Scaled?
    ensures !scaled ==> |LiveWorkers(db.workers)| == |LiveWorkers(old(db.workers))|
    ensures Spares(old(db.workers)) != {} ==>
              && chosen in Spares(old(db.workers)) && scaled
              && |LiveWorkers(db.workers)| == |LiveWorkers(old(db.workers))|
              && db.slowDone == old(db.slowDone) + [ScaleFindStopped(chosen), ScaleRestartCommit]
    ensures Spares(old(db.workers)) == {} ==>
              && db.slowDone == old(db.slowDone)
                                + (if scaled then [ScaleNeedNew, ScaleCreateCommit(chosen)] else [ScaleNothing])
              && (|LiveWorkers(old(db.workers))| < db.c.maxWorkers ==> scaled)
              && (scaled ==> && |LiveWorkers(db.workers)| == |LiveWorkers(old(db.workers))| + 1
                             && |LiveWorkers(db.workers)| <= db.c.maxWorkers + if emergency then 1 else 0)
              && (emergency ==> EmergencySeen(db.c, db.run, |old(db.run)| - 1))
              && (!scaled && !emergency ==> EmergencyDenied(db.c, db.run, |old(db.run)| - 1))
    ensures Turn(old(db.slowDone), db.slowDone, UpStep(old(db.workers), scaled, chosen))
    ensures EndsDecision(db.run, db.steps, |old(db.run)| - 1)
  {
    hide Next, Behavior, WorkersRest, LiveWorkers, OneDecision, EndsDecision, EmergencySeen, EmergencyDenied;
    hide SlowOnes, FastOnes, Turn;
    var stopped := Spares(db.workers);
    emergency, chosen := false, 0;
    if stopped != {} {
      ghost var x := Pick(stopped);
      assert x in stopped;
      var w :| w in stopped;
      ghost var done := db.slowDone;
      RestartStopped(db, w);
      TurnOfTwo(done, ScaleFindStopped(w), ScaleRestartCommit);
      return true, false, w;
    }
    scaled, emergency, chosen := CreateMore(db);
  }

  /** The part of `_scale_up` for when no stopped worker can be restarted. */
  method CreateMore(db: Deployment) returns (scaled: bool, emergency: bool, chosen: WorkerId)
    requires db.Valid() && db.Cur().slow.Scaling?
    modifies db
    ensures db.Valid() && old(db.run) <= db.run && db.Cur().slow.Scaled?
    ensures |LiveWorkers(db.workers)| == |LiveWorkers(old(db.workers))| + if scaled then 1 else 0
    ensures db.slowDone
            == old(db.slowDone) + if scaled then [ScaleNeedNew, ScaleCreateCommit(chosen)] else [ScaleNothing]
    ensures |LiveWorkers(old(db.workers))| < db.c.maxWorkers ==> scaled
    ensures scaled ==> |LiveWorkers(db.workers)| <= db.c.maxWorkers + if emergency then 1 else 0
    ensures emergency ==> EmergencySeen(db.c, db.run, |old(db.run)| - 1)
    ensures !scaled && !emergency ==> EmergencyDenied(db.c, db.run, |old(db.run)| - 1)
    ensures Turn(old(db.slowDone), db.slowDone, if scaled then ScaleCreateCommit(chosen) else ScaleNothing)
    ensures EndsDecision(db.run, db.steps, |old(db.run)| - 1)
  {
    hide Next, Behavior, LiveWorkers, OneDecision, EndsDecision, EmergencySeen, EmergencyDenied;
    hide SlowOnes, FastOnes, Turn;
    ghost var start, done := |db.run| - 1, db.slowDone;
    chosen := 0;
    RestLive(db);
    ghost var r1 := db.run;
    scaled, emergency := MayCreate(db);
    ghost var r2 := db.run;
    Joined(r1, r2, start);
    if scaled {
      chosen := CreateWorker(db);
      TurnOfTwo(done, ScaleNeedNew, ScaleCreateCommit(chosen));
    } else {
      ScaleNot(db);
    }
    EndsAfter(r2, db.run, db.steps, start);
    EmergencyStands(db.c, r2, |r1| - 1, db.run, start);
  }

  lemma EmergencyStands(c: Config, run: seq<State>, i: nat, run': seq<State>, i': nat)
    requires run <= run' && i' <= i
    ensures EmergencySeen(c, run, i) ==> EmergencySeen(c, run', i')
    ensures EmergencyDenied(c, run, i) ==> EmergencyDenied(c, run', i')
  {
    hide ServiceableSet, SomeStalled;
    if EmergencySeen(c, run, i) {
      var k, m :| i <= k <= m < |run| && SomeStalled(c, run[k]) && ServiceableSet(c, run[m].workers) == {};
      assert run'[k] == run[k] && run'[m] == run[m];
    }
    if EmergencyDenied(c, run, i) {
      var k :| i <= k < |run| && (!SomeStalled(c, run[k]) || ServiceableSet(c, run[k].workers) != {});
      assert run'[k] == run[k];
    }
  }

  /** The workers that have been idle since before the given time. */
  function IdleWorkers(tasks: Tasks, workers: Workers, before: Time): set<WorkerId> {
    set w | w in workers && IdleSince(tasks, w, workers[w], before)
  }

  /** The idle worker that scaling down drains. */
  method DrainIdle(db: Deployment) returns (idle: Option<WorkerId>)
    requires db.Valid() && db.Cur().slow.Scaling?
    modifies db
    ensures db.Valid() && old(db.run) <= db.run && db.Cur().slow.Scaled?
    ensures LiveWorkers(db.workers) == LiveWorkers(old(db.workers))
    ensures idle.None? <==> IdleWorkers(old(db.tasks), old(db.workers), old(db.now) - db.c.idleCooldown) == {}
    ensures idle.None? ==> db.slowDone == old(db.slowDone) + [ScaleNothing] && db.workers == old(db.workers)
    ensures idle.Some? ==>
              && idle.value in IdleWorkers(old(db.tasks), old(db.workers), old(db.now) - db.c.idleCooldown)
              && idle.value in db.workers && db.workers[idle.value].draining
              && db.workers[idle.value].drainTarget == Some(WantStopped)
              && db.slowDone == old(db.slowDone) + [ScaleIdle(idle.value), ScaleDrainCommit]
    ensures Turn(old(db.slowDone), db.slowDone, if idle.Some? then ScaleDrainCommit else ScaleNothing)
    ensures EndsDecision(db.run, db.steps, |old(db.run)| - 1)
  {
    hide Next, Behavior, WorkersRest, LiveWorkers, OneDecision, EndsDecision, SlowOnes, FastOnes, Turn;
    ghost var done := db.slowDone;
    var candidates := IdleWorkers(db.tasks, db.workers, db.now - db.c.idleCooldown);
    if candidates == {} {
      ScaleNot(db);
      return None;
    }
    ghost var x := Pick(candidates);
    assert x in candidates;
    var w :| w in candidates;
    DrainFound(db, w);
    TurnOfTwo(done, ScaleIdle(w), ScaleDrainCommit);
    return Some(w);
  }

  /** The drain of the worker that was found idle, in a later session. */
  method DrainFound(db: Deployment, w: WorkerId)
    requires db.Valid() && db.Cur().slow.Scaling? && w in IdleWorkers(db.tasks, db.workers, db.now - db.c.idleCooldown)
    modifies db
    ensures db.Valid() && old(db.run) <= db.run && db.Cur().slow.Scaled?
    ensures LiveWorkers(db.workers) == LiveWorkers(old(db.workers))
    ensures w in db.workers && db.workers[w].draining && db.workers[w].drainTarget == Some(WantStopped)
    ensures db.slowDone == old(db.slowDone) + [ScaleIdle(w), ScaleDrainCommit]
    ensures EndsDecision(db.run, db.steps, |old(db.run)| - 1)
  {
    hide Next, Behavior, LiveWorkers, OneDecision, EndsDecision, IdleSince, SlowOnes, FastOnes;
    ghost var before := db.run;
    assert w in db.workers && IdleSince(db.tasks, w, db.workers[w], db.now - db.c.idleCooldown);
    hide IdleWorkers;
    ScaleSteps(db.c, db.Cur(), w);
    db.Record(Slow(ScaleIdle(w)));
    ghost var found := db.run;
    OneStepDecides(before, Last(found));
    RestLive(db);
    Joined(found, db.run, |before| - 1);
    ScaleCommitSteps(db.c, db.Cur(), 0);
    DrainKeepsLive(db.workers, w);
    db.workers := db.workers[w := DrainIntended(db.workers[w], WantStopped)];
    RecordEnd(db, ScaleDrainCommit, |before| - 1);
  }

  /** The log of a turn: a drain only when the signal says down, a creation only when it says up. */
  ghost predicate TurnFor(signal: Signal, before: seq<SlowStep>, after: seq<SlowStep>) {
    && SlowOnly(before, after, Scales) && after != []
    && (Last(after).ScaleDrainCommit? ==> signal.ShouldScaleDown())
    && (Last(after).ScaleCreateCommit? ==> signal.ShouldScaleUp())
  }

  /** The autoscaler, with its memory of the last time it scaled up. */
  class Autoscaler {
    const db: Deployment
    var lastScaleUp: Option<Time>

    constructor (db: Deployment)
      ensures this.db == db && lastScaleUp.None?
    {
      this.db := db;
      lastScaleUp := None;
    }

    /** What `_apply_autoscaling` does about a signal: nothing while it cools down, unless no worker serves or
        starts; else a step up; or the drain of an idle worker; or nothing. */
    method Act(signal: Signal)
      requires db.Valid() && db.Cur().slow.Scaling?
      modifies db, this
      ensures db.Valid() && old(db.run) <= db.run && db.Cur().slow.Scaled?
      ensures signal.ShouldScaleUp() && Cooling(signal, old(db.now), old(lastScaleUp)) ==>
                db.slowDone == old(db.slowDone) + [ScaleNothing] && lastScaleUp == old(lastScaleUp)
      ensures signal.ShouldScaleUp() && !Cooling(signal, old(db.now), old(lastScaleUp)) ==>
                lastScaleUp == (if db.slowDone == old(db.slowDone) + [ScaleNothing] then old(lastScaleUp)
                                else Some(old(db.now)))
      ensures !signal.ShouldScaleUp() ==> |LiveWorkers(db.workers)| == |LiveWorkers(old(db.workers))|
                                          && lastScaleUp == old(lastScaleUp)
      ensures !signal.ShouldScaleUp() && !signal.ShouldScaleDown() ==> db.slowDone == old(db.slowDone) + [ScaleNothing]
      ensures |LiveWorkers(db.workers)| <= |LiveWorkers(old(db.workers))| + 1
      ensures |LiveWorkers(db.workers)| > |LiveWorkers(old(db.workers))| ==>
                |LiveWorkers(db.workers)| <= db.c.maxWorkers + 1
      ensures EndsDecision(db.run, db.steps, |old(db.run)| - 1)
      ensures TurnFor(signal, old(db.slowDone), db.slowDone)
    {
      hide Next, Behavior, WorkersRest, LiveWorkers, Spares, IdleWorkers, EndsDecision, SlowOnes, FastOnes;
      hide EmergencySeen, EmergencyDenied, SlowOnly;
      if signal.ShouldScaleUp() {
        var now := db.now;
        if Cooling(signal, now, lastScaleUp) {
          ScaleNot(db);
          return;
        }
        var scaled, _, chosen := ScaleUp(db);
        if scaled {
          lastScaleUp := Some(now);
        }
      } else if signal.ShouldScaleDown() {
        var idle := DrainIdle(db);
      } else {
        ScaleNot(db);
      }
    }

    /** The last step up was too recent, and some worker serves or starts. */
    predicate Cooling(signal: Signal, now: Time, last: Option<Time>) {
      var provisioned := signal.inputs.serviceable + signal.inputs.starting;
      var zeroRecovery := provisioned == 0 && signal.desired > 0;
      !zeroRecovery && last.Some? && now - last.value < db.c.scaleUpCooldown
    }

    /** `_apply_autoscaling`: at most one worker is added, never beyond the limit by more than one. What is
        decided is decided by counts taken in this turn; when it drains or creates a worker, the counts and
        the commit belong to one decision of the history. */
    method ApplyAutoscaling() returns (signal: Signal, ghost at: Moments)
      requires db.Valid() && db.Cur().slow.Scaling?
      modifies db, this
      ensures db.Valid() && old(db.run) < db.run && db.Cur().slow.Scaled?
      ensures |LiveWorkers(db.workers)| <= |LiveWorkers(old(db.workers))| + 1
      ensures |LiveWorkers(db.workers)| > |LiveWorkers(old(db.workers))| ==>
                |LiveWorkers(db.workers)| <= db.c.maxWorkers + 1
      ensures |old(db.run)| - 1 <= at.queue && CountedAt(db.c, db.run, at, signal.inputs)
      ensures signal == ComputeSignal(signal.inputs, db.c.targetPerWorker, db.c.minWorkers, db.c.maxWorkers)
      ensures EndsDecision(db.run, db.steps, at.serviceable)
      ensures TurnFor(signal, old(db.slowDone), db.slowDone)
    {
      hide Next, Behavior, WorkersRest, LiveWorkers, EndsDecision, OneDecision, CountedAt, SlowOnes, FastOnes, TurnFor;
      RestLive(db);
      ghost var start := |db.run| - 1;
      signal, at := ComputeScalingSignal(db);
      ghost var counted := db.run;
      Act(signal);
      CountsStand(db.c, counted, db.run, at, signal.inputs);
      LaterPart(db.c, counted, start, at, signal.inputs);
      EndsAfter(counted, db.run, db.steps, at.serviceable);
    }
  }

  /** A stretch of one decision is one from each of the moments of the counts on. */
  lemma LaterPart(c: Config, run: seq<State>, i: nat, at: Moments, inputs: Inputs)
    requires i <= at.queue && CountedAt(c, run, at, inputs) && OneDecision(run, i, |run| - 1)
    ensures OneDecision(run, at.serviceable, |run| - 1) && at.serviceable < |run|
  {
  }
}
