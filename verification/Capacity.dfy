/** The autoscaler over whole runs (scheduler/scheduler.py, _apply_autoscaling): its counts are sessions of
    their own, and what it decides is committed later, with everything else running in between. */
module Capacity {
  import opened Wrappers
  import opened Rows
  import opened Scaling
  import opened Autoscale
  import opened Protocol
  import opened Invariant
  import opened Runs
  import opened Theorems
  import opened WorkerTheorems

  /** The slow loop is deciding whether to drain or to create a worker. */
  predicate Deciding(s: State) {
    s.slow.Scaling? || s.slow.ScaleDrain? || s.slow.ScaleCreate?
  }

  /** The same decision from state i to state j. */
  ghost predicate OneDecision(run: seq<State>, i: nat, j: nat) {
    j < |run| && forall k | i <= k <= j :: Deciding(run[k])
  }

  predicate Drains(step: Step, w: WorkerId) {
    step.Admin? && step.a.AdminDrain? && step.a.w == w
  }

  ghost predicate DrainedDuring(steps: seq<Step>, i: nat, j: nat, w: WorkerId) {
    exists k | i <= k < j && k < |steps| :: Drains(steps[k], w)
  }

  // ---------- one step of a decision ----------

  /** Of the workers that are counted, the step takes those that are drained, and adds none but a recovered one. */
  ghost predicate CountsFollow(c: Config, s: State, step: Step, s': State) {
    && (forall w :: w in ServiceableSet(c, s'.workers) <==> w in ServiceableSet(c, s.workers) && !Drains(step, w))
    && (forall w :: w in StartingSet(c, s.workers) && !Drains(step, w) ==> w in StartingSet(c, s'.workers))
    && (forall w :: w in StartingSet(c, s'.workers) ==>
          (w in StartingSet(c, s.workers) && !Drains(step, w)) || step == Admin(AdminRecover(w)))
  }

  lemma SameRowsCount(c: Config, s: State, step: Step, s': State)
    requires s'.workers == s.workers && !step.Admin?
    ensures CountsFollow(c, s, step, s')
  {
  }

  lemma AdminCounts(c: Config, s: State, a: AdminStep, s': State)
    requires AdminNext(s, a) == Some(s') && RowsOk(c, s.workers)
    ensures CountsFollow(c, s, Admin(a), s')
  {
    assert RowOk(c, s.workers[a.w]);
    assert forall w <- s.workers :: w != a.w ==> s'.workers[w] == s.workers[w];
    hide RowsOk;
    OtherRowsCount(c, s, Admin(a), s', a.w);
  }

  /** The row of w counts as it did, unless it is drained or recovered; the others are the same. */
  lemma OtherRowsCount(c: Config, s: State, step: Step, s': State, w: WorkerId)
    requires step.Admin? && step.a.w == w && s'.workers.Keys == s.workers.Keys && w in s.workers
    requires forall v <- s.workers :: v != w ==> s'.workers[v] == s.workers[v]
    requires Serviceable(c, s'.workers[w]) <==> Serviceable(c, s.workers[w]) && !Drains(step, w)
    requires Provisioning(c, s.workers[w]) && !Drains(step, w) ==> Provisioning(c, s'.workers[w])
    requires Provisioning(c, s'.workers[w]) ==>
               (Provisioning(c, s.workers[w]) && !Drains(step, w)) || step == Admin(AdminRecover(w))
    ensures CountsFollow(c, s, step, s')
  {
    hide Serviceable, Provisioning;
  }

  lemma TouchCounts(c: Config, s: State, f: FastStep, s': State)
    requires FastNext(c, s, f) == Some(s')
    ensures CountsFollow(c, s, Fast(f), s')
  {
    FastTouches(c, s, f, s');
    hide FastNext;
    if s'.workers == s.workers {
      SameRowsCount(c, s, Fast(f), s');
    } else {
      var w :| s'.workers == Touched(s, w);
      assert forall v <- s.workers :: Serviceable(c, s'.workers[v]) == Serviceable(c, s.workers[v])
                                      && Provisioning(c, s'.workers[v]) == Provisioning(c, s.workers[v]);
    }
  }

  lemma DecidingSlow(c: Config, s: State, l: SlowStep, s': State)
    requires Deciding(s) && Deciding(s') && SlowNext(c, s, l) == Some(s')
    ensures s'.workers == s.workers
  {
    hide IdleSince, LiveWorkers;
  }

  lemma StepCounts(c: Config, s: State, step: Step, s': State)
    requires Inv(c, s) && Next(c, s, step) == Some(s') && Deciding(s) && Deciding(s')
    ensures CountsFollow(c, s, step, s')
  {
    assert RowsOk(c, s.workers);
    hide Inv, RowsOk, GatewayNext, AdminNext, FastNext, SlowNext, CountsFollow;
    match step
    case Gateway(g) =>
      GatewayFollows(s, g, s');
      SameRowsCount(c, s, step, s');
    case Admin(a) => AdminCounts(c, s, a, s');
    case Fast(f) => TouchCounts(c, s, f, s');
    case Slow(l) =>
      DecidingSlow(c, s, l, s');
      SameRowsCount(c, s, step, s');
    case Tick(_) => SameRowsCount(c, s, step, s');
  }

  // ---------- a whole decision ----------

  /** While a decision is on its way the workers in service become fewer only as an administrator drains
      them, and never more; those starting change in no other way either, but for the recovered ones. */
  lemma {:induction false} CountsOverDecision(c: Config, run: seq<State>, steps: seq<Step>, i: nat, j: nat)
    requires Behavior(c, run, steps) && i <= j && OneDecision(run, i, j)
    ensures forall w :: w in ServiceableSet(c, run[j].workers) <==>
                          w in ServiceableSet(c, run[i].workers) && !DrainedDuring(steps, i, j, w)
    ensures forall w :: w in StartingSet(c, run[i].workers) && !DrainedDuring(steps, i, j, w) ==>
                          w in StartingSet(c, run[j].workers)
    ensures forall w :: w in StartingSet(c, run[j].workers) ==>
                          || (w in StartingSet(c, run[i].workers) && !DrainedDuring(steps, i, j, w))
                          || RecoveredDuring(steps, i, j, w)
    decreases j - i
  {
    if i < j {
      var m := j - 1;
      CountsOverDecision(c, run, steps, i, m);
      InvAlways(c, run, steps, m);
      assert Follows(c, run, steps, m);
      hide Inv, Next, Serviceable, Provisioning, ServiceableSet, StartingSet, Behavior, Drains;
      StepCounts(c, run[m], steps[m], run[j]);
      forall w
        ensures DrainedDuring(steps, i, j, w) <==> DrainedDuring(steps, i, m, w) || Drains(steps[m], w)
        ensures RecoveredDuring(steps, i, j, w) <==>
                  RecoveredDuring(steps, i, m, w) || steps[m] == Admin(AdminRecover(w))
      {
        LastOfStretch(steps, i, m, w);
      }
    }
  }

  lemma LastOfStretch(steps: seq<Step>, i: nat, m: nat, w: WorkerId)
    requires i <= m < |steps|
    ensures DrainedDuring(steps, i, m + 1, w) <==> DrainedDuring(steps, i, m, w) || Drains(steps[m], w)
    ensures RecoveredDuring(steps, i, m + 1, w) <==>
              RecoveredDuring(steps, i, m, w) || steps[m] == Admin(AdminRecover(w))
  {
  }

  /** Of the given workers, those an administrator drains in the stretch. */
  ghost function DrainedOf(ws: set<WorkerId>, steps: seq<Step>, i: nat, j: nat): set<WorkerId> {
    set w | w in ws && DrainedDuring(steps, i, j, w)
  }

  lemma CountsLeft(c: Config, run: seq<State>, steps: seq<Step>, i: nat, j: nat)
    requires Behavior(c, run, steps) && i <= j && OneDecision(run, i, j)
    ensures var counted := ServiceableSet(c, run[i].workers);
            ServiceableSet(c, run[j].workers) == counted - DrainedOf(counted, steps, i, j)
    ensures var starting := StartingSet(c, run[i].workers);
            starting - DrainedOf(starting, steps, i, j) <= StartingSet(c, run[j].workers)
    ensures forall w <- Joining(c, run, steps, i, j) :: RecoveredDuring(steps, i, j, w)
  {
    hide Behavior, ServiceableSet, StartingSet, DrainedDuring, RecoveredDuring;
    CountsOverDecision(c, run, steps, i, j);
    var counted := ServiceableSet(c, run[i].workers);
    forall w
      ensures w in ServiceableSet(c, run[j].workers) <==> w in counted - DrainedOf(counted, steps, i, j)
    {
    }
    assert ServiceableSet(c, run[j].workers) == counted - DrainedOf(counted, steps, i, j);
  }

  /** The workers that come to count as starting in the stretch. */
  ghost function Joining(c: Config, run: seq<State>, steps: seq<Step>, i: nat, j: nat): set<WorkerId>
    requires i < |run| && j < |run|
  {
    var starting := StartingSet(c, run[i].workers);
    StartingSet(c, run[j].workers) - (starting - DrainedOf(starting, steps, i, j))
  }

  /** The decision that begins at state i, where the workers in service are counted, drains worker w by the
      step after state j. */
  ghost predicate DrainDecided(run: seq<State>, steps: seq<Step>, i: nat, j: nat, w: WorkerId) {
    && |run| == |steps| + 1 && i <= j < |steps| && OneDecision(run, i, j)
    && run[j].slow == ScaleDrain(w) && steps[j] == Slow(ScaleDrainCommit)
  }

  /** The decision that begins at state i creates worker id by the step after state j. */
  ghost predicate CreateDecided(run: seq<State>, steps: seq<Step>, i: nat, j: nat, id: WorkerId) {
    && |run| == |steps| + 1 && i <= j < |steps| && OneDecision(run, i, j)
    && run[j].slow.ScaleCreate? && steps[j] == Slow(ScaleCreateCommit(id))
  }

  lemma DrainCommits(c: Config, s: State, s': State)
    requires s.slow.ScaleDrain? && SlowNext(c, s, ScaleDrainCommit) == Some(s')
    ensures ServiceableSet(c, s'.workers) == ServiceableSet(c, s.workers) - {s.slow.w}
  {
  }

  lemma CreateCommits(c: Config, s: State, id: WorkerId, s': State)
    requires s.slow.ScaleCreate? && SlowNext(c, s, ScaleCreateCommit(id)) == Some(s')
    requires c.Valid()
    ensures ServiceableSet(c, s'.workers) == ServiceableSet(c, s.workers)
    ensures StartingSet(c, s'.workers) == StartingSet(c, s.workers) + {id} && id !in StartingSet(c, s.workers)
  {
  }

  /** Who goes out of service during the decision: the worker the autoscaler drains, and those an
      administrator drains meanwhile. */
  ghost function Gone(c: Config, run: seq<State>, steps: seq<Step>, i: nat, j: nat, w: WorkerId): set<WorkerId>
    requires i < |run|
  {
    var counted := ServiceableSet(c, run[i].workers);
    DrainedOf(counted, steps, i, j) + counted * {w}
  }

  lemma LeftAfterDrain(c: Config, run: seq<State>, steps: seq<Step>, i: nat, j: nat, w: WorkerId)
    requires Behavior(c, run, steps) && DrainDecided(run, steps, i, j, w)
    ensures ServiceableSet(c, run[j + 1].workers)
            == ServiceableSet(c, run[i].workers) - Gone(c, run, steps, i, j, w)
  {
    CountsLeft(c, run, steps, i, j);
    assert Follows(c, run, steps, j);
    DrainCommits(c, run[j], run[j + 1]);
    hide Next, Behavior, OneDecision, ServiceableSet, DrainedOf;
  }

  /** How far scaling down leaves enough workers in service, exactly. Between the count and the commit the
      autoscaler's own victim and the workers an administrator drains go out of service, and nobody else; so
      the desired number is left if and only if no more of the counted workers go than there were too many.
      When nobody drains another worker in between, it is always left. */
  lemma DrainKeepsCapacityIff(
      c: Config, run: seq<State>, steps: seq<Step>, i: nat, j: nat, w: WorkerId, signal: Signal)
    requires Behavior(c, run, steps) && DrainDecided(run, steps, i, j, w)
    requires signal.ShouldScaleDown() && signal.inputs.serviceable == |ServiceableSet(c, run[i].workers)|
    ensures var counted, left := ServiceableSet(c, run[i].workers), ServiceableSet(c, run[j + 1].workers);
            var gone := Gone(c, run, steps, i, j, w);
            && left == counted - gone
            && (|left| >= signal.desired <==> |gone| <= |counted| - signal.desired)
            && (DrainedOf(counted, steps, i, j) <= {w} ==> |left| >= signal.desired)
  {
    LeftAfterDrain(c, run, steps, i, j, w);
    hide Behavior, OneDecision, ServiceableSet, DrainedDuring;
    var counted, gone := ServiceableSet(c, run[i].workers), Gone(c, run, steps, i, j, w);
    Fewer(counted, gone);
    if DrainedOf(counted, steps, i, j) <= {w} {
      AtMostOne(gone, w);
    }
  }

  lemma Fewer(ws: set<WorkerId>, gone: set<WorkerId>)
    requires gone <= ws
    ensures |ws - gone| == |ws| - |gone|
  {
    assert ws == (ws - gone) + gone;
  }

  lemma AtMostOne(ws: set<WorkerId>, w: WorkerId)
    requires ws <= {w}
    ensures |ws| <= 1
  {
    if w in ws {
      assert ws == {w};
    } else {
      assert ws == {};
    }
  }

  /** Scaling up across its separate counts, those in service at state i and those starting at state m. Every
      worker that comes to count as starting in between is one an administrator recovers. Beyond those, the
      new worker never opens a surplus; and it closes the gap by exactly one if and only if as many come to
      count as are drained of those that were counted. */
  lemma CreationClosesGapIff(
      c: Config, run: seq<State>, steps: seq<Step>, i: nat, m: nat, j: nat, id: WorkerId, signal: Signal)
    requires Behavior(c, run, steps) && CreateDecided(run, steps, i, j, id) && i <= m <= j
    requires signal.ShouldScaleUp() && signal.inputs.serviceable == |ServiceableSet(c, run[i].workers)|
    requires signal.inputs.starting == |StartingSet(c, run[m].workers)|
    ensures var serving, starting := ServiceableSet(c, run[i].workers), StartingSet(c, run[m].workers);
            var joining, ws := Joining(c, run, steps, m, j), run[j + 1].workers;
            var lost := |DrainedOf(serving, steps, i, j)| + |DrainedOf(starting, steps, m, j)|;
            var total := |ServiceableSet(c, ws)| + |StartingSet(c, ws)|;
            && (forall w <- joining :: RecoveredDuring(steps, m, j, w))
            && ServiceableSet(c, ws) == serving - DrainedOf(serving, steps, i, j)
            && StartingSet(c, ws) == starting - DrainedOf(starting, steps, m, j) + joining + {id}
            && total - |joining| <= |serving| + |starting| + 1 <= signal.desired
            && (total == |serving| + |starting| + 1 <==> lost == |joining|)
            && (total > signal.desired <==> |joining| > signal.desired - (|serving| + |starting| + 1) + lost)
  {
    CreatedCounts(c, run, steps, i, m, j, id);
    hide Behavior, OneDecision, CreateDecided, ServiceableSet, StartingSet, DrainedOf, Joining, RecoveredDuring;
    var serving, starting := ServiceableSet(c, run[i].workers), StartingSet(c, run[m].workers);
    var joining := Joining(c, run, steps, m, j);
    var kept := starting - DrainedOf(starting, steps, m, j);
    Fewer(serving, DrainedOf(serving, steps, i, j));
    Fewer(starting, DrainedOf(starting, steps, m, j));
    assert |kept + joining| == |kept| + |joining|;
    CardPlus(kept + joining, id);
  }

  /** Who counts after the creation. */
  lemma CreatedCounts(c: Config, run: seq<State>, steps: seq<Step>, i: nat, m: nat, j: nat, id: WorkerId)
    requires Behavior(c, run, steps) && CreateDecided(run, steps, i, j, id) && i <= m <= j
    ensures var serving, starting := ServiceableSet(c, run[i].workers), StartingSet(c, run[m].workers);
            var joining, ws := Joining(c, run, steps, m, j), run[j + 1].workers;
            var kept := starting - DrainedOf(starting, steps, m, j);
            && DrainedOf(serving, steps, i, j) <= serving && DrainedOf(starting, steps, m, j) <= starting
            && (forall w <- joining :: RecoveredDuring(steps, m, j, w))
            && ServiceableSet(c, ws) == serving - DrainedOf(serving, steps, i, j)
            && kept !! joining && id !in kept + joining && StartingSet(c, ws) == kept + joining + {id}
  {
    CountsLeft(c, run, steps, i, j);
    assert OneDecision(run, m, j);
    CountsLeft(c, run, steps, m, j);
    assert Follows(c, run, steps, j);
    CreateCommits(c, run[j], id, run[j + 1]);
    hide Next, Behavior, OneDecision, ServiceableSet, StartingSet, DrainedDuring, RecoveredDuring;
    var starting := StartingSet(c, run[m].workers);
    assert StartingSet(c, run[j].workers)
           == starting - DrainedOf(starting, steps, m, j) + Joining(c, run, steps, m, j);
  }

  // ---------- too few left ----------

  /** A worker that serves, in its second second. */
  function Serving(): Worker {
    NewWorker(0).(cloud := Running, baseUrl := Some("http://w"), healthy := true, readyAt := Some(0),
                  startRequestedAt := None)
  }

  function TwoRows(a: Worker, b: Worker): Workers {
    map[0 := a, 1 := b]
  }

  /** A visit that finds the worker running at an address. */
  lemma VisitFindsRunning(c: Config, s: State, w: WorkerId)
    requires Reachable(c, s) && s.slow.Reconciling? && w in s.slow.todo && w in s.workers
    requires s.slow.todo[w] == s.workers[w] == NewWorker(0) && c.Valid()
    ensures Reachable(c, SetWorker(s, w, NewWorker(0).(cloud := Running, baseUrl := Some("http://w")))
                           .(slow := Reconciling(Without(s.slow.todo, w), s.slow.at)))
  {
    var Reconciling(todo, at) := s.slow;
    var s1 := s.(slow := Visiting(Without(todo, w), at, w, todo[w]));
    assert Next(c, s, Slow(Visit(w))) == Some(s1);
    var s2 := SetWorker(s1, w, NewWorker(0).(cloud := Running));
    assert Next(c, s1, Slow(RecCloud(Running))) == Some(s2);
    var s3 := SetWorker(s1, w, NewWorker(0).(cloud := Running, baseUrl := Some("http://w")));
    assert s3.workers == s2.workers[w := s3.workers[w]];
    assert Next(c, s2, Slow(RecUrl("http://w"))) == Some(s3);
    var s4 := s3.(slow := Reconciling(Without(todo, w), at));
    assert s3.workers == s3.workers[w := s3.workers[w]];
    assert Next(c, s3, Slow(RecReset)) == Some(s4);
    hide Next, Reachable;
    Reached(c, s, Slow(Visit(w)), s1);
    Reached(c, s1, Slow(RecCloud(Running)), s2);
    Reached(c, s2, Slow(RecUrl("http://w")), s3);
    Reached(c, s3, Slow(RecReset), s4);
  }

  lemma TwoAreCreated(c: Config)
    requires c.Valid() && c.maxWorkers >= 2
    ensures Reachable(c, Nothing().(workers := TwoRows(NewWorker(0), NewWorker(0))))
  {
    hide Reachable;
    var s0 := Nothing();
    NothingIsReachable(c);
    assert LiveWorkers(s0.workers) == {};
    Creates(c, s0, 0);
    var s1 := SetWorker(s0, 0, NewWorker(0));
    assert LiveWorkers(s1.workers) == {0};
    Creates(c, s1, 1);
    assert SetWorker(s1, 1, NewWorker(0)).workers == TwoRows(NewWorker(0), NewWorker(0));
  }

  lemma ReconcilesTwo(c: Config, row: Worker)
    requires Live(row)
    ensures var s := Nothing().(workers := TwoRows(row, row));
            Next(c, s, Slow(ReconcileList)) == Some(s.(slow := Reconciling(s.workers, 0)))
  {
    var s := Nothing().(workers := TwoRows(row, row));
    var listed := Select(s.workers, Live);
    assert listed.Keys == s.workers.Keys && listed == s.workers;
    assert Next(c, s, Slow(ReconcileList)) == Some(s.(slow := Reconciling(listed, 0)));
  }

  lemma ProbesTwo(c: Config)
    ensures var row := NewWorker(0).(cloud := Running, baseUrl := Some("http://w"));
            var s := Nothing().(workers := TwoRows(row, row), slow := Converged);
            && Next(c, s, Slow(HealthList({0, 1}))) == Some(s.(slow := Probing({0, 1})))
            && Next(c, s.(slow := Probing({0, 1})), Slow(HealthApply({0, 1})))
               == Some(s.(workers := TwoRows(Serving(), Serving()), slow := Scaling))
  {
    hide GatewayNext, AdminNext, FastNext, Select, Finalized;
    var row := NewWorker(0).(cloud := Running, baseUrl := Some("http://w"));
    var s := Nothing().(workers := TwoRows(row, row), slow := Probing({0, 1}));
    var s' := Next(c, s, Slow(HealthApply({0, 1}))).value;
    assert Probed(row, true, 0) == Serving();
    assert s'.workers.Keys == {0, 1} && s'.workers[0] == Serving() && s'.workers[1] == Serving();
    assert s'.workers == TwoRows(Serving(), Serving());
  }

  /** Two workers serve, and the autoscaler is about to decide. */
  lemma TwoServe(c: Config)
    requires c.Valid() && c.maxWorkers >= 2
    ensures Reachable(c, Nothing().(workers := TwoRows(Serving(), Serving()), slow := Scaling))
  {
    hide Next, Reachable;
    var created, row := NewWorker(0), NewWorker(0).(cloud := Running, baseUrl := Some("http://w"));
    var s := Nothing().(workers := TwoRows(created, created));
    TwoAreCreated(c);
    ReconcilesTwo(c, created);
    var s1 := s.(slow := Reconciling(s.workers, 0));
    Reached(c, s, Slow(ReconcileList), s1);
    VisitFindsRunning(c, s1, 0);
    var s2 := SetWorker(s1, 0, row).(slow := Reconciling(Without(s.workers, 0), 0));
    VisitFindsRunning(c, s2, 1);
    var s3 := Nothing().(workers := TwoRows(row, row), slow := Reconciling(map[], 0));
    assert SetWorker(s2, 1, row).workers == s3.workers && Without(Without(s.workers, 0), 1) == map[];
    var s4 := s3.(slow := SlowIdle);
    AbortStep(c, s3);
    Reached(c, s3, Slow(SlowAbort), s4);
    NoneStalledSteps(c, s4);
    Reached(c, s4, Slow(ConvergeList), s4.(slow := Converging(map[], 0)));
    Reached(c, s4.(slow := Converging(map[], 0)), Slow(ConvergeDone), s4.(slow := Converged));
    ProbesTwo(c);
    var s5 := s4.(slow := Probing({0, 1}));
    Reached(c, s4.(slow := Converged), Slow(HealthList({0, 1})), s5);
    Reached(c, s5, Slow(HealthApply({0, 1})), Nothing().(workers := TwoRows(Serving(), Serving()), slow := Scaling));
  }

  /** Two serving workers, counted by an autoscaler that wants one; an administrator drains the second
      between the decision to drain the first and its commit. */
  lemma DrainMeetsDrain(c: Config, s: State)
    requires s.slow.Scaling? && s.workers == TwoRows(Serving(), Serving()) && s.tasks == map[]
    requires s.now > c.idleCooldown
    ensures var s1 := s.(slow := ScaleDrain(0));
            var s2 := SetWorker(s1, 1, DrainIntended(Serving(), WantStopped));
            && Next(c, s, Slow(ScaleIdle(0))) == Some(s1)
            && Next(c, s1, Admin(AdminDrain(1, false))) == Some(s2)
            && Next(c, s2, Slow(ScaleDrainCommit))
               == Some(SetWorker(s2, 0, DrainIntended(Serving(), WantStopped)).(slow := Scaled))
  {
  }

  lemma TwoAreTooMany(c: Config)
    requires c.Valid() && c.minWorkers == 1 && c.maxWorkers >= 2
    ensures var signal := SignalOf(c, map[], TwoRows(Serving(), Serving()));
            && signal.ShouldScaleDown() && signal.desired == 1
            && signal.inputs.serviceable == |ServiceableSet(c, TwoRows(Serving(), Serving()))|
  {
    var ws := TwoRows(Serving(), Serving());
    assert QueueSet(map[]) == {} && ServiceableSet(c, ws) == {0, 1};
    assert StartingSet(c, ws) == {} && DrainingSet(ws) == {} && StoppingSet(ws) == {};
  }

  lemma NoneServe(c: Config)
    ensures var row := DrainIntended(Serving(), WantStopped);
            ServiceableSet(c, TwoRows(Serving(), Serving())[1 := row][0 := row]) == {}
  {
  }

  /** The condition on administrators is needed: in a reachable run with all five counts taken of one state,
      the autoscaler wants one worker, two serve, and none is left after the commit. */
  lemma DrainCanLeaveTooFew(c: Config)
    requires c.Valid() && c.minWorkers == 1 && c.maxWorkers >= 2
    ensures exists run: seq<State>, steps: seq<Step>, i: nat, j: nat ::
              && Behavior(c, run, steps) && DrainDecided(run, steps, i, j, 0)
              && SignalOf(c, run[i].tasks, run[i].workers).ShouldScaleDown()
              && |ServiceableSet(c, run[j + 1].workers)| < SignalOf(c, run[i].tasks, run[i].workers).desired
  {
    TwoServe(c);
    TwoAreTooMany(c);
    var s0 := Nothing().(workers := TwoRows(Serving(), Serving()), slow := Scaling);
    var before, done :| Behavior(c, before, done) && before != [] && Last(before) == s0;
    RunLength(c, before, done);
    var s := s0.(now := c.idleCooldown + 1);
    assert Next(c, s0, Tick(s.now)) == Some(s);
    DrainMeetsDrain(c, s);
    NoneServe(c);
    hide Next, Behavior, SignalOf, DrainIntended, ServiceableSet, Serving, TwoRows;
    var s1 := s.(slow := ScaleDrain(0));
    var s2 := SetWorker(s1, 1, DrainIntended(Serving(), WantStopped));
    var s3 := SetWorker(s2, 0, DrainIntended(Serving(), WantStopped)).(slow := Scaled);
    var run1, steps1 := before + [s], done + [Tick(s.now)];
    OneMore(c, before, done, Tick(s.now), s);
    var run2, steps2 := run1 + [s1], steps1 + [Slow(ScaleIdle(0))];
    OneMore(c, run1, steps1, Slow(ScaleIdle(0)), s1);
    var run3, steps3 := run2 + [s2], steps2 + [Admin(AdminDrain(1, false))];
    OneMore(c, run2, steps2, Admin(AdminDrain(1, false)), s2);
    var run, steps := run3 + [s3], steps3 + [Slow(ScaleDrainCommit)];
    OneMore(c, run3, steps3, Slow(ScaleDrainCommit), s3);
    var i := |before|;
    assert run[i] == s && run[i + 1] == s1 && run[i + 2] == s2 && run[i + 3] == s3;
    assert OneDecision(run, i, i + 2);
    assert DrainDecided(run, steps, i, i + 2, 0);
  }
}
