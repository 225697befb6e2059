/** Runs continued step by step, and the states that runs reach. */
module Runs {
  import opened Wrappers
  import opened Rows
  import opened Protocol

  lemma BehaviorGrows(c: Config, run: seq<State>, steps: seq<Step>, step: Step, s': State)
    requires Behavior(c, run, steps) && Next(c, run[|run| - 1], step) == Some(s')
    ensures Behavior(c, run + [s'], steps + [step])
  {
    hide Next;
    var run', steps' := run + [s'], steps + [step];
    forall i | 0 <= i < |steps'|
      ensures Follows(c, run', steps', i)
    {
      if i < |steps| {
        assert Follows(c, run, steps, i);
      }
    }
  }

  ghost predicate Continues(c: Config, run: seq<State>, steps: seq<Step>, run': seq<State>, steps': seq<Step>) {
    Behavior(c, run', steps') && run <= run' && steps <= steps'
  }

  lemma OneMore(c: Config, run: seq<State>, steps: seq<Step>, step: Step, s': State)
    requires Behavior(c, run, steps) && Next(c, Last(run), step) == Some(s')
    ensures Continues(c, run, steps, run + [s'], steps + [step]) && Last(run + [s']) == s'
  {
    hide Next, Behavior;
    BehaviorGrows(c, run, steps, step, s');
  }

  lemma RunLength(c: Config, run: seq<State>, steps: seq<Step>)
    requires Behavior(c, run, steps)
    ensures |run| == |steps| + 1 && c.Valid()
  {
  }

  ghost predicate Reachable(c: Config, s: State) {
    exists run, steps :: Behavior(c, run, steps) && run != [] && Last(run) == s
  }

  lemma Reached(c: Config, s: State, step: Step, s': State)
    requires Reachable(c, s) && Next(c, s, step) == Some(s')
    ensures Reachable(c, s')
  {
    hide Next, Behavior;
    var run, steps :| Behavior(c, run, steps) && run != [] && Last(run) == s;
    OneMore(c, run, steps, step, s');
  }

  function Nothing(): State {
    State(map[], map[], map[], 0, FastIdle, SlowIdle, {}, map[], {}, {}, {}, {}, {})
  }

  lemma NothingIsReachable(c: Config)
    requires c.Valid()
    ensures Reachable(c, Nothing())
  {
    assert Behavior(c, [Nothing()], []) && Last([Nothing()]) == Nothing();
  }

  lemma NoneStalledSteps(c: Config, s: State)
    requires s.slow.SlowIdle? && forall w <- s.workers :: !StalledAndActive(c, s.workers[w])
    ensures Next(c, s, Slow(ConvergeList)) == Some(s.(slow := Converging(map[], s.now)))
    ensures Next(c, s.(slow := Converging(map[], s.now)), Slow(ConvergeDone)) == Some(s.(slow := Converged))
  {
    hide FastNext, GatewayNext, AdminNext, ReconcileNext;
    var stalled := Select(s.workers, row => StalledAndActive(c, row));
    forall w
      ensures w !in stalled
    {
      assert w in s.workers ==> !StalledAndActive(c, s.workers[w]);
    }
    assert stalled == map[];
  }

  lemma CreationSteps(c: Config, s: State, id: WorkerId)
    requires id !in s.workers && |LiveWorkers(s.workers)| < c.maxWorkers + 1
    ensures Next(c, s.(slow := Converged), Slow(HealthSkip)) == Some(s.(slow := Scaling))
    ensures Next(c, s.(slow := Scaling), Slow(ScaleNeedNew)) == Some(s.(slow := ScaleCreate))
    ensures Next(c, s.(slow := ScaleCreate), Slow(ScaleCreateCommit(id)))
            == Some(SetWorker(s, id, NewWorker(s.now)).(slow := Scaled))
  {
    hide LiveWorkers, NewWorker, FastNext, GatewayNext, AdminNext, Select;
  }

  lemma AbortStep(c: Config, s: State)
    ensures Next(c, s, Slow(SlowAbort)) == Some(s.(slow := SlowIdle))
  {
  }

  /** From an idle slow loop, with no worker stalled: a tick creates a worker, and is abandoned. */
  lemma Creates(c: Config, s: State, id: WorkerId)
    requires Reachable(c, s) && s.slow.SlowIdle? && id !in s.workers && |LiveWorkers(s.workers)| < c.maxWorkers + 1
    requires forall w <- s.workers :: !StalledAndActive(c, s.workers[w])
    ensures Reachable(c, SetWorker(s, id, NewWorker(s.now)))
  {
    hide Next, Reachable, LiveWorkers, NewWorker, StalledAndActive;
    NoneStalledSteps(c, s);
    CreationSteps(c, s, id);
    var s5 := SetWorker(s, id, NewWorker(s.now)).(slow := Scaled);
    Reached(c, s, Slow(ConvergeList), s.(slow := Converging(map[], s.now)));
    Reached(c, s.(slow := Converging(map[], s.now)), Slow(ConvergeDone), s.(slow := Converged));
    Reached(c, s.(slow := Converged), Slow(HealthSkip), s.(slow := Scaling));
    Reached(c, s.(slow := Scaling), Slow(ScaleNeedNew), s.(slow := ScaleCreate));
    Reached(c, s.(slow := ScaleCreate), Slow(ScaleCreateCommit(id)), s5);
    AbortStep(c, s5);
    Reached(c, s5, Slow(SlowAbort), s5.(slow := SlowIdle));
  }
}
