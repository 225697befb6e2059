/** When retry backoff holds, exactly (worker_repository.py, record_failure): a failure keeps the next one
    away if and only if it leaves the count below the limit. At the limit the retry time is cleared, and a
    worker that is marked for termination is visited again, and fails again, at once. */
module Spacing {
  import opened Wrappers
  import opened Status
  import opened Rows
  import opened Protocol
  import opened Runs
  import opened Backoff

  // ---------- continuing a run ----------

  /** In every state from the given one on, the failure count and the time are these. */
  ghost predicate Still(run: seq<State>, from: nat, w: WorkerId, n: nat, t: Time) {
    forall k | from <= k < |run| :: w in run[k].workers && run[k].workers[w].failureCount == n && run[k].now == t
  }

  lemma StillOneMore(run: seq<State>, from: nat, w: WorkerId, n: nat, s': State)
    requires run != [] && Still(run, from, w, n, Last(run).now) && s'.now == Last(run).now
    requires w in s'.workers && s'.workers[w].failureCount == n
    ensures Still(run + [s'], from, w, n, s'.now)
  {
  }

  // ---------- a pass in which a worker fails ----------

  function Listed(s: State): State {
    s.(slow := Reconciling(Select(s.workers, Live), s.now))
  }

  function Visited(s: State, w: WorkerId): State
    requires w in s.workers
  {
    s.(slow := Visiting(Without(Select(s.workers, Live), w), s.now, w, s.workers[w]))
  }

  function Failed(c: Config, s: State, w: WorkerId): State
    requires w in s.workers
  {
    SetWorker(s, w, FailureRecorded(c, s.workers[w], true, s.now))
      .(slow := Reconciling(Without(Select(s.workers, Live), w), s.now))
  }

  lemma PassSteps(c: Config, s: State, w: WorkerId)
    requires s.slow.SlowIdle? && w in s.workers && Live(s.workers[w]) && !SkipsReconcile(c, s.workers[w], s.now)
    ensures Next(c, s, Slow(ReconcileList)) == Some(Listed(s))
    ensures Next(c, Listed(s), Slow(Visit(w))) == Some(Visited(s, w))
    ensures Next(c, Visited(s, w), Slow(RecFail(true))) == Some(Failed(c, s, w))
  {
    hide SkipsReconcile, FailureRecorded;
  }

  /** From an idle slow loop: the pass lists the worker, visits it and records a failure. */
  lemma FailingPass(c: Config, run: seq<State>, steps: seq<Step>, w: WorkerId)
      returns (run': seq<State>, steps': seq<Step>)
    requires Behavior(c, run, steps) && Last(run).slow.SlowIdle?
    requires w in Last(run).workers && Live(Last(run).workers[w])
    requires !SkipsReconcile(c, Last(run).workers[w], Last(run).now)
    ensures Continues(c, run, steps, run', steps') && |run'| == |run| + 3 && Last(run') == Failed(c, Last(run), w)
    ensures FailsAt(run', steps', |run'| - 2, w)
    ensures run'[|run|].workers == run'[|run| + 1].workers == Last(run).workers
    ensures run'[|run|].now == run'[|run| + 1].now == Last(run).now
  {
    hide Next, Behavior, SkipsReconcile, FailureRecorded;
    RunLength(c, run, steps);
    var s := Last(run);
    PassSteps(c, s, w);
    OneMore(c, run, steps, Slow(ReconcileList), Listed(s));
    var run1, steps1 := run + [Listed(s)], steps + [Slow(ReconcileList)];
    OneMore(c, run1, steps1, Slow(Visit(w)), Visited(s, w));
    var run2, steps2 := run1 + [Visited(s, w)], steps1 + [Slow(Visit(w))];
    OneMore(c, run2, steps2, Slow(RecFail(true)), Failed(c, s, w));
    run', steps' := run2 + [Failed(c, s, w)], steps2 + [Slow(RecFail(true))];
  }

  /** Abandoning a pass changes nothing but the slow loop's place. */
  lemma Abandoned(c: Config, run: seq<State>, steps: seq<Step>) returns (run': seq<State>, steps': seq<Step>)
    requires Behavior(c, run, steps)
    ensures Continues(c, run, steps, run', steps') && run' == run + [Last(run).(slow := SlowIdle)]
  {
    var s' := Last(run).(slow := SlowIdle);
    assert Next(c, Last(run), Slow(SlowAbort)) == Some(s');
    hide Next, Behavior;
    OneMore(c, run, steps, Slow(SlowAbort), s');
    run', steps' := run + [s'], steps + [Slow(SlowAbort)];
  }

  // ---------- marking a stalled worker for termination ----------

  function AtLimit(c: Config, workers: Workers): Workers {
    Select(workers, row => StalledAndActive(c, row))
  }

  /** Nothing keeps a convergence pass from marking the stalled worker now. */
  predicate Markable(c: Config, s: State, w: WorkerId)
    requires w in s.workers
  {
    Unattended(s.tasks, w)
    || (s.workers[w].stalledAt.Some? && s.now - s.workers[w].stalledAt.value >= c.stalledGrace)
  }

  function Marked(s: State, w: WorkerId): State
    requires w in s.workers
  {
    SetWorker(s, w, s.workers[w].(desired := WantTerminated))
      .(quiet := if Unattended(s.tasks, w) then s.quiet + {w} else s.quiet)
  }

  lemma MarkSteps(c: Config, s: State, w: WorkerId)
    requires s.slow.SlowIdle? && w in s.workers && StalledAndActive(c, s.workers[w]) && s.workers[w].stalledAt.Some?
    requires Markable(c, s, w)
    ensures var todo := AtLimit(c, s.workers);
            var rest := Without(todo, w);
            var s1 := s.(slow := Converging(todo, s.now));
            var s2 := s.(slow := ConvergeAt(rest, s.now, w, s.workers[w], !Unattended(s.tasks, w)));
            && Next(c, s, Slow(ConvergeList)) == Some(s1)
            && Next(c, s1, Slow(ConvergeLook(w))) == Some(s2)
            && Next(c, s2, Slow(if Unattended(s.tasks, w) then ConvergeQuiet else ConvergeForce))
               == Some(Marked(s, w).(slow := Converging(rest, s.now)))
  {
    hide Unattended, Select, FastNext, GatewayNext, AdminNext, ReconcileNext, VisitNext, ScaleNext, RotateNext;
    hide DrainNext, RotationNext, CleanNext, Finalized;
    var todo := AtLimit(c, s.workers);
    assert w in todo && todo[w] == s.workers[w] by { ListsStalled(c, s.workers, w); }
  }

  lemma ListsStalled(c: Config, workers: Workers, w: WorkerId)
    requires w in workers && StalledAndActive(c, workers[w])
    ensures w in AtLimit(c, workers) && AtLimit(c, workers)[w] == workers[w]
  {
  }

  /** From an idle slow loop: a convergence pass marks the stalled worker, and is abandoned. */
  lemma MarkingPass(c: Config, run: seq<State>, steps: seq<Step>, w: WorkerId, n: nat, from: nat)
      returns (run': seq<State>, steps': seq<Step>)
    requires Behavior(c, run, steps) && Last(run).slow.SlowIdle?
    requires w in Last(run).workers && StalledAndActive(c, Last(run).workers[w])
    requires Last(run).workers[w].stalledAt.Some? && Markable(c, Last(run), w)
    requires Still(run, from, w, n, Last(run).now) && from < |run|
    ensures Continues(c, run, steps, run', steps') && Last(run') == Marked(Last(run), w)
    ensures Still(run', from, w, n, Last(run').now)
  {
    hide Next, Behavior, StalledAndActive, Unattended, Still;
    var s := Last(run);
    MarkSteps(c, s, w);
    StillLast(run, from, w, n);
    var s1 := s.(slow := Converging(AtLimit(c, s.workers), s.now));
    var rest := Without(AtLimit(c, s.workers), w);
    var s2 := s.(slow := ConvergeAt(rest, s.now, w, s.workers[w], !Unattended(s.tasks, w)));
    var s3 := Marked(s, w).(slow := Converging(rest, s.now));
    var step3 := Slow(if Unattended(s.tasks, w) then ConvergeQuiet else ConvergeForce);
    OneMore(c, run, steps, Slow(ConvergeList), s1);
    StillOneMore(run, from, w, n, s1);
    OneMore(c, run + [s1], steps + [Slow(ConvergeList)], Slow(ConvergeLook(w)), s2);
    StillOneMore(run + [s1], from, w, n, s2);
    OneMore(c, run + [s1] + [s2], steps + [Slow(ConvergeList)] + [Slow(ConvergeLook(w))], step3, s3);
    StillOneMore(run + [s1] + [s2], from, w, n, s3);
    run', steps' := Abandoned(c, run + [s1] + [s2] + [s3],
                              steps + [Slow(ConvergeList)] + [Slow(ConvergeLook(w))] + [step3]);
    StillOneMore(run + [s1] + [s2] + [s3], from, w, n, s3.(slow := SlowIdle));
  }

  lemma StillLast(run: seq<State>, from: nat, w: WorkerId, n: nat)
    requires from < |run| && Still(run, from, w, n, Last(run).now)
    ensures w in Last(run).workers && Last(run).workers[w].failureCount == n
  {
  }

  // ---------- the gap, exactly ----------

  /** Whatever runs next, and however the scheduler is cut off in between: the next failure of w, at the
      same count, comes no sooner than the delay of that count. */
  ghost predicate ForcesGap(c: Config, run: seq<State>, steps: seq<Step>, i: nat, w: WorkerId)
    requires FailsAt(run, steps, i, w)
  {
    forall run': seq<State>, steps': seq<Step>, j: nat ::
      Continues(c, run, steps, run', steps') && i < j && FailsAt(run', steps', j, w)
      && CountHolds(run', i, j, w, run[i + 1].workers[w].failureCount) ==>
        run'[j].now - run[i].now >= RetryDelay(run[i].workers[w].failureCount + 1)
  }

  lemma BelowTheLimit(c: Config, run: seq<State>, steps: seq<Step>, i: nat, w: WorkerId)
    requires Behavior(c, run, steps) && FailsAt(run, steps, i, w)
    requires run[i + 1].workers[w].failureCount < c.maxFailures
    ensures ForcesGap(c, run, steps, i, w)
  {
    hide Behavior;
    forall run': seq<State>, steps': seq<Step>, j: nat
      | Continues(c, run, steps, run', steps') && i < j && FailsAt(run', steps', j, w)
        && CountHolds(run', i, j, w, run[i + 1].workers[w].failureCount)
      ensures run'[j].now - run[i].now >= RetryDelay(run[i].workers[w].failureCount + 1)
    {
      assert run'[i] == run[i] && run'[i + 1] == run[i + 1] && steps'[i] == steps[i];
      RunLength(c, run', steps');
      assert FailsAt(run', steps', i, w);
      FailuresAreSpaced(c, run', steps', i, j, w);
    }
  }

  /** What a failure leaves behind. */
  lemma AfterFailure(c: Config, run: seq<State>, steps: seq<Step>, i: nat, w: WorkerId)
    requires Behavior(c, run, steps) && FailsAt(run, steps, i, w)
    ensures var row := run[i + 1].workers[w];
            && run[i + 1].now == run[i].now && run[i + 1].tasks == run[i].tasks
            && row == FailureRecorded(c, run[i].workers[w], true, run[i].now)
            && row.failureCount == run[i].workers[w].failureCount + 1
  {
    assert Follows(c, run, steps, i);
    hide Behavior;
  }

  /** A failure that leaves the count at the limit is followed by another at the same time, in some
      continuation: the pass is abandoned, the worker marked for termination if it is not, and the next pass
      visits it. */
  lemma AtOnce(c: Config, run: seq<State>, steps: seq<Step>, i: nat, w: WorkerId)
      returns (run': seq<State>, steps': seq<Step>)
    requires Behavior(c, run, steps) && FailsAt(run, steps, i, w) && |run| == i + 2
    requires run[i + 1].workers[w].failureCount >= c.maxFailures && Live(run[i + 1].workers[w])
    requires run[i + 1].workers[w].desired.WantTerminated? || Markable(c, run[i + 1], w)
    ensures Continues(c, run, steps, run', steps') && |run'| >= |run| + 2
    ensures FailsAt(run', steps', |run'| - 2, w) && run'[|run'| - 2].now == Last(run').now == run[i].now
    ensures CountHolds(run', i, |run'| - 2, w, run[i + 1].workers[w].failureCount)
    ensures Last(run').workers[w].failureCount == run[i + 1].workers[w].failureCount + 1
    ensures Live(Last(run').workers[w]) && Last(run').tasks == run[i + 1].tasks
  {
    AfterFailure(c, run, steps, i, w);
    var n := run[i + 1].workers[w].failureCount;
    assert Still(run, i + 1, w, n, Last(run).now);
    var run1, steps1 := Abandoned(c, run, steps);
    StillOneMore(run, i + 1, w, n, Last(run1));
    if !Last(run1).workers[w].desired.WantTerminated? {
      run1, steps1 := MarkingPass(c, run1, steps1, w, n, i + 1);
    }
    StillLast(run1, i + 1, w, n);
    run', steps' := FailingPass(c, run1, steps1, w);
    StillHolds(run1, run', i, w, n);
  }

  lemma StillHolds(run: seq<State>, run': seq<State>, i: nat, w: WorkerId, n: nat)
    requires i + 1 < |run| && Still(run, i + 1, w, n, Last(run).now) && run <= run' && |run'| == |run| + 3
    requires run'[|run|].workers == run'[|run| + 1].workers == Last(run).workers
    ensures CountHolds(run', i, |run'| - 2, w, n)
  {
    forall k | i < k <= |run'| - 2
      ensures w in run'[k].workers && run'[k].workers[w].failureCount == n
    {
      if k < |run| {
        assert run'[k] == run[k];
      }
    }
  }

  /** A retryable failure forces the delay exactly when the count it leaves is below the limit, the guard of
      `record_failure`; here for a worker whose row is live, and whose termination nothing but the backoff
      could hold back: it is marked, or it has no active work, or its grace period is over. */
  lemma FailureForcesGapIff(c: Config, run: seq<State>, steps: seq<Step>, i: nat, w: WorkerId)
    requires Behavior(c, run, steps) && FailsAt(run, steps, i, w) && |run| == i + 2
    requires Live(run[i + 1].workers[w])
    requires run[i + 1].workers[w].desired.WantTerminated? || Markable(c, run[i + 1], w)
    ensures ForcesGap(c, run, steps, i, w) <==> run[i + 1].workers[w].failureCount < c.maxFailures
  {
    if run[i + 1].workers[w].failureCount < c.maxFailures {
      BelowTheLimit(c, run, steps, i, w);
    } else {
      var run', steps' := AtOnce(c, run, steps, i, w);
      hide Behavior, CountHolds;
      var j := |run'| - 2;
      assert FailsAt(run', steps', j, w);
      DelaysGrow(1, run[i].workers[w].failureCount + 1);
      assert run'[j].now - run[i].now < RetryDelay(run[i].workers[w].failureCount + 1);
    }
  }

  // ---------- every count is reached ----------

  /** The run ends with a failure of worker w that makes its count n; the worker is live and without work. */
  ghost predicate EndsFailing(c: Config, run: seq<State>, steps: seq<Step>, w: WorkerId, n: nat) {
    && Behavior(c, run, steps) && |run| >= 2 && FailsAt(run, steps, |run| - 2, w)
    && Last(run).workers[w].failureCount == n && Live(Last(run).workers[w]) && Last(run).tasks == map[]
  }

  /** A run that creates a worker, the slow loop being idle again. */
  lemma WorkerComesToBe(c: Config) returns (run: seq<State>, steps: seq<Step>)
    requires c.Valid()
    ensures Behavior(c, run, steps) && run != [] && Last(run) == SetWorker(Nothing(), 0, NewWorker(0))
  {
    assert LiveWorkers(Nothing().workers) == {};
    NothingIsReachable(c);
    Creates(c, Nothing(), 0);
    run, steps :| Behavior(c, run, steps) && run != [] && Last(run) == SetWorker(Nothing(), 0, NewWorker(0));
  }

  /** Below the limit the next failure comes once the delay is over. */
  lemma LaterFailure(c: Config, run: seq<State>, steps: seq<Step>, w: WorkerId, n: nat)
      returns (run': seq<State>, steps': seq<Step>)
    requires EndsFailing(c, run, steps, w, n) && n < c.maxFailures
    ensures EndsFailing(c, run', steps', w, n + 1)
  {
    AfterFailure(c, run, steps, |run| - 2, w);
    var run1, steps1 := Abandoned(c, run, steps);
    var s := Last(run1);
    var later := s.now + RetryDelay(n);
    DelaysGrow(1, n);
    var s' := s.(now := later);
    assert Next(c, s, Tick(later)) == Some(s');
    OneMore(c, run1, steps1, Tick(later), s');
    assert !SkipsReconcile(c, s'.workers[w], s'.now);
    run', steps' := FailingPass(c, run1 + [s'], steps1 + [Tick(later)], w);
  }

  /** Every failure count is reached in some run. */
  lemma {:induction false} CountIsReached(c: Config, n: nat) returns (run: seq<State>, steps: seq<Step>)
    requires c.Valid() && n >= 1
    ensures EndsFailing(c, run, steps, 0, n)
  {
    if n == 1 {
      run, steps := WorkerComesToBe(c);
      run, steps := FailingPass(c, run, steps, 0);
    } else {
      run, steps := CountIsReached(c, n - 1);
      if n - 1 < c.maxFailures {
        run, steps := LaterFailure(c, run, steps, 0, n - 1);
      } else {
        assert Markable(c, Last(run), 0);
        run, steps := AtOnce(c, run, steps, |run| - 2, 0);
      }
    }
  }

  /** At every count from the limit on the spacing fails: a reachable run in which the same worker fails
      twice at that count, at the same time. */
  lemma NoSpacingAtTheLimit(c: Config, n: nat)
    requires c.Valid() && n >= c.maxFailures
    ensures exists run: seq<State>, steps: seq<Step>, i: nat, j: nat ::
              && Behavior(c, run, steps) && i < j && FailsAt(run, steps, i, 0) && FailsAt(run, steps, j, 0)
              && run[i + 1].workers[0].failureCount == n && CountHolds(run, i, j, 0, n)
              && run[i].now == run[j].now
  {
    var run, steps := CountIsReached(c, n);
    assert Markable(c, Last(run), 0);
    var i := |run| - 2;
    var run', steps' := AtOnce(c, run, steps, i, 0);
    hide Behavior;
    RunLength(c, run', steps');
    assert run'[i] == run[i] && run'[i + 1] == run[i + 1] && steps'[i] == steps[i];
    assert FailsAt(run', steps', i, 0) && FailsAt(run', steps', |run'| - 2, 0);
  }

  /** For every configuration and count: failures that leave this count force its delay, all of them, if and
      only if the count is below the limit. */
  lemma CountForcesGapIff(c: Config, n: nat)
    requires c.Valid() && n >= 1
    ensures (forall run: seq<State>, steps: seq<Step>, i: nat, w: WorkerId ::
               Behavior(c, run, steps) && FailsAt(run, steps, i, w) && run[i + 1].workers[w].failureCount == n ==>
                 ForcesGap(c, run, steps, i, w))
            <==> n < c.maxFailures
  {
    if n < c.maxFailures {
      forall run: seq<State>, steps: seq<Step>, i: nat, w: WorkerId
        | Behavior(c, run, steps) && FailsAt(run, steps, i, w) && run[i + 1].workers[w].failureCount == n
        ensures ForcesGap(c, run, steps, i, w)
      {
        BelowTheLimit(c, run, steps, i, w);
      }
    } else {
      var run, steps := CountIsReached(c, n);
      assert Markable(c, Last(run), 0);
      FailureForcesGapIff(c, run, steps, |run| - 2, 0);
      assert Behavior(c, run, steps) && FailsAt(run, steps, |run| - 2, 0);
    }
  }
}
