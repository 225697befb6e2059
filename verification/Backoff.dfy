/** Retry backoff of reconciliation, over whole runs (worker_repository.py, record_failure; scheduler.py,
    _should_skip_reconcile). */
module Backoff {
  import opened Wrappers
  import opened Rows
  import opened Selection
  import opened Protocol
  import opened Invariant
  import opened Theorems
  import Payload

  /** Delays never shrink from one failure to the next, and are capped. */
  lemma DelaysGrow(m: nat, n: nat)
    requires 1 <= m <= n
    ensures RETRY_SECONDS[0] <= RetryDelay(m) <= RetryDelay(n) <= RETRY_CAP_SECONDS
  {
    assert forall i, j | 0 <= i <= j < |RETRY_SECONDS| :: RETRY_SECONDS[i] <= RETRY_SECONDS[j] <= RETRY_CAP_SECONDS;
  }

  /** Step i of the run records a retryable failure of w. */
  ghost predicate FailsAt(run: seq<State>, steps: seq<Step>, i: nat, w: WorkerId) {
    && i + 1 < |run| && |run| == |steps| + 1
    && steps[i] == Slow(RecFail(true)) && run[i].slow.Visiting? && run[i].slow.w == w
    && w in run[i].workers && w in run[i + 1].workers
  }

  /** Nothing resets the failure count of w in the states after step i up to j. */
  ghost predicate CountHolds(run: seq<State>, i: nat, j: nat, w: WorkerId, n: nat)
    requires j < |run|
  {
    forall k | i < k <= j :: w in run[k].workers && run[k].workers[w].failureCount == n
  }

  /** The pass under way holds w only as backing off until `until`, or began after that. */
  predicate BackingOff(c: Config, s: State, w: WorkerId, n: nat, until: Time) {
    && w in s.workers && s.workers[w].failureCount == n
    && (s.slow.Reconciling? || s.slow.Visiting? ==> s.slow.at <= s.now)
    && (|| s.now >= until
        || (&& s.workers[w].retryAfter == Some(until)
            && (s.slow.Reconciling? || s.slow.Visiting? ==>
                  w in s.slow.todo ==> s.slow.todo[w].failureCount == n && s.slow.todo[w].retryAfter == Some(until))
            && (s.slow.Visiting? ==> s.slow.w != w)))
  }

  /** The step leaves the backoff of w alone, and no reconcile pass is under way after it. */
  predicate LeavesBackoff(s: State, s': State, w: WorkerId) {
    && s'.now == s.now && !s'.slow.Reconciling? && !s'.slow.Visiting?
    && (w in s.workers ==>
          && w in s'.workers && s'.workers[w].retryAfter == s.workers[w].retryAfter
          && s'.workers[w].failureCount == s.workers[w].failureCount)
  }

  lemma ConvergeLeavesBackoff(c: Config, s: State, l: SlowStep, s': State, w: WorkerId)
    requires (s.slow.Converging? || (s.slow.ConvergeAt? && s.slow.w in s.workers)) && ConvergeNext(c, s, l) == Some(s')
    ensures LeavesBackoff(s, s', w)
  {
  }

  lemma DrainLeavesBackoff(c: Config, s: State, l: SlowStep, s': State, w: WorkerId)
    requires s.slow.Draining? || ((s.slow.DrainAt? || s.slow.DrainTo?) && s.slow.w in s.workers)
    requires DrainNext(c, s, l) == Some(s')
    ensures LeavesBackoff(s, s', w)
  {
  }

  lemma CleanLeavesBackoff(c: Config, s: State, l: SlowStep, s': State, w: WorkerId)
    requires (s.slow.CleanupCheck? || s.slow.Cleaning?) && CleanNext(c, s, l) == Some(s')
    ensures LeavesBackoff(s, s', w)
  {
  }

  lemma ScaleLeavesBackoff(c: Config, s: State, l: SlowStep, s': State, w: WorkerId)
    requires || (s.slow.Scaling? && ScaleNext(c, s, l) == Some(s'))
             || (s.slow.Rotating? && RotateNext(c, s, l) == Some(s'))
             || ((s.slow.RotationCheck? || (s.slow.RotationStart? && s.slow.target in s.workers))
                 && RotationNext(c, s, l) == Some(s'))
    ensures LeavesBackoff(s, s', w)
  {
    hide Select;
  }

  lemma SingleLeavesBackoff(c: Config, s: State, l: SlowStep, s': State, w: WorkerId)
    requires SlowNext(c, s, l) == Some(s')
    requires || l.SlowAbort? || s.slow.Converged? || s.slow.Probing? || s.slow.ScaleCreate? || s.slow.ScaleDrain?
             || s.slow.Scaled? || s.slow.Finalizing?
    ensures LeavesBackoff(s, s', w)
  {
    hide Select;
  }

  lemma LaterLeavesBackoff(c: Config, s: State, l: SlowStep, s': State, w: WorkerId)
    requires SlowNext(c, s, l) == Some(s')
    requires l.SlowAbort?
             || (!s.slow.SlowIdle? && !s.slow.Reconciling? && !s.slow.Visiting? && !s.slow.ScaleRestart?)
    ensures LeavesBackoff(s, s', w)
  {
    hide ConvergeNext, ScaleNext, RotateNext, DrainNext, CleanNext, RotationNext, LeavesBackoff;
    if l.SlowAbort? {
      SingleLeavesBackoff(c, s, l, s', w);
    } else {
      match s.slow
      case Converging(_, _) => ConvergeLeavesBackoff(c, s, l, s', w);
      case ConvergeAt(_, _, _, _, _) => ConvergeLeavesBackoff(c, s, l, s', w);
      case Draining(_) => DrainLeavesBackoff(c, s, l, s', w);
      case DrainAt(_, _, _) => DrainLeavesBackoff(c, s, l, s', w);
      case DrainTo(_, _, _) => DrainLeavesBackoff(c, s, l, s', w);
      case CleanupCheck => CleanLeavesBackoff(c, s, l, s', w);
      case Cleaning(_, _) => CleanLeavesBackoff(c, s, l, s', w);
      case Scaling => ScaleLeavesBackoff(c, s, l, s', w);
      case Rotating(_, _) => ScaleLeavesBackoff(c, s, l, s', w);
      case RotationCheck => ScaleLeavesBackoff(c, s, l, s', w);
      case RotationStart(_) => ScaleLeavesBackoff(c, s, l, s', w);
      case _ => SingleLeavesBackoff(c, s, l, s', w);
    }
  }

  lemma VisitBacksOff(c: Config, s: State, l: SlowStep, s': State, w: WorkerId, n: nat, until: Time)
    requires s.slow.Visiting? && s.slow.w in s.workers && VisitNext(c, s, l) == Some(s')
    requires BackingOff(c, s, w, n, until) && w in s'.workers && s'.workers[w].failureCount == n
    ensures BackingOff(c, s', w, n, until)
  {
  }

  lemma ReconcileBacksOff(c: Config, s: State, l: SlowStep, s': State, w: WorkerId, n: nat, until: Time)
    requires s.slow.Reconciling? && ReconcileNext(c, s, l) == Some(s')
    requires BackingOff(c, s, w, n, until) && 1 <= n < c.maxFailures
    ensures BackingOff(c, s', w, n, until)
  {
  }

  lemma RestBacksOff(c: Config, s: State, l: SlowStep, s': State, w: WorkerId, n: nat, until: Time)
    requires (s.slow.SlowIdle? || s.slow.ScaleRestart?) && SlowNext(c, s, l) == Some(s')
    requires BackingOff(c, s, w, n, until) && 1 <= n && w in s'.workers && s'.workers[w].failureCount == n
    ensures BackingOff(c, s', w, n, until)
  {
  }

  lemma SlowBacksOff(c: Config, s: State, l: SlowStep, s': State, w: WorkerId, n: nat, until: Time)
    requires SlowNext(c, s, l) == Some(s') && BackingOff(c, s, w, n, until) && 1 <= n < c.maxFailures
    requires w in s'.workers && s'.workers[w].failureCount == n
    ensures BackingOff(c, s', w, n, until)
  {
    if s.slow.SlowIdle? || s.slow.ScaleRestart? {
      RestBacksOff(c, s, l, s', w, n, until);
    } else {
      hide ReconcileNext, VisitNext, ConvergeNext, ScaleNext, RotateNext, DrainNext, CleanNext, RotationNext;
      if s.slow.Visiting? && !l.SlowAbort? {
        VisitBacksOff(c, s, l, s', w, n, until);
      } else if s.slow.Reconciling? && !l.SlowAbort? {
        ReconcileBacksOff(c, s, l, s', w, n, until);
      } else {
        hide SlowNext;
        LaterLeavesBackoff(c, s, l, s', w);
      }
    }
  }

  lemma FastBacksOff(c: Config, s: State, f: FastStep, s': State, w: WorkerId, n: nat, until: Time)
    requires FastNext(c, s, f) == Some(s') && BackingOff(c, s, w, n, until)
    ensures BackingOff(c, s', w, n, until)
  {
    hide PayloadOf, Acquire, Recorded, Polled;
  }

  lemma StepBacksOff(c: Config, s: State, step: Step, s': State, w: WorkerId, n: nat, until: Time)
    requires Next(c, s, step) == Some(s') && BackingOff(c, s, w, n, until) && 1 <= n < c.maxFailures
    requires w in s'.workers && s'.workers[w].failureCount == n
    ensures BackingOff(c, s', w, n, until)
  {
    hide FastNext, SlowNext;
    match step
    case Gateway(g) => hide Payload.Packed, Accepts;
    case Fast(f) => FastBacksOff(c, s, f, s', w, n, until);
    case Slow(l) => SlowBacksOff(c, s, l, s', w, n, until);
    case _ =>
  }

  // ---------- the spacing of failures ----------

  lemma {:induction false} BackingOffLasts(
      c: Config, run: seq<State>, steps: seq<Step>, i: nat, j: nat, w: WorkerId, n: nat, until: Time)
    requires Behavior(c, run, steps) && i <= j < |run| && 1 <= n < c.maxFailures
    requires BackingOff(c, run[i], w, n, until) && CountHolds(run, i, j, w, n)
    ensures BackingOff(c, run[j], w, n, until)
    decreases j - i
  {
    if i < j {
      assert Follows(c, run, steps, i);
      StepBacksOff(c, run[i], steps[i], run[i + 1], w, n, until);
      BackingOffLasts(c, run, steps, i + 1, j, w, n, until);
    }
  }

  lemma PassStartedBefore(c: Config, s: State, step: Step, s': State)
    requires Next(c, s, step) == Some(s') && (s.slow.Reconciling? || s.slow.Visiting? ==> s.slow.at <= s.now)
    ensures s'.slow.Reconciling? || s'.slow.Visiting? ==> s'.slow.at <= s'.now
  {
    hide FastNext, SlowNext;
    match step
    case Gateway(g) => hide Payload.Packed, Accepts;
    case Fast(f) => FastFrame(c, s, f, s');
    case Slow(l) =>
      SlowFrame(c, s, l, s');
      SlowStartedBefore(c, s, l, s');
    case _ =>
  }

  lemma PassStarts(c: Config, s: State, l: SlowStep, s': State)
    requires s.slow.SlowIdle? || s.slow.ScaleRestart?
    requires SlowNext(c, s, l) == Some(s')
    ensures s'.slow.Reconciling? || s'.slow.Visiting? ==> s'.slow.at <= s.now
  {
    hide Select;
  }

  lemma ReconcileStarted(c: Config, s: State, l: SlowStep, s': State)
    requires s.slow.Reconciling? && ReconcileNext(c, s, l) == Some(s') && s.slow.at <= s.now
    ensures s'.slow.Reconciling? || s'.slow.Visiting? ==> s'.slow.at <= s.now
  {
    hide Select, SkipsReconcile;
  }

  lemma VisitStarted(c: Config, s: State, l: SlowStep, s': State)
    requires s.slow.Visiting? && s.slow.w in s.workers && VisitNext(c, s, l) == Some(s') && s.slow.at <= s.now
    ensures s'.slow.Reconciling? || s'.slow.Visiting? ==> s'.slow.at <= s.now
  {
    hide FailureRecorded, FailuresReset, Disappeared;
  }

  lemma SlowStartedBefore(c: Config, s: State, l: SlowStep, s': State)
    requires SlowNext(c, s, l) == Some(s') && (s.slow.Reconciling? || s.slow.Visiting? ==> s.slow.at <= s.now)
    ensures s'.slow.Reconciling? || s'.slow.Visiting? ==> s'.slow.at <= s.now
  {
    hide ReconcileNext, VisitNext, ConvergeNext, ScaleNext, RotateNext, DrainNext, CleanNext, RotationNext;
    if l.SlowAbort? {
      LaterLeavesBackoff(c, s, l, s', 0);
    } else if s.slow.Reconciling? {
      ReconcileStarted(c, s, l, s');
    } else if s.slow.Visiting? {
      VisitStarted(c, s, l, s');
    } else {
      hide SlowNext;
      if s.slow.SlowIdle? || s.slow.ScaleRestart? {
        PassStarts(c, s, l, s');
      } else {
        LaterLeavesBackoff(c, s, l, s', 0);
      }
    }
  }

  lemma {:induction false} PassesStartBefore(c: Config, run: seq<State>, steps: seq<Step>, i: nat)
    requires Behavior(c, run, steps) && i < |run|
    ensures run[i].slow.Reconciling? || run[i].slow.Visiting? ==> run[i].slow.at <= run[i].now
  {
    if i > 0 {
      PassesStartBefore(c, run, steps, i - 1);
      assert Follows(c, run, steps, i - 1);
      PassStartedBefore(c, run[i - 1], steps[i - 1], run[i]);
    }
  }

  lemma FailureStartsBackoff(c: Config, s: State, s': State)
    requires Inv(c, s) && s.slow.Visiting? && Next(c, s, Slow(RecFail(true))) == Some(s') && s.slow.at <= s.now
    requires s.slow.w in s.workers && s.workers[s.slow.w].failureCount + 1 < c.maxFailures
    ensures var n := s.workers[s.slow.w].failureCount + 1;
            BackingOff(c, s', s.slow.w, n, s.now + RetryDelay(n)) && s'.workers[s.slow.w].failureCount == n
  {
    assert s.slow.w !in s.slow.todo;
    hide Inv;
  }

  lemma FailureCounts(c: Config, run: seq<State>, steps: seq<Step>, i: nat, w: WorkerId)
    requires Behavior(c, run, steps) && FailsAt(run, steps, i, w)
    ensures run[i + 1].workers[w].failureCount == run[i].workers[w].failureCount + 1
  {
    assert Follows(c, run, steps, i);
  }

  /** A failure recorded by reconciliation below the limit keeps the next one at least the delay of its
      number away, across passes, crashes and everything else that runs in between. */
  lemma FailuresAreSpaced(c: Config, run: seq<State>, steps: seq<Step>, i: nat, j: nat, w: WorkerId)
    requires Behavior(c, run, steps) && i < j && FailsAt(run, steps, i, w) && FailsAt(run, steps, j, w)
    requires run[i + 1].workers[w].failureCount < c.maxFailures
    requires CountHolds(run, i, j, w, run[i + 1].workers[w].failureCount)
    ensures run[j].now - run[i].now >= RetryDelay(run[i].workers[w].failureCount + 1)
  {
    InvAlways(c, run, steps, i);
    PassesStartBefore(c, run, steps, i);
    FailureCounts(c, run, steps, i, w);
    assert Follows(c, run, steps, i);
    var n := run[i].workers[w].failureCount + 1;
    var until := run[i].now + RetryDelay(n);
    FailureStartsBackoff(c, run[i], run[i + 1]);
    hide Inv;
    BackingOffLasts(c, run, steps, i + 1, j, w, n, until);
  }

  function TotalDelay(n: nat): nat {
    if n == 0 then 0 else TotalDelay(n - 1) + RetryDelay(n)
  }

  /** Consecutive failures of w, from a clean count on, at the given steps of the run. */
  ghost predicate Streak(run: seq<State>, steps: seq<Step>, failures: seq<nat>, w: WorkerId) {
    && failures != []
    && (forall m | 0 <= m < |failures| :: FailsAt(run, steps, failures[m], w))
    && run[failures[0]].workers[w].failureCount == 0
    && forall m | 0 < m < |failures| ::
         && failures[m - 1] < failures[m]
         && CountHolds(run, failures[m - 1], failures[m], w, run[failures[m - 1] + 1].workers[w].failureCount)
  }

  lemma StreakPrefix(run: seq<State>, steps: seq<Step>, failures: seq<nat>, w: WorkerId)
    requires Streak(run, steps, failures, w) && |failures| > 1
    ensures Streak(run, steps, failures[..|failures| - 1], w)
  {
    var init := failures[..|failures| - 1];
    assert forall m | 0 <= m < |init| :: init[m] == failures[m];
    hide FailsAt, CountHolds;
  }

  lemma StreakStep(c: Config, run: seq<State>, steps: seq<Step>, failures: seq<nat>, n: nat, w: WorkerId)
    requires Behavior(c, run, steps) && Streak(run, steps, failures, w) && 0 < n < |failures|
    requires run[failures[n - 1]].workers[w].failureCount == n - 1 && n < c.maxFailures
    ensures run[failures[n]].workers[w].failureCount == n
    ensures run[failures[n]].now - run[failures[n - 1]].now >= RetryDelay(n)
  {
    var i, j := failures[n - 1], failures[n];
    FailureCounts(c, run, steps, i, w);
    FailuresAreSpaced(c, run, steps, i, j, w);
    hide FailsAt, Behavior;
    assert CountHolds(run, i, j, w, n);
  }

  /** The n-th failure of a streak comes no sooner after the first than the sum of the first n - 1 delays,
      up to the failure that reaches the limit. */
  lemma {:induction false} BackoffAddsUp(c: Config, run: seq<State>, steps: seq<Step>, failures: seq<nat>, w: WorkerId)
    requires Behavior(c, run, steps) && Streak(run, steps, failures, w) && |failures| <= c.maxFailures
    ensures var last := failures[|failures| - 1];
            && run[last].workers[w].failureCount == |failures| - 1
            && run[last].now - run[failures[0]].now >= TotalDelay(|failures| - 1)
  {
    hide Behavior, FailsAt;
    var n := |failures| - 1;
    if n > 0 {
      var init := failures[..n];
      StreakPrefix(run, steps, failures, w);
      BackoffAddsUp(c, run, steps, init, w);
      var i, j := failures[n - 1], failures[n];
      assert init[n - 1] == i && init[0] == failures[0];
      StreakStep(c, run, steps, failures, n, w);
    }
  }
}
