/** Fairness of dispatch over whole runs: which task is claimed, and which worker gets it. */
module Fairness {
  import opened Wrappers
  import opened Status
  import opened Rows
  import opened Selection
  import opened Protocol
  import opened Invariant
  import opened WorkerProofs
  import opened Theorems
  import opened WorkerTheorems
  import Autoscale

  /** No task is claimed while an older one waits in the queue; a task that was claimed and put back
      keeps the place its creation gave it. */
  lemma OlderTasksFirst(c: Config, run: seq<State>, steps: seq<Step>, i: nat, k: nat, t: TaskId, u: TaskId, w: WorkerId)
    requires Behavior(c, run, steps) && i <= k < |steps| && steps[k] == Fast(ClaimNext(u, w))
    requires t in run[i].tasks && u in run[i].tasks && run[i].tasks[t].createdAt < run[i].tasks[u].createdAt
    requires t in run[k].tasks
    ensures !run[k].tasks[t].status.Queued?
  {
    assert Follows(c, run, steps, k);
    assert OldestClaimable(run[k].tasks, u);
    TaskEvolvesOverRun(c, run, steps, i, k, t);
    TaskEvolvesOverRun(c, run, steps, i, k, u);
    InvAlways(c, run, steps, k);
    assert Shape(t, run[k].tasks[t]);
  }

  /** No two of the workers differ in load by more than b. */
  predicate SpreadWithin(tasks: Tasks, ws: set<WorkerId>, b: int) {
    forall v, w | v in ws && w in ws :: Load(tasks, v) - Load(tasks, w) <= b
  }

  lemma LoadAfterWork(s: State, s': State, w: WorkerId)
    requires NoNewWork(s, s', w)
    ensures Load(s'.tasks, w) <= Load(s.tasks, w)
  {
    forall t | t in LoadSet(s'.tasks, w)
      ensures t in LoadSet(s.tasks, w)
    {
      assert BlocksDrain(s'.tasks[t].status);
    }
    SubsetCard(LoadSet(s'.tasks, w), LoadSet(s.tasks, w));
  }

  lemma LoadAfterClaim(c: Config, s: State, t: TaskId, w: WorkerId, s': State, v: WorkerId)
    requires Next(c, s, Fast(ClaimNext(t, w))) == Some(s') && s.fast.FastIdle?
    ensures Load(s'.tasks, v) <= if v == w then Load(s.tasks, v) + 1 else Load(s.tasks, v)
  {
    assert s'.tasks == s.tasks[t := Claimed(s.tasks[t], w, s.now)];
    assert LoadSet(s'.tasks, v) <= LoadSet(s.tasks, v) + if v == w then {t} else {};
    SubsetCard(LoadSet(s'.tasks, v), LoadSet(s.tasks, v) + if v == w then {t} else {});
  }

  /** The worker a claim chooses has the least load of all serviceable ones. */
  lemma ClaimTakesLeastLoaded(c: Config, s: State, t: TaskId, w: WorkerId, s': State, v: WorkerId)
    requires Next(c, s, Fast(ClaimNext(t, w))) == Some(s') && s.fast.FastIdle?
    requires v in s.workers && Serviceable(c, s.workers[v])
    ensures w in s.workers && Load(s.tasks, w) <= Load(s.tasks, v)
  {
    hide Serviceable, Touched;
    var candidates := Dispatchable(c, s.tasks, s.workers, {});
    assert Acquire(c, s.tasks, s.workers, {}) == Some(w);
    assert First(s.tasks, s.workers, candidates, w);
    if v in candidates && v != w {
      assert Before(s.tasks, s.workers, w, v);
    }
  }

  ghost predicate Steady(c: Config, run: seq<State>, steps: seq<Step>, i: nat, j: nat, ws: set<WorkerId>)
    requires j < |run| == |steps| + 1
  {
    forall k | i <= k < j ::
      && Autoscale.ServiceableSet(c, run[k].workers) == ws
      && !(steps[k].Fast? && steps[k].f.Reassign?)
      && forall w <- ws :: Load(run[k + 1].tasks, w) >= Load(run[k].tasks, w)
  }

  lemma StepKeepsSpread(c: Config, s: State, step: Step, s': State, ws: set<WorkerId>, b: int)
    requires Inv(c, s) && Next(c, s, step) == Some(s') && b >= 1
    requires Autoscale.ServiceableSet(c, s.workers) == ws && !(step.Fast? && step.f.Reassign?)
    requires forall w <- ws :: Load(s'.tasks, w) >= Load(s.tasks, w)
    requires SpreadWithin(s.tasks, ws, b)
    ensures SpreadWithin(s'.tasks, ws, b)
  {
    forall v, w | v in ws && w in ws
      ensures Load(s'.tasks, v) - Load(s'.tasks, w) <= b
    {
      if TakesFor(step, v) {
        assert s.fast.FastIdle?;
        hide Inv;
        ClaimTakesLeastLoaded(c, s, step.f.t, v, s', w);
        LoadAfterClaim(c, s, step.f.t, v, s', v);
      } else {
        hide Next;
        StepWork(c, s, step, s', v);
        LoadAfterWork(s, s', v);
      }
    }
  }

  /** While the same workers are in service and no work ends, any sequence of claims, whatever else runs
      in between, keeps the loads within one of each other, or within their initial spread. */
  lemma {:induction false} SpreadNeverGrows(
      c: Config, run: seq<State>, steps: seq<Step>, i: nat, j: nat, ws: set<WorkerId>, b: int)
    requires Behavior(c, run, steps) && i <= j < |run| && Steady(c, run, steps, i, j, ws)
    requires b >= 1 && SpreadWithin(run[i].tasks, ws, b)
    ensures SpreadWithin(run[j].tasks, ws, b)
    decreases j - i
  {
    if i < j {
      InvAlways(c, run, steps, i);
      assert Follows(c, run, steps, i);
      StepKeepsSpread(c, run[i], steps[i], run[i + 1], ws, b);
      SpreadNeverGrows(c, run, steps, i + 1, j, ws, b);
    }
  }
}
