/** What one loop can rely on while the other components run. */
module Interleaving {
  import opened Wrappers
  import opened Status
  import opened Rows
  import opened Selection
  import opened Protocol
  import opened Invariant
  import opened Theorems
  import opened WorkerTheorems
  import opened Database
  import Payload

  // ---------- while the fast loop awaits ----------

  /** Rows of unfinished tasks stay as they are; rows that appear are queued, or answered from the cache. */
  ghost predicate TasksRest(s: State, s': State) {
    && s'.fast == s.fast && s'.accepted == s.accepted && s'.served == s.served
    && (forall t <- s.tasks :: !Terminal(s.tasks[t].status) ==> t in s'.tasks && s'.tasks[t] == s.tasks[t])
    && (forall t <- s'.tasks ::
          (t in s.tasks && s'.tasks[t] == s.tasks[t]) || s'.tasks[t].status.Queued? || s'.tasks[t].status.Completed?)
    && (forall t <- s.requests :: t in s'.requests && s'.requests[t] == s.requests[t])
    && s.workers.Keys <= s'.workers.Keys
  }

  lemma GatewayRests(c: Config, s: State, g: GatewayStep, s': State)
    requires IdsOk(s) && GatewayNext(s, g) == Some(s')
    ensures TasksRest(s, s')
  {
    hide Payload.Packed, Accepts;
  }

  lemma SlowRests(c: Config, s: State, l: SlowStep, s': State)
    requires Inv(c, s) && SlowNext(c, s, l) == Some(s')
    ensures TasksRest(s, s')
  {
    hide Inv, SlowNext, RowFollows;
    SlowFollows(c, s, l, s');
    CleanedAreFinished(c, s);
    SlowFrame(c, s, l, s');
    assert forall w <- s.workers :: w in s'.workers;
    if l.CleanRow? && s.slow.Cleaning? {
      assert Terminal(s.tasks[l.t].status);
      assert s'.tasks == s.tasks - {l.t};
    }
    assert forall t <- s.tasks :: !Terminal(s.tasks[t].status) ==> t in s'.tasks && s'.tasks[t] == s.tasks[t];
    assert forall t <- s'.tasks :: t in s.tasks && s'.tasks[t] == s.tasks[t];
    assert LeavesIntake(s, s');
  }

  lemma CleanedAreFinished(c: Config, s: State)
    requires Inv(c, s)
    ensures s.slow.Cleaning? ==> forall t <- s.slow.toClean :: t in s.tasks && Terminal(s.tasks[t].status)
  {
  }

  lemma IdsAreOk(c: Config, s: State)
    requires Inv(c, s)
    ensures IdsOk(s)
  {
  }

  lemma StepRests(c: Config, s: State, step: Step, s': State)
    requires Inv(c, s) && Next(c, s, step) == Some(s') && Foreign(FastLoop, step)
    ensures TasksRest(s, s')
  {
    hide Inv, IdsOk, GatewayNext, FastNext, SlowNext;
    IdsAreOk(c, s);
    match step
    case Gateway(g) => GatewayRests(c, s, g, s');
    case Slow(l) => SlowRests(c, s, l, s');
    case _ =>
  }

  /** While the fast loop awaits, what it holds and the rows of unfinished tasks stay as they are. */
  lemma {:induction false} FastAwaits(c: Config, run: seq<State>, steps: seq<Step>, i: nat)
    requires Behavior(c, run, steps) && i < |run| && OnlyForeign(FastLoop, steps, i)
    ensures TasksRest(run[i], run[|run| - 1])
    decreases |run| - i
  {
    hide TasksRest;
    if i < |steps| {
      InvAlways(c, run, steps, i);
      assert Follows(c, run, steps, i);
      StepRests(c, run[i], steps[i], run[i + 1]);
      FastAwaits(c, run, steps, i + 1);
      RestsTransitive(run[i], run[i + 1], run[|run| - 1]);
    } else {
      RestsReflexive(run[i]);
    }
  }

  lemma RestsReflexive(s: State)
    ensures TasksRest(s, s)
  {
  }

  lemma RestsTransitive(s: State, s': State, s'': State)
    requires TasksRest(s, s') && TasksRest(s', s'')
    ensures TasksRest(s, s'')
  {
  }

  // ---------- while the slow loop awaits ----------

  /** The administrator and the dispatcher steer no worker: they change neither what is intended of it, nor
      its links, nor whether it is live. */
  ghost predicate WorkersRest(s: State, s': State) {
    && s'.slow == s.slow && s'.quiet == s.quiet && s'.workers.Keys == s.workers.Keys && s.now <= s'.now
    && forall w <- s.workers ::
         && s'.workers[w].desired == s.workers[w].desired
         && s'.workers[w].terminatedAt == s.workers[w].terminatedAt
         && s'.workers[w].replacementFor == s.workers[w].replacementFor
         && s'.workers[w].generation == s.workers[w].generation
         && s'.workers[w].cloud == s.workers[w].cloud
  }

  lemma FastSteersNothing(c: Config, s: State, f: FastStep, s': State)
    requires FastNext(c, s, f) == Some(s')
    ensures WorkersRest(s, s')
  {
    hide PayloadOf, Acquire, Recorded, Polled;
  }

  lemma SameSteersNothing(s: State, s': State)
    requires s'.workers == s.workers && s'.quiet == s.quiet && s'.slow == s.slow && s.now <= s'.now
    ensures WorkersRest(s, s')
  {
  }

  lemma AdminSteersNothing(s: State, a: AdminStep, s': State)
    requires AdminNext(s, a) == Some(s')
    ensures WorkersRest(s, s')
  {
  }

  lemma StepSteersNothing(c: Config, s: State, step: Step, s': State)
    requires Next(c, s, step) == Some(s') && Foreign(SlowLoop, step)
    ensures WorkersRest(s, s')
  {
    hide GatewayNext, AdminNext, FastNext, SlowNext, WorkersRest;
    match step
    case Gateway(g) =>
      GatewayFollows(s, g, s');
      SameSteersNothing(s, s');
    case Admin(a) => AdminSteersNothing(s, a, s');
    case Fast(f) => FastSteersNothing(c, s, f, s');
    case Tick(_) => SameSteersNothing(s, s');
  }

  lemma {:induction false} SlowAwaits(c: Config, run: seq<State>, steps: seq<Step>, i: nat, j: nat)
    requires Behavior(c, run, steps) && i <= j < |run| && OnlyForeign(SlowLoop, steps, i)
    ensures WorkersRest(run[i], run[j])
    decreases j - i
  {
    if i < j {
      assert Follows(c, run, steps, i);
      StepSteersNothing(c, run[i], steps[i], run[i + 1]);
      SlowAwaits(c, run, steps, i + 1, j);
    }
  }
}
