/** The slow loop (scheduler/scheduler.py): the methods of one tick, each session of which is a step of the
    protocol, with the gateway, the administrator, the dispatcher and the clock running at every await.
    What the cloud and the workers answer is chosen arbitrarily. */
module Scheduler {
  import opened Wrappers
  import opened Status
  import opened Rows
  import opened Protocol
  import opened Invariant
  import opened WorkerTheorems
  import opened Database
  import opened Interleaving

  // ---------- awaits ----------

  /** What the history says of an await of the slow loop. */
  ghost predicate SlowRested(before: seq<State>, after: seq<State>)
    requires before != []
  {
    && before <= after
    && forall k | |before| - 1 <= k < |after| :: WorkersRest(before[|before| - 1], after[k])
  }

  lemma SlowStays(c: Config, run: seq<State>, steps: seq<Step>, run': seq<State>, steps': seq<Step>)
    requires Behavior(c, run, steps) && Behavior(c, run', steps') && run <= run' && steps <= steps'
    requires OnlyForeign(SlowLoop, steps', |steps|)
    ensures SlowRested(run, run')
  {
    forall k | |run| - 1 <= k < |run'|
      ensures WorkersRest(run[|run| - 1], run'[k])
    {
      SlowAwaits(c, run', steps', |run| - 1, k);
    }
  }

  method Rest(db: Deployment)
    requires db.Valid()
    modifies db
    ensures db.Valid() && SlowRested(old(db.run), db.run) && WorkersRest(old(db.Cur()), db.Cur())
    ensures db.Cur().slow == old(db.Cur().slow) && db.Cur().quiet == old(db.Cur().quiet)
    ensures db.workers.Keys == old(db.workers.Keys) && old(db.run) <= db.run
    ensures old(db.steps) <= db.steps && db.slowDone == old(db.slowDone) && old(db.now) <= db.now
  {
    hide Behavior, WorkersRest, SlowOnes, FastOnes;
    db.Await(SlowLoop);
    SlowStays(db.c, old(db.run), old(db.steps), db.run, db.steps);
    SlowPcRests(old(db.Cur()), db.Cur());
  }

  /** Of a list of workers, those already seen to. */
  ghost function Past(listed: Workers, todo: Workers): set<WorkerId> {
    listed.Keys - todo.Keys
  }

  lemma NonePast(listed: Workers)
    ensures Past(listed, listed) == {} && Past(listed, map[]) == listed.Keys
  {
  }

  lemma OneMorePast(listed: Workers, todo: Workers, w: WorkerId)
    requires w in todo && w in listed
    ensures Past(listed, Without(todo, w)) == Past(listed, todo) + {w}
    ensures |Without(todo, w)| < |todo| && Without(todo, w).Keys <= todo.Keys
  {
  }

  /** The next worker of a list that was read earlier. */
  method PickKey(todo: Workers) returns (w: WorkerId)
    requires todo != map[]
    ensures w in todo
  {
    assert todo.Keys != {};
    ghost var x := Pick(todo.Keys);
    assert x in todo;
    w :| w in todo;
  }

  /** `count_inflight_tasks`. */
  method CountInflight(db: Deployment, w: WorkerId) returns (n: nat)
    ensures n > 0 <==> !Unattended(db.tasks, w)
  {
    NoWorkMeansUnattended(db.tasks, w);
    var active := ActiveOn(db.tasks, w);
    n := |active|;
  }

  /** `count_unstored_results`. */
  method CountUnstored(db: Deployment, w: WorkerId) returns (n: nat)
    ensures n > 0 ==> !Unattended(db.tasks, w)
  {
    var unstored := set t | t in db.tasks && db.tasks[t].workerId == Some(w) && db.tasks[t].status.StoringResult?
                            && db.tasks[t].resultKey.None?;
    n := |unstored|;
    if n > 0 {
      var t :| t in unstored;
      assert BlocksDrain(db.tasks[t].status);
    }
  }

  // ---------- stalled workers ----------

  lemma ConvergeListStep(c: Config, s: State)
    requires s.slow.SlowIdle? || (s.slow.Reconciling? && s.slow.todo == map[])
    ensures Next(c, s, Slow(ConvergeList))
            == Some(s.(slow := Converging(Select(s.workers, row => StalledAndActive(c, row)), s.now)))
  {
  }

  lemma ConvergeLookStep(c: Config, s: State, w: WorkerId)
    requires s.slow.Converging? && w in s.slow.todo
    ensures Next(c, s, Slow(ConvergeLook(w)))
            == Some(s.(slow := ConvergeAt(Without(s.slow.todo, w), s.slow.at, w, s.slow.todo[w],
                !Unattended(s.tasks, w))))
  {
    hide Unattended;
  }

  lemma ConvergeDoneStep(c: Config, s: State)
    requires s.slow.Converging? && s.slow.todo == map[]
    ensures Next(c, s, Slow(ConvergeDone)) == Some(s.(slow := Converged))
  {
  }

  lemma ConvergeEndSteps(c: Config, s: State)
    requires s.slow.ConvergeAt? && s.slow.w in s.workers && s.slow.seen.stalledAt.Some?
    ensures var ConvergeAt(todo, at, w, seen, active) := s.slow;
            var due := at - seen.stalledAt.value >= c.stalledGrace;
            var terminated := SetWorker(s, w, s.workers[w].(desired := WantTerminated)).(slow := Converging(todo, at));
            && (!active ==> Next(c, s, Slow(ConvergeQuiet)) == Some(terminated.(quiet := s.quiet + {w})))
            && (active && due ==> Next(c, s, Slow(ConvergeForce)) == Some(terminated))
            && (active && !due ==> Next(c, s, Slow(ConvergeWait)) == Some(s.(slow := Converging(todo, at))))
  {
  }

  /** What the invariant says while a stalled worker is looked at. */
  lemma ConvergeKnows(c: Config, s: State)
    requires Inv(c, s) && s.slow.ConvergeAt?
    ensures s.slow.w in s.workers && s.slow.seen.stalledAt.Some?
    ensures !s.slow.active ==> Unattended(s.tasks, s.slow.w)
  {
    if !s.slow.active {
      assert MustBeIdle(s, s.slow.w);
    }
  }

  /** The grace period of a stalled worker is over. */
  predicate Overdue(c: Config, seen: Worker, at: Time) {
    seen.stalledAt.Some? && at - seen.stalledAt.value >= c.stalledGrace
  }

  /** One round of the loop of `_converge_stalled_workers`. */
  method ConvergeOne(db: Deployment, ghost todo: Workers, at: Time, w: WorkerId, seen: Worker)
    requires db.Valid() && db.Cur().slow == Converging(todo, at) && w in todo && todo[w] == seen
    modifies db
    ensures db.Valid() && old(db.run) <= db.run && old(db.steps) <= db.steps
            && db.Cur().slow == Converging(Without(todo, w), at)
    ensures forall k | |old(db.run)| <= k < |db.run| :: InPass(db.run[k], at)
    ensures || db.slowDone == old(db.slowDone) + [ConvergeLook(w), ConvergeQuiet]
            || db.slowDone == old(db.slowDone)
                              + [ConvergeLook(w), if Overdue(db.c, seen, at) then ConvergeForce else ConvergeWait]
    ensures SlowOnly(old(db.slowDone), db.slowDone, Converges)
  {
    hide Next, Behavior, Inv, SlowOnes, FastOnes, SlowOnly, Overdue;
    ghost var done := db.slowDone;
    Rest(db);
    var inflight := CountInflight(db, w);
    ConvergeLookStep(db.c, db.Cur(), w);
    db.Record(Slow(ConvergeLook(w)));
    Rest(db);
    DecideConvergence(db, Without(todo, w), at, w, seen, inflight > 0);
    ConvergedOnly(done, w, inflight > 0, Overdue(db.c, seen, at), db.slowDone);
  }

  lemma ConvergedOnly(done: seq<SlowStep>, w: WorkerId, active: bool, due: bool, after: seq<SlowStep>)
    requires after == done + [ConvergeLook(w)]
                      + [if !active then ConvergeQuiet else if due then ConvergeForce else ConvergeWait]
    ensures SlowOnly(done, after, Converges)
  {
    var ls := [ConvergeLook(w), if !active then ConvergeQuiet else if due then ConvergeForce else ConvergeWait];
    assert after == done + ls;
    SomeSlow(done, ls, Converges);
  }

  /** What `_converge_stalled_workers` decides once it has counted. */
  method DecideConvergence(db: Deployment, ghost todo: Workers, at: Time, w: WorkerId, seen: Worker, active: bool)
    requires db.Valid() && db.Cur().slow == ConvergeAt(todo, at, w, seen, active)
    modifies db
    ensures db.Valid() && old(db.run) <= db.run && old(db.steps) <= db.steps && |db.run| == |old(db.run)| + 1
    ensures db.Cur().slow == Converging(todo, at)
    ensures db.slowDone == old(db.slowDone)
                           + [if !active then ConvergeQuiet
                              else if Overdue(db.c, seen, at) then ConvergeForce else ConvergeWait]
  {
    hide Next, Behavior, Inv, SlowOnes, FastOnes;
    db.Know();
    ConvergeKnows(db.c, db.Cur());
    ConvergeEndSteps(db.c, db.Cur());
    // The second count, of results not yet stored, finds nothing that the first did not.
    var unstored := CountUnstored(db, w);
    if !(active || unstored > 0) {
      db.workers := db.workers[w := db.workers[w].(desired := WantTerminated)];
      db.Record(Slow(ConvergeQuiet));
    } else if at - seen.stalledAt.value >= db.c.stalledGrace {
      db.workers := db.workers[w := db.workers[w].(desired := WantTerminated)];
      db.Record(Slow(ConvergeForce));
    } else {
      db.Record(Slow(ConvergeWait));
    }
  }

  /** The pass that began at state i is still on its way. */
  ghost predicate Passing(run: seq<State>, steps: seq<Step>, i: nat, at: Time) {
    && |run| == |steps| + 1 && i < |steps| && steps[i] == Slow(ConvergeList)
    && forall k | i < k < |run| :: InPass(run[k], at)
  }

  lemma PassBegins(run: seq<State>, steps: seq<Step>, s': State, todo: Workers, at: Time)
    requires |run| == |steps| + 1 && s'.slow == Converging(todo, at)
    ensures Passing(run + [s'], steps + [Slow(ConvergeList)], |steps|, at)
  {
  }

  lemma PassGoesOn(run: seq<State>, steps: seq<Step>, run': seq<State>, steps': seq<Step>, i: nat, at: Time)
    requires Passing(run, steps, i, at) && run <= run' && steps <= steps' && |run'| == |steps'| + 1
    requires forall k | |run| <= k < |run'| :: InPass(run'[k], at)
    ensures Passing(run', steps', i, at)
  {
    forall k | i < k < |run'|
      ensures InPass(run'[k], at)
    {
      if k < |run| {
        assert run'[k] == run[k];
      }
    }
  }

  lemma PassIsOver(run: seq<State>, steps: seq<Step>, step: Step, s': State, i: nat)
    requires i < |run| && Passing(run, steps, i, run[i].now) && s'.slow.Converged? && i + 1 < |run|
    ensures ConvergePass(run + [s'], steps + [step], i, |run|)
  {
    var run' := run + [s'];
    forall k | i < k < |run|
      ensures InPass(run'[k], run[i].now)
    {
      assert run'[k] == run[k];
    }
  }

  /** `_converge_stalled_workers`: what it does is a convergence pass of the history. */
  method ConvergeStalledWorkers(db: Deployment)
    requires db.Valid()
    requires db.Cur().slow.SlowIdle? || (db.Cur().slow.Reconciling? && db.Cur().slow.todo == map[])
    modifies db
    ensures db.Valid() && old(db.run) <= db.run && db.Cur().slow.Converged?
    ensures ConvergePass(db.run, db.steps, |old(db.run)| - 1, |db.run| - 1)
    ensures SlowOnly(old(db.slowDone), db.slowDone, Converges)
  {
    hide Next, Behavior, Inv, SlowOnes, FastOnes, SlowOnly, ConvergePass, Passing;
    ghost var done0, run0, i := db.slowDone, db.run, |db.steps|;
    var at := db.now;
    var todo := Select(db.workers, row => StalledAndActive(db.c, row));
    ConvergeListStep(db.c, db.Cur());
    hide StalledAndActive;
    ghost var s' := db.Cur().(slow := Converging(todo, at));
    PassBegins(db.run, db.steps, s', todo, at);
    db.Record(Slow(ConvergeList));
    SomeSlow(done0, [ConvergeList], Converges);
    ConvergeListed(db, todo, at, i, done0);
    ConvergeDoneStep(db.c, db.Cur());
    SomeSlow(db.slowDone, [ConvergeDone], Converges);
    SlowOnlyJoins(done0, db.slowDone, db.slowDone + [ConvergeDone], Converges);
    assert db.run[i] == Last(run0);
    PassIsOver(db.run, db.steps, Slow(ConvergeDone), db.Cur().(slow := Converged), i);
    db.Record(Slow(ConvergeDone));
  }

  /** The loop of `_converge_stalled_workers`. */
  method ConvergeListed(db: Deployment, listed: Workers, at: Time, ghost i: nat, ghost done0: seq<SlowStep>)
    requires db.Valid() && db.Cur().slow == Converging(listed, at)
    requires Passing(db.run, db.steps, i, at) && SlowOnly(done0, db.slowDone, Converges)
    modifies db
    ensures db.Valid() && old(db.run) <= db.run && db.Cur().slow == Converging(map[], at)
    ensures Passing(db.run, db.steps, i, at) && SlowOnly(done0, db.slowDone, Converges)
  {
    hide Next, Behavior, Inv, SlowOnes, FastOnes, SlowOnly, InPass, Overdue, Passing;
    var todo := listed;
    while todo != map[]
      invariant db.Valid() && old(db.run) <= db.run && db.Cur().slow == Converging(todo, at)
      invariant Passing(db.run, db.steps, i, at) && SlowOnly(done0, db.slowDone, Converges)
      decreases |todo|
    {
      var w := PickKey(todo);
      ghost var run1, steps1, done1 := db.run, db.steps, db.slowDone;
      ConvergeOne(db, todo, at, w, todo[w]);
      PassGoesOn(run1, steps1, db.run, db.steps, i, at);
      SlowOnlyJoins(done0, done1, db.slowDone, Converges);
      todo := Without(todo, w);
    }
  }

  // ---------- health ----------

  lemma HealthSteps(c: Config, s: State, ws: set<WorkerId>)
    requires s.slow.Converged? && forall w <- ws :: w in s.workers && HealthCandidate(s.workers[w])
    ensures Next(c, s, Slow(HealthSkip)) == Some(s.(slow := Scaling))
    ensures Next(c, s, Slow(HealthList(ws))) == Some(s.(slow := Probing(ws)))
  {
  }

  function AllProbed(workers: Workers, probed: set<WorkerId>, ok: set<WorkerId>, now: Time): Workers {
    map w | w in workers :: if w in probed then Probed(workers[w], w in ok, now) else workers[w]
  }

  lemma HealthApplyStep(c: Config, s: State, ok: set<WorkerId>)
    requires s.slow.Probing?
    ensures Next(c, s, Slow(HealthApply(ok)))
            == Some(s.(workers := AllProbed(s.workers, s.slow.probed, ok, s.now), slow := Scaling))
  {
  }

  function HealthCandidates(workers: Workers): set<WorkerId> {
    set w | w in workers && HealthCandidate(workers[w])
  }

  /** `_refresh_worker_health`; the order in which workers are preferred for a probe is not modelled. */
  method RefreshWorkerHealth(db: Deployment) returns (batch: set<WorkerId>, ok: set<WorkerId>)
    requires db.Valid() && db.Cur().slow.Converged?
    modifies db
    ensures db.Valid() && old(db.run) <= db.run && db.Cur().slow.Scaling?
    ensures HealthCandidates(old(db.workers)) == {} ==>
              db.slowDone == old(db.slowDone) + [HealthSkip] && db.workers == old(db.workers)
    ensures HealthCandidates(old(db.workers)) != {} ==>
              && db.slowDone == old(db.slowDone) + [HealthList(batch), HealthApply(ok)]
              && batch <= HealthCandidates(old(db.workers))
              && |db.run| >= 2 && db.workers == AllProbed(Earlier(db.run).workers, batch, ok, db.now)
  {
    hide Next, Behavior, WorkersRest, SlowOnes, FastOnes;
    var candidates := HealthCandidates(db.workers);
    HealthSteps(db.c, db.Cur(), candidates);
    hide HealthCandidate, HealthCandidates;
    batch, ok := *, *;
    if candidates == {} {
      db.Record(Slow(HealthSkip));
      return;
    }
    batch := batch * candidates;
    HealthSteps(db.c, db.Cur(), batch);
    db.Record(Slow(HealthList(batch)));
    Rest(db);
    ApplyHealthChecks(db, batch, ok);
  }

  /** `apply_health_checks`. */
  method ApplyHealthChecks(db: Deployment, batch: set<WorkerId>, ok: set<WorkerId>)
    requires db.Valid() && db.Cur().slow == Probing(batch)
    modifies db
    ensures db.Valid() && old(db.run) <= db.run && db.Cur().slow.Scaling?
    ensures db.workers == AllProbed(old(db.workers), batch, ok, db.now)
    ensures db.slowDone == old(db.slowDone) + [HealthApply(ok)]
    ensures |db.run| == |old(db.run)| + 1 && Earlier(db.run).workers == old(db.workers)
  {
    hide Next, Behavior, SlowOnes, FastOnes;
    HealthApplyStep(db.c, db.Cur(), ok);
    var rows := ProbeRows(db.workers, batch, ok, db.now);
    db.workers := rows;
    db.Record(Slow(HealthApply(ok)));
  }

  lemma ProbedOneMore(before: Workers, done: set<WorkerId>, w: WorkerId, ok: set<WorkerId>, now: Time)
    requires w !in done
    ensures AllProbed(before, done, ok, now).Keys == before.Keys
    ensures AllProbed(before, done + {w}, ok, now)
            == if w in before then AllProbed(before, done, ok, now)[w := Probed(before[w], w in ok, now)]
               else AllProbed(before, done, ok, now)
    ensures w in before ==> AllProbed(before, done, ok, now)[w] == before[w]
  {
  }

  /** The loop of `apply_health_checks`. */
  method ProbeRows(before: Workers, batch: set<WorkerId>, ok: set<WorkerId>, now: Time) returns (rows: Workers)
    ensures rows == AllProbed(before, batch, ok, now)
  {
    hide AllProbed, Probed;
    rows := before;
    var todo := batch;
    ghost var done := {};
    NothingProbed(before, ok, now);
    while todo != {}
      invariant done !! todo && done + todo == batch
      invariant rows == AllProbed(before, done, ok, now)
      decreases |todo|
    {
      ghost var x := Pick(todo);
      assert x in todo;
      var w :| w in todo;
      ProbedOneMore(before, done, w, ok, now);
      if w in rows {
        rows := rows[w := Probed(rows[w], w in ok, now)];
      }
      done, todo := done + {w}, todo - {w};
    }
  }

  lemma NothingProbed(before: Workers, ok: set<WorkerId>, now: Time)
    ensures AllProbed(before, {}, ok, now) == before
  {
  }

  lemma SlowPcRests(s: State, s': State)
    requires WorkersRest(s, s')
    ensures s'.slow == s.slow && s'.quiet == s.quiet && s'.workers.Keys == s.workers.Keys && s.now <= s'.now
  {
  }

  // ---------- drains ----------

  lemma DrainListStep(c: Config, s: State)
    requires s.slow.Rotating? && s.slow.todo == map[]
    ensures Next(c, s, Slow(DrainList)) == Some(s.(slow := Draining(Select(s.workers, IsDraining))))
  {
  }

  lemma DrainCountSteps(c: Config, s: State, w: WorkerId)
    requires s.slow.Draining? && w in s.slow.todo
    ensures !Unattended(s.tasks, w) ==>
              Next(c, s, Slow(DrainBusy(w))) == Some(s.(slow := Draining(Without(s.slow.todo, w))))
    ensures Unattended(s.tasks, w) ==>
              Next(c, s, Slow(DrainLook(w))) == Some(s.(slow := DrainAt(Without(s.slow.todo, w), w, s.slow.todo[w])))
  {
    hide Unattended;
  }

  lemma DrainDecideSteps(c: Config, s: State, intent: Intent)
    requires s.slow.DrainAt? && s.slow.w in s.workers
    ensures var DrainAt(todo, w, seen) := s.slow;
            var rotated, ready := HasActiveReplacementFor(s.workers, w), HasReadyReplacementFor(c, s.workers, w);
            && (rotated && !ready ==> Next(c, s, Slow(DrainDefer)) == Some(s.(slow := Draining(todo))))
            && (intent == (if rotated || seen.drainTarget == Some(WantTerminated) then WantTerminated else WantStopped)
                && (rotated ==> ready) ==>
                  Next(c, s, Slow(DrainDecide(intent))) == Some(s.(slow := DrainTo(todo, w, intent))))
  {
    hide HasActiveReplacementFor, HasReadyReplacementFor, FastNext, GatewayNext, AdminNext, ReconcileNext, VisitNext;
    hide ConvergeNext, ScaleNext, RotateNext, RotationNext, CleanNext, Select, Finalized;
  }

  lemma DrainCommitStep(c: Config, s: State)
    requires s.slow.DrainTo? && s.slow.w in s.workers
    ensures var DrainTo(todo, w, intent) := s.slow;
            var row := s.workers[w];
            Next(c, s, Slow(DrainCommit))
            == Some(if intent.WantTerminated?
                    then SetWorker(s, w, row.(desired := WantTerminated))
                         .(slow := Draining(todo), quiet := s.quiet + {w})
                    else SetWorker(s, w, row.(desired := WantStopped, draining := false, drainTarget := None))
                         .(slow := Draining(todo)))
  {
  }

  /** What the invariant says while a drain is decided. */
  lemma DrainKnows(c: Config, s: State)
    requires Inv(c, s)
    ensures s.slow.DrainAt? ==> s.slow.w in s.workers && Unattended(s.tasks, s.slow.w)
    ensures s.slow.DrainTo? ==> s.slow.w in s.workers && Unattended(s.tasks, s.slow.w)
  {
    if s.slow.DrainAt? || s.slow.DrainTo? {
      assert MustBeIdle(s, s.slow.w);
    }
  }

  /** Whether a worker has a replacement on its way does not change while the slow loop awaits; and a ready
      replacement is one. */
  lemma ReplacementsRest(c: Config, s: State, s': State, w: WorkerId)
    requires WorkersRest(s, s')
    ensures HasActiveReplacementFor(s'.workers, w) <==> HasActiveReplacementFor(s.workers, w)
    ensures ActiveReplacements(s'.workers) == ActiveReplacements(s.workers)
    ensures LiveWorkers(s'.workers) == LiveWorkers(s.workers)
    ensures HasReadyReplacementFor(c, s.workers, w) ==> HasActiveReplacementFor(s.workers, w)
  {
    forall v | v in s.workers
      ensures ActiveReplacement(s'.workers[v]) == ActiveReplacement(s.workers[v])
      ensures Live(s'.workers[v]) == Live(s.workers[v])
    {
    }
    forall v
      ensures v in ActiveReplacements(s'.workers) <==> v in ActiveReplacements(s.workers)
      ensures v in LiveWorkers(s'.workers) <==> v in LiveWorkers(s.workers)
    {
    }
    if HasActiveReplacementFor(s.workers, w) {
      var v :| v in s.workers && ActiveReplacement(s.workers[v]) && s.workers[v].replacementFor == Some(w);
      assert ActiveReplacement(s'.workers[v]);
    }
    if HasActiveReplacementFor(s'.workers, w) {
      var v :| v in s'.workers && ActiveReplacement(s'.workers[v]) && s'.workers[v].replacementFor == Some(w);
      assert ActiveReplacement(s.workers[v]);
    }
  }

  /** The counts of `_advance_drains`. */
  method LooksDrained(db: Deployment, ghost todo: Workers, w: WorkerId) returns (idle: bool)
    requires db.Valid() && db.Cur().slow == Draining(todo) && w in todo
    modifies db
    ensures db.Valid() && old(db.run) <= db.run
    ensures db.Cur().slow == if idle then DrainAt(Without(todo, w), w, todo[w]) else Draining(Without(todo, w))
    ensures db.slowDone == old(db.slowDone) + [if idle then DrainLook(w) else DrainBusy(w)]
    ensures idle <==> Unattended(db.tasks, w)
  {
    hide Next, Behavior, WorkersRest, Inv, SlowOnes, FastOnes;
    Rest(db);
    var inflight := CountInflight(db, w);
    DrainCountSteps(db.c, db.Cur(), w);
    if inflight > 0 {
      db.Record(Slow(DrainBusy(w)));
      return false;
    }
    db.Record(Slow(DrainLook(w)));
    Rest(db);
    db.Know();
    DrainKnows(db.c, db.Cur());
    var unstored := CountUnstored(db, w);
    return unstored == 0;
  }

  /** What `_advance_drains` makes of a worker without work. */
  method DecideDrain(db: Deployment, ghost todo: Workers, w: WorkerId, seen: Worker) returns (intent: Option<Intent>)
    requires db.Valid() && db.Cur().slow == DrainAt(todo, w, seen)
    modifies db
    ensures db.Valid() && old(db.run) <= db.run
    ensures db.Cur().slow == if intent.Some? then DrainTo(todo, w, intent.value) else Draining(todo)
    ensures db.slowDone == old(db.slowDone) + [if intent.Some? then DrainDecide(intent.value) else DrainDefer]
    ensures var rotated := HasActiveReplacementFor(db.workers, w);
            intent == if rotated && !HasReadyReplacementFor(db.c, db.workers, w) then None
                      else Some(if rotated || seen.drainTarget == Some(WantTerminated) then WantTerminated
                                else WantStopped)
  {
    hide Next, Behavior, WorkersRest, Inv, HasActiveReplacementFor, HasReadyReplacementFor, SlowOnes, FastOnes;
    Rest(db);
    db.Know();
    DrainKnows(db.c, db.Cur());
    var rotated := HasActiveReplacementFor(db.workers, w);
    if rotated {
      ghost var s := db.Cur();
      Rest(db);
      ReplacementsRest(db.c, s, db.Cur(), w);
      if !HasReadyReplacementFor(db.c, db.workers, w) {
        DrainDecideSteps(db.c, db.Cur(), WantTerminated);
        db.Record(Slow(DrainDefer));
        return None;
      }
      intent := Some(WantTerminated);
    } else if seen.drainTarget == Some(WantTerminated) {
      intent := Some(WantTerminated);
    } else {
      intent := Some(WantStopped);
    }
    DrainDecideSteps(db.c, db.Cur(), intent.value);
    db.Record(Slow(DrainDecide(intent.value)));
  }

  /** The write that ends a drain. */
  method CommitDrain(db: Deployment, ghost todo: Workers, w: WorkerId, intent: Intent)
    requires !intent.WantRunning? && db.Valid() && db.Cur().slow == DrainTo(todo, w, intent)
    modifies db
    ensures db.Valid() && old(db.run) <= db.run && db.Cur().slow == Draining(todo)
    ensures db.slowDone == old(db.slowDone) + [DrainCommit]
    ensures w in db.workers && db.workers[w].desired == intent && Unattended(db.tasks, w)
    ensures intent.WantStopped? ==> !db.workers[w].draining && db.workers[w].drainTarget.None?
  {
    hide Next, Behavior, WorkersRest, Inv, SlowOnes, FastOnes;
    Rest(db);
    db.Know();
    DrainKnows(db.c, db.Cur());
    DrainCommitStep(db.c, db.Cur());
    if intent.WantTerminated? {
      db.workers := db.workers[w := db.workers[w].(desired := WantTerminated)];
    } else {
      db.workers := db.workers[w := db.workers[w].(desired := WantStopped, draining := false, drainTarget := None)];
    }
    db.Record(Slow(DrainCommit));
  }

  /** The log says that the draining worker was looked at: it has work and is left, or it has none and is
      deferred or its drain is committed. */
  ghost predicate Looked(before: seq<SlowStep>, after: seq<SlowStep>, w: WorkerId) {
    DrainBusy(w) in Since(before, after) || DrainLook(w) in Since(before, after)
  }

  ghost predicate AllLooked(before: seq<SlowStep>, after: seq<SlowStep>, ws: set<WorkerId>) {
    forall w <- ws :: Looked(before, after, w)
  }

  lemma OneMoreLooked(a: seq<SlowStep>, b: seq<SlowStep>, c: seq<SlowStep>, ws: set<WorkerId>, w: WorkerId)
    requires SlowOnly(a, b, Retires) && SlowOnly(b, c, Retires) && AllLooked(a, b, ws) && Looked(b, c, w)
    ensures SlowOnly(a, c, Retires) && AllLooked(a, c, ws + {w})
  {
    hide SlowPartOf;
    SlowOnlyJoins(a, b, c, Retires);
    SinceGrows(a, b, c);
    hide Since;
  }

  /** What one round of `_advance_drains` does: a worker with work is left; one without is deferred, or its
      drain is decided and committed. */
  function DrainTurn(w: WorkerId, idle: bool, intent: Option<Intent>): seq<SlowStep> {
    if !idle then [DrainBusy(w)]
    else
      match intent
      case None => [DrainLook(w), DrainDefer]
      case Some(i) => [DrainLook(w), DrainDecide(i), DrainCommit]
  }

  lemma DrainTurnOnly(done: seq<SlowStep>, w: WorkerId, idle: bool, intent: Option<Intent>)
    ensures SlowOnly(done, done + DrainTurn(w, idle, intent), Retires)
    ensures Looked(done, done + DrainTurn(w, idle, intent), w)
  {
    var ls := DrainTurn(w, idle, intent);
    SomeSlow(done, ls, Retires);
    assert Since(done, done + ls) == ls && ls[0] in ls;
  }

  /** One round of the loop of `_advance_drains`. */
  method AdvanceDrain(db: Deployment, ghost todo: Workers, w: WorkerId, seen: Worker)
    returns (idle: bool, intent: Option<Intent>)
    requires db.Valid() && db.Cur().slow == Draining(todo) && w in todo && todo[w] == seen
    modifies db
    ensures db.Valid() && old(db.run) <= db.run && db.Cur().slow == Draining(Without(todo, w))
    ensures db.slowDone == old(db.slowDone) + DrainTurn(w, idle, intent)
    ensures intent.Some? ==> w in db.workers && db.workers[w].desired == intent.value && Unattended(db.tasks, w)
  {
    hide Next, Behavior, WorkersRest, Inv, HasActiveReplacementFor, HasReadyReplacementFor, Unattended;
    hide SlowOnes, FastOnes;
    intent := None;
    idle := LooksDrained(db, todo, w);
    if idle {
      intent := DecideDrain(db, Without(todo, w), w, seen);
      if intent.Some? {
        CommitDrain(db, Without(todo, w), w, intent.value);
      }
    }
  }

  lemma NoneLooked(done: seq<SlowStep>)
    ensures SlowOnly(done, done + [DrainList], Retires) && AllLooked(done, done + [DrainList], {})
  {
  }

  /** `_advance_drains`: every draining worker is looked at. */
  method AdvanceDrains(db: Deployment)
    requires db.Valid() && db.Cur().slow.Rotating? && db.Cur().slow.todo == map[]
    modifies db
    ensures db.Valid() && old(db.run) <= db.run && db.Cur().slow == Draining(map[])
    ensures SlowOnly(old(db.slowDone), db.slowDone, Retires)
    ensures AllLooked(old(db.slowDone), db.slowDone, Select(old(db.workers), IsDraining).Keys)
  {
    hide Next, Behavior, SlowOnes, FastOnes, SlowOnly, AllLooked, Looked, Select;
    ghost var done0 := db.slowDone;
    DrainListStep(db.c, db.Cur());
    var todo := Select(db.workers, IsDraining);
    db.Record(Slow(DrainList));
    NoneLooked(done0);
    DrainListed(db, todo, done0);
  }

  /** The loop of `_advance_drains`. */
  method DrainListed(db: Deployment, listed: Workers, ghost done0: seq<SlowStep>)
    requires db.Valid() && db.Cur().slow == Draining(listed)
    requires SlowOnly(done0, db.slowDone, Retires) && AllLooked(done0, db.slowDone, {})
    modifies db
    ensures db.Valid() && old(db.run) <= db.run && db.Cur().slow == Draining(map[])
    ensures SlowOnly(done0, db.slowDone, Retires) && AllLooked(done0, db.slowDone, listed.Keys)
  {
    hide Next, Behavior, SlowOnes, FastOnes, SlowOnly, AllLooked, Looked, Select, DrainTurn, Unattended, Past, Without;
    var todo := listed;
    NonePast(listed);
    while todo != map[]
      invariant db.Valid() && old(db.run) <= db.run && db.Cur().slow == Draining(todo) && todo.Keys <= listed.Keys
      invariant SlowOnly(done0, db.slowDone, Retires) && AllLooked(done0, db.slowDone, Past(listed, todo))
      decreases |todo|
    {
      var w := PickKey(todo);
      ghost var done1 := db.slowDone;
      var idle, intent := AdvanceDrain(db, todo, w, todo[w]);
      DrainTurnOnly(done1, w, idle, intent);
      OneMoreLooked(done0, done1, db.slowDone, Past(listed, todo), w);
      OneMorePast(listed, todo, w);
      todo := Without(todo, w);
    }
  }

  // ---------- finalizing ----------

  function ToFinalize(workers: Workers): set<WorkerId> {
    set w | w in workers && Live(workers[w]) && workers[w].desired.WantTerminated? && workers[w].cloud.Terminated?
  }

  lemma FinalizeListStep(c: Config, s: State)
    requires s.slow == Draining(map[])
    ensures Next(c, s, Slow(FinalizeList)) == Some(s.(slow := Finalizing(ToFinalize(s.workers))))
  {
  }

  lemma FinalizeSteps(c: Config, s: State, w: WorkerId)
    requires s.slow.Finalizing?
    ensures w in s.slow.toFinalize ==>
              Next(c, s, Slow(Finalize(w)))
              == Some(s.(workers := Finalized(s.workers, w, s.now), slow := Finalizing(s.slow.toFinalize - {w})))
    ensures s.slow.toFinalize == {} ==> Next(c, s, Slow(FinalizeDone)) == Some(s.(slow := RotationCheck))
  {
    hide Finalized;
  }

  /** The loop over the replacements of a terminated worker. */
  function Unlinked(workers: Workers, w: WorkerId): Workers {
    map v | v in workers ::
      if workers[v].replacementFor == Some(w) then workers[v].(replacementFor := None) else workers[v]
  }

  lemma FinalizedRows(workers: Workers, w: WorkerId, now: Time)
    ensures var rows := Unlinked(workers, w);
            Finalized(workers, w, now) == if w in rows then rows[w := rows[w].(terminatedAt := Some(now))] else rows
    ensures forall v <- Finalized(workers, w, now) :: Finalized(workers, w, now)[v].replacementFor != Some(w)
    ensures w in Finalized(workers, w, now) ==> Finalized(workers, w, now)[w].terminatedAt == Some(now)
  {
  }

  /** `finalize_terminated_worker`. */
  method FinalizeTerminatedWorker(db: Deployment, ghost todo: set<WorkerId>, w: WorkerId)
    requires db.Valid() && db.Cur().slow == Finalizing(todo) && w in todo
    modifies db
    ensures db.Valid() && old(db.run) <= db.run && db.Cur().slow == Finalizing(todo - {w})
    ensures forall v <- db.workers :: db.workers[v].replacementFor != Some(w)
    ensures w in db.workers ==> db.workers[w].terminatedAt == Some(db.now)
    ensures db.slowDone == old(db.slowDone) + [Finalize(w)]
  {
    hide Next, Behavior, WorkersRest, Inv, SlowOnes, FastOnes;
    Rest(db);
    FinalizeSteps(db.c, db.Cur(), w);
    FinalizedRows(db.workers, w, db.now);
    hide Finalized;
    var rows := Unlinked(db.workers, w);
    if w in rows {
      rows := rows[w := rows[w].(terminatedAt := Some(db.now))];
    }
    db.workers := rows;
    db.Record(Slow(Finalize(w)));
  }

  ghost predicate AllFinalized(before: seq<SlowStep>, after: seq<SlowStep>, ws: set<WorkerId>) {
    forall w <- ws :: Finalize(w) in Since(before, after)
  }

  lemma OneMoreFinalized(a: seq<SlowStep>, b: seq<SlowStep>, ws: set<WorkerId>, w: WorkerId)
    requires SlowOnly(a, b, Finalizes) && AllFinalized(a, b, ws)
    ensures SlowOnly(a, b + [Finalize(w)], Finalizes) && AllFinalized(a, b + [Finalize(w)], ws + {w})
  {
    SomeSlow(b, [Finalize(w)], Finalizes);
    hide SlowPartOf;
    SlowOnlyJoins(a, b, b + [Finalize(w)], Finalizes);
    SinceGrows(a, b, b + [Finalize(w)]);
    assert Since(b, b + [Finalize(w)])[0] == Finalize(w);
    hide Since;
  }

  lemma FinalizedEnds(a: seq<SlowStep>, b: seq<SlowStep>, ws: set<WorkerId>)
    requires SlowOnly(a, b, Finalizes) && AllFinalized(a, b, ws)
    ensures SlowOnly(a, b + [FinalizeDone], Finalizes) && AllFinalized(a, b + [FinalizeDone], ws)
  {
    SomeSlow(b, [FinalizeDone], Finalizes);
    hide SlowPartOf;
    SlowOnlyJoins(a, b, b + [FinalizeDone], Finalizes);
    SinceGrows(a, b, b + [FinalizeDone]);
    hide Since;
  }

  lemma NoneFinalized(done: seq<SlowStep>)
    ensures SlowOnly(done, done + [FinalizeList], Finalizes) && AllFinalized(done, done + [FinalizeList], {})
  {
  }

  /** `_finalize_terminations`: every live worker that is to be terminated, and is, is finalized. */
  method FinalizeTerminations(db: Deployment)
    requires db.Valid() && db.Cur().slow == Draining(map[])
    modifies db
    ensures db.Valid() && old(db.run) <= db.run && db.Cur().slow.RotationCheck?
    ensures SlowOnly(old(db.slowDone), db.slowDone, Finalizes)
    ensures AllFinalized(old(db.slowDone), db.slowDone, ToFinalize(old(db.workers)))
  {
    hide Next, Behavior, SlowOnes, FastOnes, SlowOnly, AllFinalized, ToFinalize;
    ghost var done0 := db.slowDone;
    FinalizeListStep(db.c, db.Cur());
    var todo := ToFinalize(db.workers);
    db.Record(Slow(FinalizeList));
    NoneFinalized(done0);
    FinalizeListed(db, todo, done0);
    FinalizeSteps(db.c, db.Cur(), 0);
    FinalizedEnds(done0, db.slowDone, todo);
    db.Record(Slow(FinalizeDone));
  }

  /** The loop of `_finalize_terminations`. */
  method FinalizeListed(db: Deployment, listed: set<WorkerId>, ghost done0: seq<SlowStep>)
    requires db.Valid() && db.Cur().slow == Finalizing(listed)
    requires SlowOnly(done0, db.slowDone, Finalizes) && AllFinalized(done0, db.slowDone, {})
    modifies db
    ensures db.Valid() && old(db.run) <= db.run && db.Cur().slow == Finalizing({})
    ensures SlowOnly(done0, db.slowDone, Finalizes) && AllFinalized(done0, db.slowDone, listed)
  {
    hide Next, Behavior, SlowOnes, FastOnes, SlowOnly, AllFinalized, ToFinalize;
    var todo := listed;
    assert listed - todo == {};
    while todo != {}
      invariant db.Valid() && old(db.run) <= db.run && db.Cur().slow == Finalizing(todo) && todo <= listed
      invariant SlowOnly(done0, db.slowDone, Finalizes) && AllFinalized(done0, db.slowDone, listed - todo)
      decreases |todo|
    {
      ghost var x := Pick(todo);
      assert x in todo;
      var w :| w in todo;
      OneMoreFinalized(done0, db.slowDone, listed - todo, w);
      FinalizeTerminatedWorker(db, todo, w);
      assert listed - todo + {w} == listed - (todo - {w});
      todo := todo - {w};
    }
    assert listed - todo == listed;
  }
}
