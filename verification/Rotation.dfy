/** Rotation of workers (scheduler/scheduler.py), as methods of the slow loop. */
module Rotation {
  import opened Wrappers
  import opened Rows
  import opened Protocol
  import opened Database
  import opened Interleaving
  import opened Scheduler
  import Fleet

  function Replacements(workers: Workers): Workers {
    Select(workers, row => Live(row) && row.replacementFor.Some?)
  }

  lemma RotationsListStep(c: Config, s: State)
    requires s.slow.Scaled?
    ensures Next(c, s, Slow(RotationsList)) == Some(s.(slow := Rotating(Replacements(s.workers), s.now)))
  {
    hide FastNext, GatewayNext, AdminNext, ReconcileNext, VisitNext;
    hide ConvergeNext, DrainNext, RotationNext, CleanNext, ScaleNext, Finalized;
  }

  /** The old worker of a replacement can be put to drain. */
  predicate Drainable(workers: Workers, seen: Worker) {
    seen.replacementFor.Some? && CanStartDraining(workers, seen.replacementFor.value)
  }

  lemma RotateSteps(c: Config, s: State, w: WorkerId)
    requires s.slow.Rotating? && w in s.slow.todo && w in s.workers
    ensures var Rotating(todo, at) := s.slow;
            var seen, rest := todo[w], Rotating(Without(todo, w), at);
            && (ReplacementExpired(c, seen, at) ==>
                  Next(c, s, Slow(RotateExpire(w)))
                  == Some(SetWorker(s, w, s.workers[w].(desired := WantTerminated)).(slow := rest)))
            && (IsReady(seen) && Drainable(s.workers, seen) ==>
                  var old' := seen.replacementFor.value;
                  Next(c, s, Slow(RotateDrainOld(w)))
                  == Some(SetWorker(s, old', s.workers[old'].(draining := true)).(slow := rest)))
            && (!ReplacementExpired(c, seen, at) && !(IsReady(seen) && Drainable(s.workers, seen)) ==>
                  Next(c, s, Slow(RotateSkip(w))) == Some(s.(slow := rest)))
  {
    hide ReplacementExpired, IsReady, FastNext, GatewayNext, AdminNext, ReconcileNext, VisitNext;
    hide ConvergeNext, DrainNext, RotationNext, CleanNext, ScaleNext, Select, Finalized;
  }

  /** One round of the loop of `_progress_rotations`: an overdue replacement is given up; a ready one puts
      its old worker to drain; the step that does it is returned. */
  method ProgressRotation(db: Deployment, ghost todo: Workers, at: Time, w: WorkerId, seen: Worker)
    returns (ghost l: SlowStep)
    requires db.Valid() && db.Cur().slow == Rotating(todo, at) && w in todo && todo[w] == seen
    requires todo.Keys <= db.workers.Keys && seen.replacementFor.Some?
    modifies db
    ensures db.Valid() && old(db.run) <= db.run && db.Cur().slow == Rotating(Without(todo, w), at)
    ensures db.workers.Keys == old(db.workers.Keys)
    ensures db.slowDone == old(db.slowDone) + [l] && RotatesAs(db.c, w, seen, at, l)
    ensures l.RotateExpire? ==> db.workers[w].desired.WantTerminated?
    ensures l.RotateDrainOld? ==>
              seen.replacementFor.value in db.workers && db.workers[seen.replacementFor.value].draining
  {
    hide Next, Behavior, WorkersRest, IsReady, ReplacementExpired, SlowOnes, FastOnes;
    Rest(db);
    var drainable := Drainable(db.workers, seen);
    if ReplacementExpired(db.c, seen, at) {
      Rest(db);
      RotateSteps(db.c, db.Cur(), w);
      db.workers := db.workers[w := db.workers[w].(desired := WantTerminated)];
      db.Record(Slow(RotateExpire(w)));
      return RotateExpire(w);
    }
    if !IsReady(seen) || !drainable {
      RotateSteps(db.c, db.Cur(), w);
      db.Record(Slow(RotateSkip(w)));
      return RotateSkip(w);
    }
    l := DrainOld(db, todo, at, w, seen);
  }

  /** The step that a listed replacement calls for: given up when it is overdue; passed over when it is not
      ready; else its old worker is put to drain, unless that cannot be. */
  predicate RotatesAs(c: Config, w: WorkerId, seen: Worker, at: Time, l: SlowStep) {
    if ReplacementExpired(c, seen, at) then l == RotateExpire(w)
    else l == RotateSkip(w) || (IsReady(seen) && l == RotateDrainOld(w))
  }

  /** The write that puts the old worker to drain: nothing new when an administrator was faster. */
  method DrainOld(db: Deployment, ghost todo: Workers, at: Time, w: WorkerId, seen: Worker) returns (ghost l: SlowStep)
    requires db.Valid() && db.Cur().slow == Rotating(todo, at) && w in todo && todo[w] == seen && w in db.workers
    requires IsReady(seen) && !ReplacementExpired(db.c, seen, at) && Drainable(db.workers, seen)
    modifies db
    ensures db.Valid() && old(db.run) <= db.run && db.Cur().slow == Rotating(Without(todo, w), at)
    ensures db.workers.Keys == old(db.workers.Keys)
    ensures seen.replacementFor.value in db.workers && db.workers[seen.replacementFor.value].draining
    ensures db.slowDone == old(db.slowDone) + [l] && (l == RotateSkip(w) || l == RotateDrainOld(w))
  {
    hide Next, Behavior, IsReady, ReplacementExpired, SlowOnes, FastOnes;
    var target := seen.replacementFor.value;
    Rest(db);
    RotateSteps(db.c, db.Cur(), w);
    if db.workers[target].draining {
      db.Record(Slow(RotateSkip(w)));
      l := RotateSkip(w);
    } else {
      db.workers := db.workers[target := db.workers[target].(draining := true)];
      db.Record(Slow(RotateDrainOld(w)));
      l := RotateDrainOld(w);
    }
  }

  /** The log has the step that each of the listed replacements calls for. */
  ghost predicate AllRotated(
      c: Config, before: seq<SlowStep>, after: seq<SlowStep>, rows: Workers, ws: set<WorkerId>, at: Time)
  {
    forall w <- ws :: w in rows && exists l <- Since(before, after) :: RotatesAs(c, w, rows[w], at, l)
  }

  lemma OneMoreRotated(c: Config, a: seq<SlowStep>, b: seq<SlowStep>, rows: Workers, ws: set<WorkerId>,
                       w: WorkerId, at: Time, l: SlowStep)
    requires SlowOnly(a, b, Rotates) && AllRotated(c, a, b, rows, ws, at)
    requires w in rows && RotatesAs(c, w, rows[w], at, l)
    ensures SlowOnly(a, b + [l], Rotates) && AllRotated(c, a, b + [l], rows, ws + {w}, at)
  {
    SomeSlow(b, [l], Rotates);
    hide SlowPartOf, RotatesAs;
    SlowOnlyJoins(a, b, b + [l], Rotates);
    SinceGrows(a, b, b + [l]);
    assert Since(b, b + [l])[0] == l;
    assert l in Since(a, b + [l]);
    hide Since;
    forall v | v in ws + {w}
      ensures v in rows && exists m <- Since(a, b + [l]) :: RotatesAs(c, v, rows[v], at, m)
    {
      if v in ws {
        var m :| m in Since(a, b) && RotatesAs(c, v, rows[v], at, m);
        assert m in Since(a, b + [l]);
      }
    }
  }

  lemma NoneRotated(c: Config, done: seq<SlowStep>, rows: Workers, at: Time)
    ensures SlowOnly(done, done + [RotationsList], Rotates)
    ensures AllRotated(c, done, done + [RotationsList], rows, {}, at)
  {
  }

  /** `_progress_rotations`: every live replacement is seen to. */
  method ProgressRotations(db: Deployment)
    requires db.Valid() && db.Cur().slow.Scaled?
    modifies db
    ensures db.Valid() && old(db.run) <= db.run && db.Cur().slow.Rotating? && db.Cur().slow.todo == map[]
    ensures SlowOnly(old(db.slowDone), db.slowDone, Rotates)
    ensures var rows := Replacements(old(db.workers));
            AllRotated(db.c, old(db.slowDone), db.slowDone, rows, rows.Keys, old(db.now))
  {
    hide Next, Behavior, SlowOnes, FastOnes, SlowOnly, AllRotated;
    ghost var done0 := db.slowDone;
    RotationsListStep(db.c, db.Cur());
    var at := db.now;
    var todo := Replacements(db.workers);
    db.Record(Slow(RotationsList));
    NoneRotated(db.c, done0, todo, at);
    RotateListed(db, todo, at, done0);
  }

  /** The loop of `_progress_rotations`. */
  method RotateListed(db: Deployment, listed: Workers, at: Time, ghost done0: seq<SlowStep>)
    requires db.Valid() && db.Cur().slow == Rotating(listed, at) && listed.Keys <= db.workers.Keys
    requires forall w <- listed :: listed[w].replacementFor.Some?
    requires SlowOnly(done0, db.slowDone, Rotates) && AllRotated(db.c, done0, db.slowDone, listed, {}, at)
    modifies db
    ensures db.Valid() && old(db.run) <= db.run && db.Cur().slow == Rotating(map[], at)
    ensures SlowOnly(done0, db.slowDone, Rotates)
    ensures AllRotated(db.c, done0, db.slowDone, listed, listed.Keys, at)
  {
    hide Next, Behavior, SlowOnes, FastOnes, SlowOnly, AllRotated, RotatesAs, Past;
    var todo := listed;
    NonePast(listed);
    while todo != map[]
      invariant db.Valid() && old(db.run) <= db.run && db.Cur().slow == Rotating(todo, at)
      invariant todo.Keys <= db.workers.Keys && todo.Keys <= listed.Keys && forall w <- todo :: todo[w] == listed[w]
      invariant SlowOnly(done0, db.slowDone, Rotates)
      invariant AllRotated(db.c, done0, db.slowDone, listed, Past(listed, todo), at)
      decreases |todo|
    {
      var w := PickKey(todo);
      ghost var done1 := db.slowDone;
      ghost var l := ProgressRotation(db, todo, at, w, todo[w]);
      OneMoreRotated(db.c, done0, done1, listed, Past(listed, todo), w, at, l);
      OneMorePast(listed, todo, w);
      todo := Without(todo, w);
    }
  }

  // ---------- starting a rotation ----------

  lemma RotationSteps(c: Config, s: State, w: WorkerId, id: WorkerId)
    ensures s.slow.RotationCheck? ==> Next(c, s, Slow(RotationNone)) == Some(s.(slow := CleanupCheck))
    ensures s.slow.RotationCheck? && ActiveReplacements(s.workers) == {} && |LiveWorkers(s.workers)| < c.maxWorkers + 1
            && w in s.workers && RotationEligible(s.workers[w]) ==>
              Next(c, s, Slow(RotationBegin(w))) == Some(s.(slow := RotationStart(w)))
    ensures s.slow == RotationStart(w) && w in s.workers && id !in s.workers ==>
              Next(c, s, Slow(RotationCommit(id)))
              == Some(s.(workers := s.workers[w := s.workers[w].(rotationRequested := false)]
                                             [id := NewReplacement(s.workers[w], w, s.now)],
                         slow := CleanupCheck))
  {
    hide ActiveReplacements, LiveWorkers, RotationEligible, NewReplacement;
    hide FastNext, GatewayNext, AdminNext, ReconcileNext, VisitNext;
    hide ConvergeNext, DrainNext, RotateNext, CleanNext, ScaleNext, Select, Finalized;
  }

  method NoRotation(db: Deployment)
    requires db.Valid() && db.Cur().slow.RotationCheck?
    modifies db
    ensures db.Valid() && old(db.run) <= db.run && db.Cur().slow.CleanupCheck? && db.workers == old(db.workers)
    ensures db.now == old(db.now) && db.slowDone == old(db.slowDone) + [RotationNone]
  {
    hide Next, Behavior, SlowOnes, FastOnes;
    RotationSteps(db.c, db.Cur(), 0, 0);
    db.Record(Slow(RotationNone));
  }

  method RestFleet(db: Deployment)
    requires db.Valid()
    modifies db
    ensures db.Valid() && old(db.run) <= db.run && db.Cur().slow == old(db.Cur().slow)
    ensures LiveWorkers(db.workers) == LiveWorkers(old(db.workers)) && db.workers.Keys == old(db.workers.Keys)
    ensures ActiveReplacements(db.workers) == ActiveReplacements(old(db.workers)) && db.slowDone == old(db.slowDone)
  {
    hide Next, Behavior, WorkersRest, SlowOnes, FastOnes;
    ghost var s := db.Cur();
    Rest(db);
    ReplacementsRest(db.c, s, db.Cur(), 0);
  }

  /** The workers an administrator asked to rotate, and those that are old enough. */
  function Asked(workers: Workers): set<WorkerId> {
    set w | w in workers && RotationEligible(workers[w]) && workers[w].rotationRequested
  }

  function Due(workers: Workers, cutoff: Time): set<WorkerId> {
    set w | w in workers && RotationEligible(workers[w]) && workers[w].createdAt < cutoff
  }

  predicate OldestOf(workers: Workers, ws: set<WorkerId>, w: WorkerId)
    requires ws <= workers.Keys
  {
    w in ws && forall v <- ws :: workers[w].createdAt <= workers[v].createdAt
  }

  /** The worker to rotate: the oldest that an administrator asked for when those were looked for, else the
      oldest that is due when those are. */
  predicate IsTarget(seen: Workers, later: Workers, cutoff: Time, target: Option<WorkerId>) {
    var asked, due := Asked(seen), Due(later, cutoff);
    match target
    case None => asked == {} && due == {}
    case Some(w) => if asked != {} then OldestOf(seen, asked, w) else OldestOf(later, due, w)
  }

  /** The two queries for a worker to rotate, the second only when the first finds none. */
  method FindTarget(db: Deployment) returns (target: Option<WorkerId>, ghost seen: Workers, ghost cutoff: Time)
    requires db.Valid()
    modifies db
    ensures db.Valid() && old(db.run) <= db.run && db.Cur().slow == old(db.Cur().slow)
    ensures LiveWorkers(db.workers) == LiveWorkers(old(db.workers)) && db.workers.Keys == old(db.workers.Keys)
    ensures ActiveReplacements(db.workers) == ActiveReplacements(old(db.workers)) && db.slowDone == old(db.slowDone)
    ensures seen == old(db.workers) && cutoff == db.now - db.c.rotationInterval
    ensures target.None? || Asked(seen) == {} || db.workers == seen
    ensures IsTarget(seen, db.workers, cutoff, target)
  {
    hide Next, Behavior, WorkersRest, ActiveReplacements, LiveWorkers, RotationEligible, SlowOnes, FastOnes;
    seen, cutoff := db.workers, db.now - db.c.rotationInterval;
    target := Oldest(db.workers, Asked(db.workers));
    if target.None? {
      RestFleet(db);
      cutoff := db.now - db.c.rotationInterval;
      target := Oldest(db.workers, Due(db.workers, db.now - db.c.rotationInterval));
    }
  }

  method Oldest(workers: Workers, candidates: set<WorkerId>) returns (oldest: Option<WorkerId>)
    requires candidates <= workers.Keys
    ensures oldest.None? <==> candidates == {}
    ensures oldest.Some? ==> OldestOf(workers, candidates, oldest.value)
  {
    oldest := None;
    var todo := candidates;
    while todo != {}
      invariant todo <= candidates && (oldest.None? <==> todo == candidates)
      invariant oldest.Some? ==>
        && oldest.value in candidates
        && forall w <- candidates - todo :: workers[oldest.value].createdAt <= workers[w].createdAt
      decreases |todo|
    {
      ghost var x := Pick(todo);
      assert x in todo;
      var w :| w in todo;
      if oldest.None? || workers[w].createdAt < workers[oldest.value].createdAt {
        oldest := Some(w);
      }
      todo := todo - {w};
    }
  }

  /** The workers in one state of the history, and the workers and the time in a later one. */
  ghost predicate SeenSince(run: seq<State>, i: nat, seen: Workers, later: Workers, now: Time) {
    exists k, m :: i <= k <= m < |run| && run[k].workers == seen && run[m].workers == later && run[m].now == now
  }

  lemma NowSeen(before: seq<State>, run: seq<State>, i: nat)
    requires i < |before| && before <= run
    ensures SeenSince(run, i, Last(before).workers, Last(run).workers, Last(run).now)
  {
    var k, m := |before| - 1, |run| - 1;
    assert run[k] == Last(before) && run[m] == Last(run);
  }

  lemma StillSeen(run: seq<State>, run': seq<State>, i: nat, seen: Workers, later: Workers, now: Time)
    requires SeenSince(run, i, seen, later, now) && run <= run'
    ensures SeenSince(run', i, seen, later, now)
  {
    var k, m :| i <= k <= m < |run| && run[k].workers == seen && run[m].workers == later && run[m].now == now;
    assert run'[k] == run[k] && run'[m] == run[m];
  }

  /** The time in some state of the history since state i. */
  ghost predicate SeenAt(run: seq<State>, i: nat, now: Time) {
    exists k :: i <= k < |run| && run[k].now == now
  }

  lemma NowAt(run: seq<State>, i: nat)
    requires i < |run|
    ensures SeenAt(run, i, Last(run).now)
  {
    var k := |run| - 1;
    assert run[k] == Last(run);
  }

  lemma StillAt(run: seq<State>, run': seq<State>, i: nat, now: Time)
    requires SeenAt(run, i, now) && run <= run'
    ensures SeenAt(run', i, now)
  {
    var k :| i <= k < |run| && run[k].now == now;
    assert run'[k] == run[k];
  }

  /** `_start_new_rotations`: one replacement at a time, and not beyond one worker over the limit; the target
      is the right one of the workers seen when it is looked for. */
  method StartNewRotations(db: Deployment)
    returns (started: Option<(WorkerId, WorkerId)>, ghost seen: Workers, ghost later: Workers, ghost when: Time)
    requires db.Valid() && db.Cur().slow.RotationCheck?
    modifies db
    ensures db.Valid() && old(db.run) <= db.run && db.Cur().slow.CleanupCheck?
    ensures ActiveReplacements(old(db.workers)) != {} || |LiveWorkers(old(db.workers))| >= db.c.maxWorkers + 1 ==>
              started.None? && db.workers.Keys == old(db.workers.Keys)
    ensures ActiveReplacements(old(db.workers)) == {} && |LiveWorkers(old(db.workers))| < db.c.maxWorkers + 1 ==>
              && SeenSince(db.run, |old(db.run)| - 1, seen, later, when)
              && IsTarget(seen, later, when - db.c.rotationInterval,
                          if started.Some? then Some(started.value.0) else None)
    ensures db.slowDone
            == old(db.slowDone) + match started
                                  case None => [RotationNone]
                                  case Some((target, id)) => [RotationBegin(target), RotationCommit(id)]
  {
    hide Next, Behavior, WorkersRest, ActiveReplacements, LiveWorkers, RotationEligible, SlowOnes, FastOnes;
    hide SeenSince, IsTarget;
    ghost var i := |db.run| - 1;
    started, seen, later, when := None, map[], map[], 0;
    RestFleet(db);
    var active := |ActiveReplacements(db.workers)|;
    if active > 0 {
      NoRotation(db);
      return;
    }
    RestFleet(db);
    if |LiveWorkers(db.workers)| >= db.c.maxWorkers + 1 {
      NoRotation(db);
      return;
    }
    RestFleet(db);
    ghost var run1 := db.run;
    var target, rows, cutoff := FindTarget(db);
    seen, later, when := rows, db.workers, db.now;
    NowSeen(run1, db.run, i);
    ghost var run2 := db.run;
    if target.None? {
      NoRotation(db);
    } else {
      TargetIsEligible(rows, db.workers, cutoff, target.value);
      var id := StartRotationReplacement(db, target.value);
      started := Some((target.value, id));
    }
    StillSeen(run2, db.run, i, seen, later, when);
  }

  lemma TargetIsEligible(seen: Workers, later: Workers, cutoff: Time, w: WorkerId)
    requires IsTarget(seen, later, cutoff, Some(w)) && (Asked(seen) == {} || later == seen)
    ensures w in later && RotationEligible(later[w])
  {
    hide RotationEligible;
  }

  /** `start_rotation_replacement`. */
  method StartRotationReplacement(db: Deployment, target: WorkerId) returns (id: WorkerId)
    requires db.Valid() && db.Cur().slow.RotationCheck? && target in db.workers && RotationEligible(db.workers[target])
    requires ActiveReplacements(db.workers) == {} && |LiveWorkers(db.workers)| < db.c.maxWorkers + 1
    modifies db
    ensures db.Valid() && old(db.run) <= db.run && db.Cur().slow.CleanupCheck?
    ensures db.slowDone == old(db.slowDone) + [RotationBegin(target), RotationCommit(id)]
    ensures id !in old(db.workers) && id in db.workers && target in db.workers
            && db.workers[id].replacementFor == Some(target)
            && db.workers[id].generation == db.workers[target].generation + 1
            && !db.workers[target].rotationRequested
  {
    hide Next, Behavior, WorkersRest, ActiveReplacements, LiveWorkers, RotationEligible, SlowOnes, FastOnes;
    RotationSteps(db.c, db.Cur(), target, 0);
    db.Record(Slow(RotationBegin(target)));
    RestFleet(db);
    id := Fleet.DrawId(db.workers);
    RotationSteps(db.c, db.Cur(), target, id);
    var row := db.workers[target];
    db.workers := db.workers[target := row.(rotationRequested := false)][id := NewReplacement(row, target, db.now)];
    db.Record(Slow(RotationCommit(id)));
  }
}
