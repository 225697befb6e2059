/** The cache service (scheduler/cache_service.py): its methods, each session and store call of which is a
    step of the cache's state machine, with any number of other calls running at every await. */
module CacheService {
  import opened Wrappers
  import opened Rows
  import opened CacheProtocol
  import opened CacheProofs
  import opened CacheTheorems
  import Payload

  /** The call a step belongs to. */
  function Owner(step: CacheStep): Option<int> {
    match step
    case Ingest(_, _) => None
    case Produce(_, _) => None
    case ResultGone(_) => None
    case Pass(_) => None
    case LookupExpired(p, _) => Some(p)
    case LookupHit(p, _) => Some(p)
    case Placeholder(p, _, _) => Some(p)
    case DropDone(p, _) => Some(p)
    case PopulateCopy(p, _, _) => Some(p)
    case PopulateRead(p) => Some(p)
    case PopulateCas(p) => Some(p)
    case PopulateFail(p) => Some(p)
    case InvalidateRead(p, _) => Some(p)
    case InvalidateClaim(p) => Some(p)
    case InvalidateDelete(p, _) => Some(p)
    case InvalidateRemove(p) => Some(p)
    case SweepList(p, _) => Some(p)
    case SweepDelete(p, _, _) => Some(p)
    case SweepRemove(p, _) => Some(p)
    case HitCopy(p, _) => Some(p)
    case Cut(p) => Some(p)
  }

  predicate SameCall(s: CacheState, s': CacheState, p: int) {
    (p in s.calls <==> p in s'.calls) && (p in s.calls ==> s'.calls[p] == s.calls[p])
  }

  /** What the other calls leave alone: what this one holds, and everything that only grows. */
  ghost predicate Leaves(s: CacheState, s': CacheState, p: int) {
    && SameCall(s, s', p) && s.drawn <= s'.drawn
    && (forall t <- s.tasks :: t in s'.tasks && s'.tasks[t] == s.tasks[t])
  }

  lemma StepLeaves(s: CacheState, step: CacheStep, s': CacheState, p: int)
    requires CacheNext(s, step) == Some(s') && Owner(step) != Some(p)
    ensures Leaves(s, s', p)
  {
    hide KeyOf, ReadRows, LookupNext, PopulateNext, InvalidateNext, SweepNext, Leaves;
    match step
    case LookupExpired(_, _) => LookupLeaves(s, step, s', p);
    case LookupHit(_, _) => LookupLeaves(s, step, s', p);
    case Placeholder(_, _, _) => LookupLeaves(s, step, s', p);
    case HitCopy(_, _) => LookupLeaves(s, step, s', p);
    case PopulateRead(_) => PopulateLeaves(s, step, s', p);
    case PopulateCas(_) => PopulateLeaves(s, step, s', p);
    case PopulateFail(_) => PopulateLeaves(s, step, s', p);
    case InvalidateRead(_, _) => InvalidateLeaves(s, step, s', p);
    case InvalidateClaim(_) => InvalidateLeaves(s, step, s', p);
    case InvalidateDelete(_, _) => InvalidateLeaves(s, step, s', p);
    case InvalidateRemove(_) => InvalidateLeaves(s, step, s', p);
    case SweepList(_, _) => SweepLeaves(s, step, s', p);
    case SweepDelete(_, _, _) => SweepLeaves(s, step, s', p);
    case SweepRemove(_, _) => SweepLeaves(s, step, s', p);
    case _ => OtherLeaves(s, step, s', p);
  }

  lemma OtherLeaves(s: CacheState, step: CacheStep, s': CacheState, p: int)
    requires || step.Ingest? || step.Produce? || step.ResultGone? || step.DropDone? || step.PopulateCopy? || step.Cut?
             || step.Pass?
    requires CacheNext(s, step) == Some(s') && Owner(step) != Some(p)
    ensures Leaves(s, s', p)
  {
    hide KeyOf, ReadRows, LookupNext, PopulateNext, InvalidateNext, SweepNext;
  }

  lemma LookupLeaves(s: CacheState, step: CacheStep, s': CacheState, p: int)
    requires (step.LookupExpired? || step.LookupHit? || step.Placeholder? || step.HitCopy?) && step.p != p
    requires LookupNext(s, step) == Some(s')
    ensures Leaves(s, s', p)
  {
    hide KeyOf;
  }

  lemma PopulateLeaves(s: CacheState, step: CacheStep, s': CacheState, p: int)
    requires (step.PopulateRead? || step.PopulateCas? || step.PopulateFail?) && step.p != p
    requires PopulateNext(s, step) == Some(s')
    ensures Leaves(s, s', p)
  {
  }

  lemma InvalidateLeaves(s: CacheState, step: CacheStep, s': CacheState, p: int)
    requires step.InvalidateRead? || step.InvalidateClaim? || step.InvalidateDelete? || step.InvalidateRemove?
    requires step.p != p && InvalidateNext(s, step) == Some(s')
    ensures Leaves(s, s', p)
  {
  }

  lemma SweepLeaves(s: CacheState, step: CacheStep, s': CacheState, p: int)
    requires (step.SweepList? || step.SweepDelete? || step.SweepRemove?) && step.p != p
    requires SweepNext(s, step) == Some(s')
    ensures Leaves(s, s', p)
  {
    hide ReadRows;
  }

  ghost predicate OthersOnly(steps: seq<CacheStep>, from: nat, p: int) {
    forall k | from <= k < |steps| :: Owner(steps[k]) != Some(p)
  }

  lemma {:induction false} OthersLeave(run: seq<CacheState>, steps: seq<CacheStep>, i: nat, p: int)
    requires CacheRun(run, steps) && i < |run| && OthersOnly(steps, i, p)
    ensures Leaves(run[i], Last(run), p)
    decreases |run| - i
  {
    hide CacheNext;
    if i < |steps| {
      assert Leads(run, steps, i);
      StepLeaves(run[i], steps[i], run[i + 1], p);
      OthersLeave(run, steps, i + 1, p);
    }
  }

  // ---------- the sessions as steps ----------

  lemma LookupSteps(s: CacheState, p: int, key: string, r: Payload.Request)
    requires p !in s.calls && key == KeyOf(r) && key in s.rows
    ensures Expired(s.rows[key], s.now) ==>
              CacheNext(s, LookupExpired(p, key))
              == Some(DropNext(SetEntry(s, key, ResetEntry(s.rows[key])), p, s.rows[key].pointer))
    ensures !Expired(s.rows[key], s.now) && s.rows[key].pointer.Some? ==>
              CacheNext(s, LookupHit(p, r))
              == Some(SetEntry(s, key, s.rows[key].(hits := s.rows[key].hits + 1))
                      .(calls := s.calls[p := HitReady(key, s.rows[key].pointer.value, r)]))
  {
    hide KeyOf;
  }

  lemma PlaceholderSteps(s: CacheState, p: int, key: string, ttl: nat)
    requires p !in s.calls
    ensures key !in s.rows ==>
              CacheNext(s, Placeholder(p, key, ttl))
              == Some(SetEntry(s, key, NewEntry(ttl, s.now, s.lives)).(lives := s.lives + 1))
    ensures key in s.rows && Expired(s.rows[key], s.now) ==>
              CacheNext(s, Placeholder(p, key, ttl))
              == Some(DropNext(SetEntry(s, key, ResetEntry(s.rows[key]).(expiresAt := Expiry(ttl, s.now))), p,
                               s.rows[key].pointer))
    ensures key in s.rows && !Expired(s.rows[key], s.now) ==> CacheNext(s, Placeholder(p, key, ttl)) == Some(s)
  {
  }

  lemma DropStep(s: CacheState, p: int, o: ObjKey, ok: bool)
    requires p in s.calls && s.calls[p] == Dropping(o)
    ensures CacheNext(s, DropDone(p, ok))
            == Some(s.(store := if ok then s.store - {o} else s.store, calls := s.calls - {p}))
  {
  }

  lemma HitCopyStep(s: CacheState, p: int, t: TaskId, key: string, source: ObjKey, r: Payload.Request)
    requires p in s.calls && s.calls[p] == HitReady(key, source, r) && t !in s.tasks && t !in s.hitTasks
    ensures CacheNext(s, HitCopy(p, t))
            == Some(if source !in s.store then s.(calls := s.calls - {p})
                    else s.(store := s.store[ResultObj(t) := s.store[source]], hitTasks := s.hitTasks[t := r],
                            calls := s.calls - {p}))
  {
  }

  lemma CopyStep(s: CacheState, p: int, t: TaskId, generation: string, key: string)
    requires p !in s.calls && t in s.tasks && generation !in s.drawn && ResultObj(t) in s.store
             && key == KeyOf(s.tasks[t])
    ensures var dest := CacheObj(key, generation);
            CacheNext(s, PopulateCopy(p, t, generation))
            == Some(s.(store := s.store[dest := s.store[ResultObj(t)]], drawn := s.drawn + {generation},
                       calls := s.calls[p := Populating(key, dest)]))
  {
    hide KeyOf;
  }

  lemma PopulateSteps(s: CacheState, p: int, key: string, dest: ObjKey, expected: nat)
    requires p in s.calls
    ensures s.calls[p] == Populating(key, dest) ==>
              CacheNext(s, PopulateRead(p))
              == Some(if key !in s.rows then s.(calls := s.calls[p := Dropping(dest)])
                      else s.(calls := s.calls[p := PopulateReady(key, dest, s.rows[key].generation)]))
    ensures s.calls[p] == PopulateReady(key, dest, expected) ==>
              CacheNext(s, PopulateCas(p))
              == Some(if key in s.rows && Linkable(s.rows[key], expected)
                      then SetEntry(s, key, Linked(s.rows[key], dest)).(calls := s.calls - {p})
                      else s.(calls := s.calls[p := Dropping(dest)]))
  {
  }

  lemma InvalidateReadStep(s: CacheState, p: int, key: string)
    requires p !in s.calls && key in s.rows
    ensures CacheNext(s, InvalidateRead(p, key)) == Some(s.(calls := s.calls[p := InvalidateReady(key, s.rows[key])]))
  {
    hide PopulateNext, SweepNext, LookupNext;
  }

  lemma InvalidateClaimStep(s: CacheState, p: int, key: string, seen: Entry)
    requires p in s.calls && s.calls[p] == InvalidateReady(key, seen)
    ensures CacheNext(s, InvalidateClaim(p))
            == Some(if key in s.rows && s.rows[key].generation == seen.generation
                    then SetEntry(s, key, Unlinked(s.rows[key]))
                         .(calls := s.calls[p := InvalidateClaimed(key, seen.pointer, seen.generation + 1)])
                    else s.(calls := s.calls - {p}))
  {
    hide PopulateNext, SweepNext, LookupNext;
  }

  lemma InvalidateDeleteStep(s: CacheState, p: int, key: string, claimed: nat, gone: Option<ObjKey>, ok: bool)
    requires p in s.calls && s.calls[p] == InvalidateClaimed(key, gone, claimed)
    ensures CacheNext(s, InvalidateDelete(p, ok))
            == Some(if gone.None? then s.(calls := s.calls[p := InvalidateDeleted(key, claimed)])
                    else if ok then s.(store := s.store - {gone.value},
                                       calls := s.calls[p := InvalidateDeleted(key, claimed)])
                    else s.(calls := s.calls - {p}))
  {
    hide PopulateNext, SweepNext, LookupNext;
  }

  lemma InvalidateRemoveStep(s: CacheState, p: int, key: string, claimed: nat)
    requires p in s.calls && s.calls[p] == InvalidateDeleted(key, claimed)
    ensures CacheNext(s, InvalidateRemove(p))
            == Some(if key in s.rows && Linkable(s.rows[key], claimed)
                    then s.(rows := s.rows - {key}, calls := s.calls - {p}) else s.(calls := s.calls - {p}))
  {
    hide PopulateNext, SweepNext, LookupNext;
  }

  lemma SweepListStep(s: CacheState, p: int, keys: set<string>)
    requires p !in s.calls && forall k <- keys :: k in s.rows && Expired(s.rows[k], s.now)
    ensures CacheNext(s, SweepList(p, keys)) == Some(s.(calls := s.calls[p := Sweeping(ReadRows(s.rows, keys), map[])]))
  {
    hide PopulateNext, InvalidateNext, LookupNext, ReadRows;
  }

  lemma SweepDeleteStep(s: CacheState, p: int, key: string, todo: map<string, Entry>, ok: bool)
    requires p in s.calls && s.calls[p] == Sweeping(todo, map[]) && key in todo
    ensures CacheNext(s, SweepDelete(p, key, ok))
            == Some(if todo[key].pointer.Some? && !ok then s.(calls := s.calls[p := Sweeping(todo - {key}, map[])])
                    else s.(store := if todo[key].pointer.Some? then s.store - {todo[key].pointer.value} else s.store,
                            calls := s.calls[p := Sweeping(todo - {key}, map[key := todo[key]])]))
  {
    hide PopulateNext, InvalidateNext, LookupNext;
    assert map[][key := todo[key]] == map[key := todo[key]];
  }

  lemma SweepRemoveStep(s: CacheState, p: int, key: string, todo: map<string, Entry>, seen: Entry)
    requires p in s.calls && s.calls[p] == Sweeping(todo, map[key := seen])
    ensures CacheNext(s, SweepRemove(p, key))
            == Some((if key in s.rows && s.rows[key].generation == seen.generation then s.(rows := s.rows - {key})
                     else s)
                    .(calls := s.calls[p := Sweeping(todo, map[])]))
  {
    hide PopulateNext, InvalidateNext, LookupNext;
    assert map[key := seen] - {key} == map[];
  }

  lemma LinkedIsMade(s: CacheState, p: int, key: string, dest: ObjKey)
    requires PointersOk(s) && BytesOk(s) && p in s.calls && PendingDest(s.calls[p]) == Some(dest)
    requires s.calls[p].key == key
    ensures dest in s.store && MadeFor(s, key, s.store[dest])
  {
    hide KeyOf, MadeFor;
    assert CallOk(s, s.calls[p]);
    assert ObjectOk(s, dest, s.store[dest]);
  }

  lemma MadeForStays(s: CacheState, s': CacheState, key: string, data: Bytes)
    requires MadeFor(s, key, data) && s'.tasks == s.tasks && s'.produced == s.produced
    ensures MadeFor(s', key, data)
  {
    hide KeyOf;
  }

  lemma DroppedIsUnlinked(s: CacheState, p: int, o: ObjKey)
    requires PointersOk(s) && p in s.calls && s.calls[p] == Dropping(o)
    ensures !LinkedAt(s, o)
  {
    assert CallOk(s, s.calls[p]);
  }

  lemma CutStep(s: CacheState, p: int)
    ensures CacheNext(s, Cut(p)) == Some(s.(calls := s.calls - {p}))
  {
  }

  lemma PointedIsStored(run: seq<CacheState>, steps: seq<CacheStep>, key: string)
    requires CacheRun(run, steps) && key in Last(run).rows && Last(run).rows[key].pointer.Some?
    requires !Expired(Last(run).rows[key], Last(run).now)
    ensures var s := Last(run);
            var o := s.rows[key].pointer.value;
            o in s.store && MadeFor(s, key, s.store[o])
  {
    NoDanglingPointer(run, steps, |run| - 1, key);
  }

  lemma HitIsMade(run: seq<CacheState>, steps: seq<CacheStep>, t: TaskId)
    requires CacheRun(run, steps) && t in Last(run).hitTasks && ResultObj(t) in Last(run).store
    ensures MadeFor(Last(run), KeyOf(Last(run).hitTasks[t]), Last(run).store[ResultObj(t)])
  {
    hide KeyOf;
    var s := Last(run);
    CacheAlways(run, steps, |run| - 1);
    assert ObjectOk(s, ResultObj(t), s.store[ResultObj(t)]);
  }

  // ---------- what the history says of a call ----------

  /** Step k of the history is the given one. */
  ghost predicate At(run: seq<CacheState>, steps: seq<CacheStep>, k: nat, step: CacheStep) {
    |run| == |steps| + 1 && k < |steps| && steps[k] == step
  }

  /** Step k copies the result of the task to an object of a name not drawn before. */
  ghost predicate CopiedAt(run: seq<CacheState>, steps: seq<CacheStep>, k: nat, p: int, t: TaskId, dest: ObjKey) {
    && dest.CacheObj? && At(run, steps, k, PopulateCopy(p, t, dest.generation)) && dest.generation !in run[k].drawn
    && ResultObj(t) in run[k].store && run[k + 1].store == run[k].store[dest := run[k].store[ResultObj(t)]]
  }

  /** Step k reads the generation of the row, if there is one. */
  ghost predicate ReadAt(
      run: seq<CacheState>, steps: seq<CacheStep>, k: nat, p: int, key: string, expected: Option<nat>)
  {
    && At(run, steps, k, PopulateRead(p))
    && expected == if key in run[k].rows then Some(run[k].rows[key].generation) else None
  }

  /** Step k is a compare-and-set, which links the copy exactly if the row is of the expected generation and
      without an object. */
  ghost predicate CasAt(run: seq<CacheState>, steps: seq<CacheStep>, k: nat, p: int, key: string, dest: ObjKey,
                        expected: nat, linked: bool) {
    && At(run, steps, k, PopulateCas(p))
    && (linked <==> key in run[k].rows && Linkable(run[k].rows[key], expected))
    && run[k + 1].rows == if linked then run[k].rows[key := Linked(run[k].rows[key], dest)] else run[k].rows
  }

  /** The last step is the deletion of the object, if the store let it; no row points to it. */
  ghost predicate DroppedLast(run: seq<CacheState>, steps: seq<CacheStep>, p: int, o: ObjKey) {
    && |run| == |steps| + 1 && steps != [] && Last(steps).DropDone? && Last(steps).p == p
    && !LinkedAt(Last(run), o) && (Last(steps).ok ==> o !in Last(run).store)
  }

  /** Step k claims the row for an invalidation, exactly if it is of the generation that was read. */
  ghost predicate ClaimedAt(
      run: seq<CacheState>, steps: seq<CacheStep>, k: nat, p: int, key: string, seen: Entry, claimed: bool)
  {
    && At(run, steps, k, InvalidateClaim(p)) && run[k + 1].store == run[k].store
    && (claimed <==> key in run[k].rows && run[k].rows[key].generation == seen.generation)
    && run[k + 1].rows == if claimed then run[k].rows[key := Unlinked(run[k].rows[key])] else run[k].rows
  }

  /** Step k is the deletion of the object that an invalidation unlinked, if there was one and the store lets
      it. */
  ghost predicate DeletedAt(
      run: seq<CacheState>, steps: seq<CacheStep>, k: nat, p: int, gone: Option<ObjKey>, ok: bool)
  {
    && At(run, steps, k, InvalidateDelete(p, ok)) && run[k + 1].rows == run[k].rows
    && run[k + 1].store == if gone.Some? && ok then run[k].store - {gone.value} else run[k].store
  }

  /** Step k ends an invalidation: the row is removed exactly if it is as it was claimed. */
  ghost predicate UnusedAt(
      run: seq<CacheState>, steps: seq<CacheStep>, k: nat, p: int, key: string, claimed: nat, removed: bool)
  {
    && At(run, steps, k, InvalidateRemove(p)) && run[k + 1].store == run[k].store
    && (removed <==> key in run[k].rows && Linkable(run[k].rows[key], claimed))
    && run[k + 1].rows == if removed then run[k].rows - {key} else run[k].rows
  }

  /** Step k is the deletion of the object the swept row was seen to point to, if there was one and the store
      lets it. */
  ghost predicate SweptAt(
      run: seq<CacheState>, steps: seq<CacheStep>, k: nat, p: int, key: string, gone: Option<ObjKey>, ok: bool)
  {
    && At(run, steps, k, SweepDelete(p, key, ok)) && run[k + 1].rows == run[k].rows
    && run[k + 1].store == if gone.Some? && ok then run[k].store - {gone.value} else run[k].store
  }

  /** Step k ends the sweep of a row: it is removed exactly if it is of the generation that was read. */
  ghost predicate RemovedAt(
      run: seq<CacheState>, steps: seq<CacheStep>, k: nat, p: int, key: string, generation: nat, removed: bool)
  {
    && At(run, steps, k, SweepRemove(p, key)) && run[k + 1].store == run[k].store
    && (removed <==> key in run[k].rows && run[k].rows[key].generation == generation)
    && run[k + 1].rows == if removed then run[k].rows - {key} else run[k].rows
  }

  /** What was done stays done as the history grows. */
  lemma StaysDone(run: seq<CacheState>, steps: seq<CacheStep>, run': seq<CacheState>, steps': seq<CacheStep>, k: nat)
    requires run <= run' && steps <= steps' && |run'| == |steps'| + 1
    ensures forall p, t, o :: CopiedAt(run, steps, k, p, t, o) ==> CopiedAt(run', steps', k, p, t, o)
    ensures forall p, key, e :: ReadAt(run, steps, k, p, key, e) ==> ReadAt(run', steps', k, p, key, e)
    ensures forall p, o, ok :: DeletedAt(run, steps, k, p, o, ok) ==> DeletedAt(run', steps', k, p, o, ok)
    ensures forall p, key, e, b :: ClaimedAt(run, steps, k, p, key, e, b) ==> ClaimedAt(run', steps', k, p, key, e, b)
    ensures forall p, key, o, ok :: SweptAt(run, steps, k, p, key, o, ok) ==> SweptAt(run', steps', k, p, key, o, ok)
    ensures forall p, key, g, b :: RemovedAt(run, steps, k, p, key, g, b) ==> RemovedAt(run', steps', k, p, key, g, b)
  {
    if k < |steps| && |run| == |steps| + 1 {
      assert run'[k] == run[k] && run'[k + 1] == run[k + 1] && steps'[k] == steps[k];
    }
  }

  /** The sweep has removed the row, as it was listed, since the given step. */
  ghost predicate RemovedSince(
      run: seq<CacheState>, steps: seq<CacheStep>, from: nat, p: int, key: string, generation: nat)
  {
    exists k :: from <= k && RemovedAt(run, steps, k, p, key, generation, true)
  }

  ghost predicate AllRemoved(run: seq<CacheState>, steps: seq<CacheStep>, from: nat, p: int,
                             rows: map<string, Entry>, swept: set<string>) {
    forall key <- swept :: key in rows && RemovedSince(run, steps, from, p, key, rows[key].generation)
  }

  lemma StillRemoved(run: seq<CacheState>, steps: seq<CacheStep>, run': seq<CacheState>, steps': seq<CacheStep>,
                     from: nat, p: int, rows: map<string, Entry>, swept: set<string>)
    requires run <= run' && steps <= steps' && |run'| == |steps'| + 1 && AllRemoved(run, steps, from, p, rows, swept)
    ensures AllRemoved(run', steps', from, p, rows, swept)
  {
    hide RemovedAt;
    forall key | key in swept
      ensures RemovedSince(run', steps', from, p, key, rows[key].generation)
    {
      var k :| from <= k && RemovedAt(run, steps, k, p, key, rows[key].generation, true);
      StaysDone(run, steps, run', steps', k);
    }
  }

  lemma OneMoreRemoved(run: seq<CacheState>, steps: seq<CacheStep>, from: nat, p: int, rows: map<string, Entry>,
                       swept: set<string>, key: string)
    requires AllRemoved(run, steps, from, p, rows, swept)
    requires key in rows && RemovedSince(run, steps, from, p, key, rows[key].generation)
    ensures AllRemoved(run, steps, from, p, rows, swept + {key})
  {
  }

  lemma NoneRemoved(run: seq<CacheState>, steps: seq<CacheStep>, from: nat, p: int, rows: map<string, Entry>)
    ensures AllRemoved(run, steps, from, p, rows, {})
  {
  }

  /** The sweep has `todo` of the listed rows ahead, and has counted the removed ones. */
  ghost predicate Counted(listed: map<string, Entry>, todo: map<string, Entry>, swept: set<string>, removed: nat) {
    && todo.Keys <= listed.Keys && (forall key <- todo :: todo[key] == listed[key])
    && swept !! todo.Keys && swept <= listed.Keys && removed == |swept| && removed + |todo| <= |listed|
  }

  lemma NoneCounted(listed: map<string, Entry>)
    ensures Counted(listed, listed, {}, 0)
  {
  }

  lemma OneMoreCounted(
      listed: map<string, Entry>, todo: map<string, Entry>, swept: set<string>, removed: nat, key: string)
    requires Counted(listed, todo, swept, removed) && key in todo
    ensures key in listed && todo[key] == listed[key] && |todo - {key}| < |todo|
    ensures Counted(listed, todo - {key}, swept, removed) && Counted(listed, todo - {key}, swept + {key}, removed + 1)
  {
  }

  lemma LastCounted(listed: map<string, Entry>, todo: map<string, Entry>, swept: set<string>, removed: nat)
    requires Counted(listed, todo, swept, removed)
    ensures removed == |swept| <= |listed| && swept <= listed.Keys
  {
  }

  // ---------- fresh names ----------

  lemma {:induction false} LongerThanAll(names: set<string>) returns (n: nat)
    ensures forall name <- names :: |name| < n
  {
    n := 0;
    if names != {} {
      var x := Pick(names);
      var m := LongerThanAll(names - {x});
      n := if |x| < m then m else |x| + 1;
      assert forall name <- names :: name == x || name in names - {x};
    }
  }

  lemma FreshNameExists(names: set<string>)
    ensures exists name: string :: name !in names
  {
    var n := LongerThanAll(names);
    var name := seq(n, i => 'a');
    assert name !in names;
  }

  /** `short_id` and `uuid4` draw names that are not in use. */
  method DrawName(names: set<string>) returns (name: string)
    ensures name !in names
  {
    FreshNameExists(names);
    name :| name !in names;
  }

  // ---------- the service ----------

  /** The cache table, the object store and the clock, with their history. */
  class Cache {
    var rows: map<string, Entry>
    var store: map<ObjKey, Bytes>
    var now: Time
    var lives: nat
    var taskIds: set<TaskId>
    var drawn: set<string>
    ghost var run: seq<CacheState>
    ghost var steps: seq<CacheStep>

    ghost function Cur(): CacheState
      requires run != []
      reads this
    {
      Last(run)
    }

    ghost predicate Valid()
      reads this
    {
      && |run| == |steps| + 1 && CacheRun(run, steps)
      && Cur().rows == rows && Cur().store == store && Cur().now == now && Cur().lives == lives
      && Cur().tasks.Keys + Cur().hitTasks.Keys == taskIds && Cur().drawn == drawn
    }

    constructor ()
      ensures Valid() && rows == map[] && store == map[]
    {
      rows, store, now, lives, taskIds, drawn := map[], map[], 0, 0, {}, {};
      run, steps := [NOTHING], [];
    }

    ghost method Record(step: CacheStep)
      requires |run| == |steps| + 1 && CacheRun(run, steps)
      requires CacheNext(Cur(), step).Some?
      requires var s' := CacheNext(Cur(), step).value;
               && s'.rows == rows && s'.store == store && s'.now == now && s'.lives == lives
               && s'.tasks.Keys + s'.hitTasks.Keys == taskIds && s'.drawn == drawn
      modifies `run, `steps
      ensures Valid() && run == old(run) + [CacheNext(old(Cur()), step).value] && steps == old(steps) + [step]
    {
      hide CacheNext, CacheRun;
      var s' := CacheNext(Cur(), step).value;
      RunGrows(run, steps, step, s');
      run, steps := run + [s'], steps + [step];
    }

    /** What is proved of every run holds now. */
    ghost method Know()
      requires Valid()
      ensures PointersOk(Cur()) && BytesOk(Cur())
    {
      CacheAlways(run, steps, |run| - 1);
    }

    /** An await of call p: when it returns, the other calls may have taken any number of steps. Nothing is
        done here; callers rely on no more than the contract. */
    method Await(p: int)
      requires Valid()
      modifies this
      ensures Valid() && old(run) <= run && old(steps) <= steps && Leaves(old(Cur()), Cur(), p)
    {
      hide CacheRun;
    }

    /** The state before the last step. */
    ghost function Before(): CacheState
      requires |run| >= 2
      reads this
    {
      run[|run| - 2]
    }

    /** `_delete_stale_object`, and the deletion of a copy that could not be linked. */
    method DropObject(p: int, o: ObjKey) returns (ok: bool)
      requires Valid() && p in Cur().calls && Cur().calls[p] == Dropping(o)
      modifies this
      ensures Valid() && old(run) < run && old(steps) < steps && p !in Cur().calls
      ensures ok ==> o !in store
      ensures DroppedLast(run, steps, p, o) && Last(steps) == DropDone(p, ok) && rows == Before().rows
      ensures store == if ok then Before().store - {o} else Before().store
    {
      hide CacheRun, CacheNext, PointersOk, BytesOk;
      Await(p);
      ok := *;
      Know();
      DroppedIsUnlinked(Cur(), p, o);
      DropStep(Cur(), p, o, ok);
      if ok {
        store := store - {o};
      }
      Record(DropDone(p, ok));
    }

    /** `lookup`: an entry is returned only while it has not expired and points to an object, and that object
        is then in the store, with bytes made for this key. */
    method Lookup(p: int, key: string, ghost r: Payload.Request) returns (hit: Option<Entry>)
      requires Valid() && p !in Cur().calls && key == KeyOf(r)
      modifies this
      ensures Valid() && old(run) <= run
      ensures hit.None? ==> p !in Cur().calls
      ensures hit.Some? <==> key in old(rows) && !Expired(old(rows)[key], old(now)) && old(rows)[key].pointer.Some?
      ensures hit.None? && !(key in old(rows) && Expired(old(rows)[key], old(now))) ==>
                rows == old(rows) && store == old(store)
      ensures hit.Some? ==>
                && hit.value.pointer.Some? && !Expired(hit.value, now)
                && p in Cur().calls && Cur().calls[p] == HitReady(key, hit.value.pointer.value, r)
                && key in rows && rows[key] == hit.value && old(key in rows && rows[key].hits + 1 == hit.value.hits)
                && hit.value.pointer.value in store && MadeFor(Cur(), key, store[hit.value.pointer.value])
    {
      hide CacheRun, CacheNext, KeyOf, MadeFor;
      if key !in rows {
        return None;
      }
      LookupSteps(Cur(), p, key, r);
      var row := rows[key];
      if Expired(row, now) {
        rows := rows[key := ResetEntry(row)];
        Record(LookupExpired(p, key));
        if row.pointer.Some? {
          var _ := DropObject(p, row.pointer.value);
        }
        return None;
      }
      if row.pointer.None? {
        return None;
      }
      rows := rows[key := row.(hits := row.hits + 1)];
      Record(LookupHit(p, r));
      PointedIsStored(run, steps, key);
      return Some(rows[key]);
    }

    /** `create_placeholder`: a missing row is inserted in its first generation, one that has not expired is
        left alone, and one that has expired starts its next generation; only an object that the expired row
        pointed to makes the call await once more. */
    method CreatePlaceholder(p: int, key: string, ttl: nat)
      requires Valid() && p !in Cur().calls
      modifies this
      ensures Valid() && old(run) <= run && p !in Cur().calls
      ensures key !in old(rows) ==>
                rows == old(rows)[key := Entry(None, 0, Expiry(ttl, old(now)), 0, old(lives))] && store == old(store)
      ensures key in old(rows) && !Expired(old(rows)[key], old(now)) ==> rows == old(rows) && store == old(store)
      ensures key in old(rows) && Expired(old(rows)[key], old(now)) && old(rows)[key].pointer.None? ==>
                && key in rows && rows[key].generation == old(rows)[key].generation + 1 && rows[key].pointer.None?
                && rows[key].expiresAt == Expiry(ttl, old(now)) && rows[key].hits == 0
      ensures key in old(rows) && Expired(old(rows)[key], old(now)) && old(rows)[key].pointer.Some? ==>
                var o := old(rows)[key].pointer.value;
                && At(run, steps, |old(steps)|, Placeholder(p, key, ttl)) && DroppedLast(run, steps, p, o)
                && run[|old(run)|].rows
                   == old(rows)[key := ResetEntry(old(rows)[key]).(expiresAt := Expiry(ttl, old(now)))]
    {
      hide CacheRun, CacheNext;
      PlaceholderSteps(Cur(), p, key, ttl);
      if key in rows {
        var row := rows[key];
        if Expired(row, now) {
          rows := rows[key := ResetEntry(row).(expiresAt := Expiry(ttl, now))];
          Record(Placeholder(p, key, ttl));
          if row.pointer.Some? {
            var _ := DropObject(p, row.pointer.value);
          }
        }
        return;
      }
      rows := rows[key := NewEntry(ttl, now, lives)];
      lives := lives + 1;
      Record(Placeholder(p, key, ttl));
    }

    /** `create_hit_task`: the result of the new task is a copy of the object the lookup found, and is, byte
        for byte, one that a worker produced for a task with the same key. Exactly when the object is gone by
        the time it is to be copied, no task comes to be. */
    method CreateHitTask(p: int, key: string, source: ObjKey, ghost r: Payload.Request) returns (task: Option<TaskId>)
      requires Valid() && p in Cur().calls && Cur().calls[p] == HitReady(key, source, r)
      modifies this
      ensures Valid() && old(run) < run && p !in Cur().calls
      ensures task.Some? <==> source in Before().store
      ensures task.None? ==>
                && store == Before().store && rows == Before().rows
                && taskIds == Before().tasks.Keys + Before().hitTasks.Keys
      ensures task.Some? ==>
                && task.value !in Before().tasks && task.value !in Before().hitTasks
                && Cur().hitTasks == Before().hitTasks[task.value := r]
                && store == Before().store[ResultObj(task.value) := Before().store[source]]
                && MadeFor(Cur(), KeyOf(r), store[ResultObj(task.value)])
    {
      hide CacheRun, CacheNext, KeyOf, MadeFor;
      Await(p);
      var t := DrawName(taskIds);
      assert t !in Cur().tasks.Keys + Cur().hitTasks.Keys;
      HitCopyStep(Cur(), p, t, key, source, r);
      if source !in store {
        Record(HitCopy(p, t));
        return None;
      }
      store := store[ResultObj(t) := store[source]];
      taskIds := taskIds + {t};
      Record(HitCopy(p, t));
      HitIsMade(run, steps, t);
      return Some(t);
    }

    /** `populate_from_task`: the result of the task is copied to an object of its own; then the generation of
        the row is read; and the row is made to point to the copy exactly if at the compare-and-set it is
        still of that generation and points to no object. A copy that is not linked is deleted, if the store
        lets it, and no row points to it. */
    method PopulateFromTask(p: int, t: TaskId, key: string)
      returns (linked: Option<ObjKey>, ghost copy: Option<ObjKey>, ghost expected: Option<nat>, ghost read: nat,
               ghost at: nat)
      requires Valid() && p !in Cur().calls && t in Cur().tasks && key == KeyOf(Cur().tasks[t])
      modifies this
      ensures Valid() && old(run) <= run && old(steps) <= steps && p !in Cur().calls
      ensures copy.Some? <==> ResultObj(t) in old(store)
      ensures copy.None? ==> linked.None? && run == old(run) && rows == old(rows) && store == old(store)
      ensures copy.Some? ==>
                && CopiedAt(run, steps, |old(steps)|, p, t, copy.value) && copy.value.cacheKey == key
                && |old(steps)| < read && ReadAt(run, steps, read, p, key, expected)
      ensures copy.Some? && expected.Some? ==>
                read < at && CasAt(run, steps, at, p, key, copy.value, expected.value, linked.Some?)
      ensures linked.Some? ==>
                && linked == copy && expected.Some? && key in rows && rows[key].pointer == linked
                && linked.value in store && MadeFor(Cur(), key, store[linked.value])
      ensures copy.Some? && linked.None? ==> DroppedLast(run, steps, p, copy.value)
    {
      hide CacheRun, CacheNext, KeyOf, MadeFor, PointersOk, BytesOk, CopiedAt, ReadAt, CasAt, DroppedLast;
      linked, expected, read, at := None, None, 0, 0;
      if ResultObj(t) !in store {
        copy := None;
        return;
      }
      var generation := DrawName(drawn);
      var dest := CacheObj(key, generation);
      copy := Some(dest);
      ghost var k := |steps|;
      CopyResult(p, t, key, generation);
      ghost var run1, steps1 := run, steps;
      var found;
      found, read := ReadGeneration(p, key, dest);
      expected := found;
      StaysDone(run1, steps1, run, steps, k);
      ghost var run2, steps2 := run, steps;
      if found.None? {
        var _ := DropObject(p, dest);
      } else {
        linked, at := CompareAndSet(p, key, dest, found.value);
      }
      StaysDone(run2, steps2, run, steps, k);
      StaysDone(run2, steps2, run, steps, read);
    }

    /** The copy of the result, in the store before anything points to it. */
    method CopyResult(p: int, t: TaskId, key: string, generation: string)
      requires Valid() && p !in Cur().calls && t in Cur().tasks && key == KeyOf(Cur().tasks[t])
      requires ResultObj(t) in store && generation !in drawn
      modifies this
      ensures Valid() && old(run) < run && old(steps) < steps
      ensures p in Cur().calls && Cur().calls[p] == Populating(key, CacheObj(key, generation))
      ensures CopiedAt(run, steps, |old(steps)|, p, t, CacheObj(key, generation))
    {
      hide CacheRun, CacheNext, KeyOf;
      var dest := CacheObj(key, generation);
      CopyStep(Cur(), p, t, generation, key);
      store := store[dest := store[ResultObj(t)]];
      drawn := drawn + {generation};
      Record(PopulateCopy(p, t, generation));
    }

    /** The generation of the row, if there is one. */
    method ReadGeneration(p: int, key: string, dest: ObjKey) returns (expected: Option<nat>, ghost read: nat)
      requires Valid() && p in Cur().calls && Cur().calls[p] == Populating(key, dest)
      modifies this
      ensures Valid() && old(run) < run && old(steps) < steps && p in Cur().calls
      ensures |old(steps)| <= read == |steps| - 1 && ReadAt(run, steps, read, p, key, expected)
      ensures Cur().calls[p] == if expected.Some? then PopulateReady(key, dest, expected.value) else Dropping(dest)
    {
      hide CacheRun, CacheNext;
      Await(p);
      PopulateSteps(Cur(), p, key, dest, 0);
      read := |steps|;
      Record(PopulateRead(p));
      expected := if key in rows then Some(rows[key].generation) else None;
    }

    /** The compare-and-set of `populate_from_task`: the copy is linked exactly if the row is there, of the
        expected generation and without an object; otherwise it is deleted, if the store lets it. */
    method CompareAndSet(p: int, key: string, dest: ObjKey, expected: nat)
      returns (linked: Option<ObjKey>, ghost at: nat)
      requires Valid() && p in Cur().calls && Cur().calls[p] == PopulateReady(key, dest, expected)
      modifies this
      ensures Valid() && old(run) <= run && old(steps) <= steps && p !in Cur().calls
      ensures |old(steps)| <= at && CasAt(run, steps, at, p, key, dest, expected, linked.Some?)
      ensures linked.Some? ==>
                && at == |steps| - 1 && linked == Some(dest) && key in rows && rows[key].pointer == linked
                && dest in store && MadeFor(Cur(), key, store[dest])
      ensures linked.None? ==> DroppedLast(run, steps, p, dest)
    {
      hide CacheRun, CacheNext, KeyOf, MadeFor, PointersOk, BytesOk, Linkable;
      Await(p);
      Know();
      ghost var s := Cur();
      at := |steps|;
      LinkedIsMade(s, p, key, dest);
      PopulateSteps(s, p, key, dest, expected);
      if key in rows && Linkable(rows[key], expected) {
        rows := rows[key := Linked(rows[key], dest)];
        Record(PopulateCas(p));
        MadeForStays(s, Cur(), key, store[dest]);
        return Some(dest), at;
      }
      Record(PopulateCas(p));
      var _ := DropObject(p, dest);
      return None, at;
    }

    /** `invalidate`: claims the row exactly if it is still of the generation that was read, at state `claim`;
        deletes the object it read, and removes the row exactly if nothing has used it since the claim. */
    method Invalidate(p: int, key: string, ok: bool) returns (removed: bool, ghost claimed: bool, ghost claim: nat)
      requires Valid() && p !in Cur().calls
      modifies this
      ensures Valid() && old(run) <= run && old(steps) <= steps && p !in Cur().calls
      ensures key !in old(rows) ==> !removed && run == old(run) && rows == old(rows) && store == old(store)
      ensures key in old(rows) ==>
                var seen := old(rows)[key];
                && |old(steps)| < claim && ClaimedAt(run, steps, claim, p, key, seen, claimed)
                && if claimed then Finished(claim, p, key, seen.pointer, seen.generation + 1, ok, removed)
                   else !removed && claim == |steps| - 1
    {
      hide CacheRun, CacheNext, ClaimedAt, DeletedAt, UnusedAt;
      claim, claimed, removed := 0, false, false;
      if key !in rows {
        return;
      }
      var seen := rows[key];
      ReadRow(p, key);
      var mine;
      mine, claim := ClaimRow(p, key, seen);
      claimed := mine;
      if mine {
        ghost var run1, steps1 := run, steps;
        removed := FinishInvalidation(p, key, seen.pointer, seen.generation + 1, claim, ok);
        StaysDone(run1, steps1, run, steps, claim);
      }
    }

    method ReadRow(p: int, key: string)
      requires Valid() && p !in Cur().calls && key in rows
      modifies this
      ensures Valid() && old(run) < run && steps == old(steps) + [InvalidateRead(p, key)]
      ensures p in Cur().calls && Cur().calls[p] == InvalidateReady(key, old(rows)[key])
    {
      hide CacheRun, CacheNext;
      InvalidateReadStep(Cur(), p, key);
      Record(InvalidateRead(p, key));
    }

    /** The session in which an invalidation claims the row. */
    method ClaimRow(p: int, key: string, seen: Entry) returns (claimed: bool, ghost claim: nat)
      requires Valid() && p in Cur().calls && Cur().calls[p] == InvalidateReady(key, seen)
      modifies this
      ensures Valid() && old(run) < run && old(steps) < steps && |old(steps)| <= claim == |steps| - 1
      ensures ClaimedAt(run, steps, claim, p, key, seen, claimed)
      ensures claimed ==>
                && p in Cur().calls
                && Cur().calls[p] == InvalidateClaimed(key, seen.pointer, seen.generation + 1)
      ensures !claimed ==> p !in Cur().calls
    {
      hide CacheRun, CacheNext, Unlinked;
      Await(p);
      InvalidateClaimStep(Cur(), p, key, seen);
      claim := |steps|;
      claimed := key in rows && rows[key].generation == seen.generation;
      if claimed {
        rows := rows[key := Unlinked(rows[key])];
      }
      Record(InvalidateClaim(p));
    }

    /** What follows the claim: when there is no object, or the store deletes it, the row is removed exactly
        if nothing has used it since; when the store refuses, that is all. */
    ghost predicate Finished(
        claim: nat, p: int, key: string, gone: Option<ObjKey>, claimed: nat, ok: bool, removed: bool)
      reads this
    {
      && |run| == |steps| + 1 && claim < |steps| - 1
      && if gone.Some? && !ok then !removed && DeletedAt(run, steps, |steps| - 1, p, gone, false)
         else
           && (exists k | claim < k < |steps| - 1 :: DeletedAt(run, steps, k, p, gone, true))
           && UnusedAt(run, steps, |steps| - 1, p, key, claimed, removed)
    }

    /** The second half of `invalidate`. */
    method FinishInvalidation(p: int, key: string, gone: Option<ObjKey>, claimed: nat, ghost claim: nat, ok: bool)
      returns (removed: bool)
      requires Valid() && p in Cur().calls && Cur().calls[p] == InvalidateClaimed(key, gone, claimed) && claim < |steps|
      modifies this
      ensures Valid() && old(run) < run && old(steps) < steps && p !in Cur().calls
      ensures Finished(claim, p, key, gone, claimed, ok, removed)
    {
      hide CacheRun, CacheNext, DeletedAt, UnusedAt;
      var deleted := gone.None? || ok;
      ghost var k := DeleteUnlinked(p, key, gone, claimed, deleted);
      removed := false;
      if deleted {
        ghost var run1, steps1 := run, steps;
        removed := RemoveClaimed(p, key, claimed);
        StaysDone(run1, steps1, run, steps, k);
      }
    }

    /** The object is deleted; when the store refuses, the call ends with an exception. */
    method DeleteUnlinked(p: int, key: string, gone: Option<ObjKey>, claimed: nat, ok: bool) returns (ghost k: nat)
      requires Valid() && p in Cur().calls && Cur().calls[p] == InvalidateClaimed(key, gone, claimed)
      requires gone.None? ==> ok
      modifies this
      ensures Valid() && old(run) < run && old(steps) < steps
      ensures if ok then p in Cur().calls && Cur().calls[p] == InvalidateDeleted(key, claimed) else p !in Cur().calls
      ensures |old(steps)| <= k == |steps| - 1 && DeletedAt(run, steps, k, p, gone, ok)
    {
      hide CacheRun, CacheNext;
      Await(p);
      InvalidateDeleteStep(Cur(), p, key, claimed, gone, ok);
      k := |steps|;
      if gone.Some? && ok {
        store := store - {gone.value};
      }
      Record(InvalidateDelete(p, ok));
    }

    method RemoveClaimed(p: int, key: string, claimed: nat) returns (removed: bool)
      requires Valid() && p in Cur().calls && Cur().calls[p] == InvalidateDeleted(key, claimed)
      modifies this
      ensures Valid() && old(run) < run && old(steps) < steps && p !in Cur().calls
      ensures UnusedAt(run, steps, |steps| - 1, p, key, claimed, removed)
    {
      hide CacheRun, CacheNext, Linkable;
      Await(p);
      InvalidateRemoveStep(Cur(), p, key, claimed);
      removed := key in rows && Linkable(rows[key], claimed);
      if removed {
        rows := rows - {key};
      }
      Record(InvalidateRemove(p));
    }

    /** `sweep_expired`: of at most `limit` rows that had expired, each whose object could be deleted is removed,
        unless its generation has changed since. */
    method SweepExpired(p: int, limit: nat) returns (removed: nat, ghost swept: set<string>)
      requires Valid() && p !in Cur().calls
      modifies this
      ensures Valid() && old(run) <= run && old(steps) <= steps && p !in Cur().calls
      ensures removed == |swept| <= limit
      ensures forall key <- swept :: key in old(rows) && Expired(old(rows)[key], old(now))
      ensures AllRemoved(run, steps, |old(steps)| + 1, p, old(rows), swept)
    {
      hide CacheRun, CacheNext, RemovedSince;
      var keys := SomeExpired(limit);
      SweepListStep(Cur(), p, keys);
      var todo := ReadRows(rows, keys);
      ReadKeys(rows, keys);
      Record(SweepList(p, keys));
      removed, swept := SweepListed(p, todo);
    }

    /** The loop of `sweep_expired`. */
    method SweepListed(p: int, listed: map<string, Entry>) returns (removed: nat, ghost swept: set<string>)
      requires Valid() && p in Cur().calls && Cur().calls[p] == Sweeping(listed, map[])
      modifies this
      ensures Valid() && old(run) <= run && old(steps) <= steps && p !in Cur().calls
      ensures removed == |swept| <= |listed| && swept <= listed.Keys
      ensures AllRemoved(run, steps, |old(steps)|, p, listed, swept)
    {
      hide CacheRun, CacheNext, RemovedSince, AllRemoved, Counted;
      var todo := listed;
      ghost var from := |steps|;
      removed, swept := 0, {};
      NoneRemoved(run, steps, from, p, listed);
      NoneCounted(listed);
      while todo != map[]
        invariant Valid() && old(run) <= run && old(steps) <= steps && p in Cur().calls
        invariant Cur().calls[p] == Sweeping(todo, map[]) && Counted(listed, todo, swept, removed)
        invariant AllRemoved(run, steps, from, p, listed, swept)
        decreases |todo|
      {
        var key := PickRow(todo);
        var ok: bool := *;
        ghost var run1, steps1 := run, steps;
        var gone := SweepRow(p, key, todo, todo[key], ok, from);
        StillRemoved(run1, steps1, run, steps, from, p, listed, swept);
        OneMoreCounted(listed, todo, swept, removed, key);
        if gone {
          OneMoreRemoved(run, steps, from, p, listed, swept, key);
          removed, swept := removed + 1, swept + {key};
        }
        todo := todo - {key};
      }
      LastCounted(listed, todo, swept, removed);
      CutStep(Cur(), p);
      ghost var run2, steps2 := run, steps;
      Record(Cut(p));
      StillRemoved(run2, steps2, run, steps, from, p, listed, swept);
    }

    /** The same row of the sweep, for what the loop counts. */
    method SweepRow(p: int, key: string, ghost todo: map<string, Entry>, seen: Entry, ok: bool, ghost from: nat)
      returns (removed: bool)
      requires Valid() && p in Cur().calls && Cur().calls[p] == Sweeping(todo, map[]) && key in todo
               && todo[key] == seen
      requires from <= |steps|
      modifies this
      ensures Valid() && old(run) < run && old(steps) < steps
      ensures p in Cur().calls && Cur().calls[p] == Sweeping(todo - {key}, map[])
      ensures removed ==> RemovedSince(run, steps, from, p, key, seen.generation)
    {
      hide CacheRun, CacheNext, RemovedAt, SweptAt;
      removed := SweepOne(p, key, todo, seen, ok);
    }

    method PickRow(todo: map<string, Entry>) returns (key: string)
      requires todo != map[]
      ensures key in todo
    {
      assert todo.Keys != {};
      ghost var x := Pick(todo.Keys);
      assert x in todo;
      key :| key in todo;
    }

    /** One row of the sweep: the object first; then, if there was none or the store deleted it, the row,
        exactly if it is still of the generation that was read. */
    method SweepOne(p: int, key: string, ghost todo: map<string, Entry>, seen: Entry, ok: bool) returns (removed: bool)
      requires Valid() && p in Cur().calls && Cur().calls[p] == Sweeping(todo, map[]) && key in todo
               && todo[key] == seen
      modifies this
      ensures Valid() && old(run) < run && old(steps) < steps
      ensures p in Cur().calls && Cur().calls[p] == Sweeping(todo - {key}, map[])
      ensures seen.pointer.Some? && !ok ==> !removed && SweptAt(run, steps, |steps| - 1, p, key, seen.pointer, false)
      ensures seen.pointer.None? || ok ==>
                && (exists k | |old(steps)| <= k < |steps| - 1 :: SweptAt(run, steps, k, p, key, seen.pointer, true))
                && RemovedAt(run, steps, |steps| - 1, p, key, seen.generation, removed)
    {
      hide CacheRun, CacheNext, SweptAt, RemovedAt;
      var deleted := seen.pointer.None? || ok;
      ghost var k := DeleteSwept(p, key, todo, seen, deleted);
      removed := false;
      if deleted {
        ghost var run1, steps1 := run, steps;
        removed := RemoveSwept(p, key, todo - {key}, seen);
        StaysDone(run1, steps1, run, steps, k);
      }
    }

    method DeleteSwept(p: int, key: string, ghost todo: map<string, Entry>, seen: Entry, ok: bool)
      returns (ghost k: nat)
      requires Valid() && p in Cur().calls && Cur().calls[p] == Sweeping(todo, map[]) && key in todo
               && todo[key] == seen
      requires seen.pointer.None? ==> ok
      modifies this
      ensures Valid() && old(run) < run && old(steps) < steps && p in Cur().calls
      ensures |old(steps)| <= k == |steps| - 1 && SweptAt(run, steps, k, p, key, seen.pointer, ok)
      ensures Cur().calls[p] == if ok then Sweeping(todo - {key}, map[key := seen]) else Sweeping(todo - {key}, map[])
    {
      hide CacheRun, CacheNext;
      Await(p);
      SweepDeleteStep(Cur(), p, key, todo, ok);
      k := |steps|;
      if seen.pointer.Some? && ok {
        store := store - {seen.pointer.value};
      }
      Record(SweepDelete(p, key, ok));
    }

    method RemoveSwept(p: int, key: string, ghost todo: map<string, Entry>, seen: Entry) returns (removed: bool)
      requires Valid() && p in Cur().calls && Cur().calls[p] == Sweeping(todo, map[key := seen])
      modifies this
      ensures Valid() && old(run) < run && old(steps) < steps
      ensures p in Cur().calls && Cur().calls[p] == Sweeping(todo, map[])
      ensures RemovedAt(run, steps, |steps| - 1, p, key, seen.generation, removed)
    {
      hide CacheRun, CacheNext;
      Await(p);
      SweepRemoveStep(Cur(), p, key, todo, seen);
      removed := key in rows && rows[key].generation == seen.generation;
      if removed {
        rows := rows - {key};
      }
      Record(SweepRemove(p, key));
    }

    /** At most `limit` expired rows. */
    method SomeExpired(limit: nat) returns (keys: set<string>)
      ensures |keys| <= limit && forall k <- keys :: k in rows && Expired(rows[k], now)
    {
      keys := {};
      var rest := set k | k in rows && Expired(rows[k], now);
      while rest != {} && |keys| < limit
        invariant |keys| <= limit && forall k <- keys :: k in rows && Expired(rows[k], now)
        invariant forall k <- rest :: k in rows && Expired(rows[k], now)
        decreases |rest|
      {
        ghost var x := Pick(rest);
        assert x in rest;
        var k :| k in rest;
        keys, rest := keys + {k}, rest - {k};
      }
    }
  }

  lemma ReadKeys(rows: map<string, Entry>, keys: set<string>)
    requires keys <= rows.Keys
    ensures ReadRows(rows, keys).Keys == keys && |ReadRows(rows, keys)| == |keys|
  {
    assert ReadRows(rows, keys).Keys == keys;
    assert |ReadRows(rows, keys)| == |ReadRows(rows, keys).Keys|;
  }
}
