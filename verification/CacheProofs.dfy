/** What every reachable state of the cache satisfies, and why. */
module CacheProofs {
  import opened Wrappers
  import opened Rows
  import opened CacheProtocol
  import Payload

  // ---------- pointers ----------

  ghost predicate LinkedAt(s: CacheState, o: ObjKey) {
    o.CacheObj? && o.cacheKey in s.rows && s.rows[o.cacheKey].pointer == Some(o)
  }

  function PendingDest(call: Call): Option<ObjKey> {
    if call.Populating? || call.PopulateReady? then Some(call.dest) else None
  }

  ghost predicate Pending(s: CacheState, o: ObjKey) {
    exists p <- s.calls :: PendingDest(s.calls[p]) == Some(o)
  }

  ghost predicate Drawn(s: CacheState, key: string, o: ObjKey) {
    o.CacheObj? && o.cacheKey == key && o.generation in s.drawn
  }

  /** No row points to the object, and none ever will. */
  ghost predicate Dead(s: CacheState, o: ObjKey) {
    o.CacheObj? && o.generation in s.drawn && !LinkedAt(s, o) && !Pending(s, o)
  }

  /** A row read earlier: within its lifetime the generation has not fallen, and while it is the same, so
      are the pointer and the expiry. */
  ghost predicate SnapOk(s: CacheState, key: string, seen: Entry) {
    && seen.life < s.lives
    && (seen.pointer.Some? ==> Drawn(s, key, seen.pointer.value) && !Pending(s, seen.pointer.value))
    && (key in s.rows && s.rows[key].life == seen.life ==>
          && s.rows[key].generation >= seen.generation
          && (s.rows[key].generation == seen.generation ==> SameEntry(s.rows[key], seen)))
    && (key in s.rows && seen.pointer.Some? && s.rows[key].pointer == seen.pointer ==> SameEntry(s.rows[key], seen))
  }

  ghost predicate SameEntry(a: Entry, b: Entry) {
    a.pointer == b.pointer && a.expiresAt == b.expiresAt && a.generation == b.generation && a.life == b.life
  }

  ghost predicate SweepOk(s: CacheState, seen: map<string, Entry>) {
    forall k <- seen :: SnapOk(s, k, seen[k]) && Expired(seen[k], s.now)
  }

  ghost predicate PendingOk(s: CacheState, key: string, dest: ObjKey) {
    Drawn(s, key, dest) && !LinkedAt(s, dest) && dest in s.store
  }

  ghost predicate CallOk(s: CacheState, call: Call) {
    match call
    case Dropping(o) => Dead(s, o)
    case Populating(key, dest) => PendingOk(s, key, dest)
    case PopulateReady(key, dest, _) => PendingOk(s, key, dest)
    case InvalidateReady(key, seen) => SnapOk(s, key, seen)
    case InvalidateClaimed(_, unlinked, _) => unlinked.Some? ==> Dead(s, unlinked.value)
    case InvalidateDeleted(_, _) => true
    case Sweeping(todo, deleted) => SweepOk(s, todo) && SweepOk(s, deleted)
    case HitReady(_, _, _) => true
  }

  ghost predicate CallsOk(s: CacheState) {
    && (forall p <- s.calls :: CallOk(s, s.calls[p]))
    && (forall p, q | p in s.calls && q in s.calls && PendingDest(s.calls[p]).Some?
                      && PendingDest(s.calls[p]) == PendingDest(s.calls[q]) :: p == q)
  }

  ghost predicate EntryOk(s: CacheState, key: string, e: Entry) {
    && e.life < s.lives
    && (e.pointer.Some? ==> Drawn(s, key, e.pointer.value) && (e.pointer.value in s.store || Expired(e, s.now)))
  }

  ghost predicate EntriesOk(s: CacheState) {
    forall k <- s.rows :: EntryOk(s, k, s.rows[k]) && (s.rows[k].pointer.Some? ==> !Pending(s, s.rows[k].pointer.value))
  }

  ghost predicate PointersOk(s: CacheState) {
    EntriesOk(s) && CallsOk(s)
  }

  // ---------- what a step may change ----------

  /** The row under a key is untouched but for its hits, moves to a later generation, or starts a new life. */
  ghost predicate RowMoves(s: CacheState, s': CacheState, key: string)
    requires key in s'.rows
  {
    var e' := s'.rows[key];
    || (key in s.rows && SameEntry(s.rows[key], e'))
    || (&& (if key in s.rows && s.rows[key].life == e'.life then e'.generation > s.rows[key].generation
            else s.lives <= e'.life)
        && (e'.pointer.None? || (Pending(s, e'.pointer.value) && !Pending(s', e'.pointer.value))))
  }

  ghost predicate Moves(s: CacheState, s': CacheState) {
    && s.drawn <= s'.drawn && s.lives <= s'.lives && s.now <= s'.now
    && (forall k <- s'.rows :: RowMoves(s, s', k))
    && (forall o: ObjKey | o.CacheObj? && o.generation in s.drawn && Pending(s', o) :: Pending(s, o))
    && (forall o: ObjKey | o.CacheObj? && o in s.store && o !in s'.store ::
          !Pending(s, o) && (LinkedAt(s, o) ==> Expired(s.rows[o.cacheKey], s.now)))
  }

  lemma LinksMove(s: CacheState, s': CacheState, o: ObjKey)
    requires Moves(s, s') && LinkedAt(s', o)
    ensures LinkedAt(s, o) || (Pending(s, o) && !Pending(s', o))
  {
    assert RowMoves(s, s', o.cacheKey);
  }

  lemma DeadStaysDead(s: CacheState, s': CacheState, o: ObjKey)
    requires Moves(s, s') && Dead(s, o)
    ensures Dead(s', o)
  {
    if LinkedAt(s', o) {
      LinksMove(s, s', o);
    }
  }

  lemma SnapKept(s: CacheState, s': CacheState, key: string, seen: Entry)
    requires Moves(s, s') && SnapOk(s, key, seen)
    ensures SnapOk(s', key, seen)
  {
    if key in s'.rows {
      assert RowMoves(s, s', key);
    }
  }

  lemma PendingKept(s: CacheState, s': CacheState, key: string, dest: ObjKey)
    requires Moves(s, s') && PendingOk(s, key, dest) && Pending(s, dest) && Pending(s', dest)
    ensures PendingOk(s', key, dest)
  {
    if LinkedAt(s', dest) {
      LinksMove(s, s', dest);
    }
  }

  lemma CallKept(s: CacheState, s': CacheState, p: int)
    requires Moves(s, s') && p in s.calls && p in s'.calls && s'.calls[p] == s.calls[p] && CallOk(s, s.calls[p])
    ensures CallOk(s', s'.calls[p])
  {
    match s.calls[p]
    case Dropping(o) => DeadStaysDead(s, s', o);
    case Populating(key, dest) =>
      assert PendingDest(s.calls[p]) == Some(dest) && PendingDest(s'.calls[p]) == Some(dest);
      PendingKept(s, s', key, dest);
    case PopulateReady(key, dest, _) =>
      assert PendingDest(s.calls[p]) == Some(dest) && PendingDest(s'.calls[p]) == Some(dest);
      PendingKept(s, s', key, dest);
    case InvalidateReady(key, seen) => SnapKept(s, s', key, seen);
    case InvalidateClaimed(_, unlinked, _) =>
      if unlinked.Some? {
        DeadStaysDead(s, s', unlinked.value);
      }
    case Sweeping(todo, deleted) =>
      SweepKept(s, s', todo);
      SweepKept(s, s', deleted);
    case _ =>
  }

  lemma SweepKept(s: CacheState, s': CacheState, seen: map<string, Entry>)
    requires Moves(s, s') && SweepOk(s, seen)
    ensures SweepOk(s', seen)
  {
    forall k | k in seen
      ensures SnapOk(s', k, seen[k])
    {
      SnapKept(s, s', k, seen[k]);
    }
  }

  lemma EntryKept(s: CacheState, s': CacheState, k: string)
    requires Moves(s, s') && EntriesOk(s) && k in s.rows && k in s'.rows && SameEntry(s.rows[k], s'.rows[k])
    ensures EntryOk(s', k, s'.rows[k]) && (s'.rows[k].pointer.Some? ==> !Pending(s', s'.rows[k].pointer.value))
  {
    assert EntryOk(s, k, s.rows[k]);
    if s.rows[k].pointer.Some? {
      assert LinkedAt(s, s.rows[k].pointer.value);
    }
  }

  ghost predicate NewCallsOk(s: CacheState, s': CacheState) {
    forall p <- s'.calls :: (p in s.calls && s'.calls[p] == s.calls[p]) || CallOk(s', s'.calls[p])
  }

  ghost predicate NewRowsOk(s: CacheState, s': CacheState) {
    forall k <- s'.rows ::
      || (k in s.rows && SameEntry(s.rows[k], s'.rows[k]))
      || (EntryOk(s', k, s'.rows[k]) && (s'.rows[k].pointer.Some? ==> !Pending(s', s'.rows[k].pointer.value)))
  }

  ghost predicate PendingDistinct(s: CacheState) {
    forall p, q | p in s.calls && q in s.calls && PendingDest(s.calls[p]).Some?
                  && PendingDest(s.calls[p]) == PendingDest(s.calls[q]) :: p == q
  }

  lemma PointersKept(s: CacheState, s': CacheState)
    requires PointersOk(s) && Moves(s, s') && NewCallsOk(s, s') && NewRowsOk(s, s') && PendingDistinct(s')
    ensures PointersOk(s')
  {
    forall p | p in s'.calls
      ensures CallOk(s', s'.calls[p])
    {
      if p in s.calls && s'.calls[p] == s.calls[p] {
        CallKept(s, s', p);
      }
    }
    forall k | k in s'.rows
      ensures EntryOk(s', k, s'.rows[k]) && (s'.rows[k].pointer.Some? ==> !Pending(s', s'.rows[k].pointer.value))
    {
      if k in s.rows && SameEntry(s.rows[k], s'.rows[k]) {
        EntryKept(s, s', k);
      }
    }
  }

  // ---------- each step keeps the pointers in order ----------

  ghost predicate NoNewPending(s: CacheState, s': CacheState) {
    forall p <- s'.calls :: PendingDest(s'.calls[p]).Some? ==>
      p in s.calls && PendingDest(s.calls[p]) == PendingDest(s'.calls[p])
  }

  lemma PendingShrinks(s: CacheState, s': CacheState)
    requires CallsOk(s) && NoNewPending(s, s')
    ensures PendingDistinct(s')
    ensures forall o :: Pending(s', o) ==> Pending(s, o)
  {
    forall p, q | p in s'.calls && q in s'.calls && PendingDest(s'.calls[p]).Some?
                  && PendingDest(s'.calls[p]) == PendingDest(s'.calls[q])
      ensures p == q
    {
      assert PendingDest(s.calls[p]) == PendingDest(s.calls[q]);
    }
  }

  /** Steps that write no row and no cache object. */
  lemma CallsMoveKeep(s: CacheState, s': CacheState)
    requires PointersOk(s) && NoNewPending(s, s') && NewCallsOk(s, s')
    requires s'.rows == s.rows && s'.drawn == s.drawn && s'.lives == s.lives && s'.now >= s.now
    requires forall o | o in s.store && o.CacheObj? :: o in s'.store
    ensures PointersOk(s') && Moves(s, s')
  {
    PendingShrinks(s, s');
    PointersKept(s, s');
  }

  /** Steps that delete a cache object. */
  lemma DeletionKeeps(s: CacheState, s': CacheState, o: ObjKey)
    requires PointersOk(s) && NoNewPending(s, s') && NewCallsOk(s, s')
    requires s'.rows == s.rows && s'.drawn == s.drawn && s'.lives == s.lives && s'.now == s.now
    requires s'.store == s.store - {o} && o.CacheObj? && !Pending(s, o)
    requires LinkedAt(s, o) ==> Expired(s.rows[o.cacheKey], s.now)
    ensures PointersOk(s') && Moves(s, s')
  {
    PendingShrinks(s, s');
    forall k | k in s'.rows
      ensures EntryOk(s', k, s'.rows[k])
    {
      assert EntryOk(s, k, s.rows[k]);
    }
    PointersKept(s, s');
  }

  lemma DropDoneKeeps(s: CacheState, p: int, ok: bool, s': CacheState)
    requires PointersOk(s) && CacheNext(s, DropDone(p, ok)) == Some(s')
    ensures PointersOk(s') && Moves(s, s')
  {
    assert CallOk(s, s.calls[p]);
    if ok {
      DeletionKeeps(s, s', s.calls[p].dropped);
    } else {
      CallsMoveKeep(s, s');
    }
  }

  lemma PopulateCopyKeeps(s: CacheState, p: int, t: TaskId, generation: string, s': CacheState)
    requires PointersOk(s) && CacheNext(s, PopulateCopy(p, t, generation)) == Some(s')
    ensures PointersOk(s') && Moves(s, s')
  {
    hide KeyOf;
    var dest := CacheObj(KeyOf(s.tasks[t]), generation);
    forall o: ObjKey | Pending(s', o) && o != dest
      ensures Pending(s, o)
    {
      var q :| q in s'.calls && PendingDest(s'.calls[q]) == Some(o);
      assert q != p;
    }
    NothingPointsToUndrawn(s, dest);
    assert PendingDest(s'.calls[p]) == Some(dest);
    forall q | q in s.calls && q != p
      ensures PendingDest(s.calls[q]) != Some(dest)
    {
      assert CallOk(s, s.calls[q]);
    }
    assert PendingDistinct(s');
    forall k | k in s'.rows
      ensures RowMoves(s, s', k)
    {
    }
    PointersKept(s, s');
  }

  lemma NothingPointsToUndrawn(s: CacheState, o: ObjKey)
    requires PointersOk(s) && o.CacheObj? && o.generation !in s.drawn
    ensures !LinkedAt(s, o) && !Pending(s, o)
  {
    if o.cacheKey in s.rows {
      assert EntryOk(s, o.cacheKey, s.rows[o.cacheKey]);
    }
    forall p | p in s.calls
      ensures PendingDest(s.calls[p]) != Some(o)
    {
      assert CallOk(s, s.calls[p]);
    }
  }

  /** The destination of a populating call becomes dead once the call drops it. */
  lemma DroppedIsDead(s: CacheState, s': CacheState, p: int, key: string, dest: ObjKey)
    requires CallsOk(s) && p in s.calls && PendingDest(s.calls[p]) == Some(dest) && PendingOk(s, key, dest)
    requires s' == s.(calls := s.calls[p := Dropping(dest)])
    ensures Dead(s', dest)
  {
    OnlyOnePends(s, p, dest);
    assert forall q <- s'.calls :: q != p ==> q in s.calls;
  }

  lemma OnlyOnePends(s: CacheState, p: int, dest: ObjKey)
    requires CallsOk(s) && p in s.calls && PendingDest(s.calls[p]) == Some(dest)
    ensures forall q <- s.calls :: q != p ==> PendingDest(s.calls[q]) != Some(dest)
  {
  }

  lemma LinkKeeps(s: CacheState, p: int, s': CacheState)
    requires PointersOk(s) && p in s.calls && s.calls[p].PopulateReady?
    requires s.calls[p].key in s.rows && Linkable(s.rows[s.calls[p].key], s.calls[p].expected)
    requires s' == SetEntry(s, s.calls[p].key, Linked(s.rows[s.calls[p].key], s.calls[p].dest)).(calls := s.calls - {p})
    ensures PointersOk(s') && Moves(s, s')
  {
    var PopulateReady(key, dest, expected) := s.calls[p];
    assert CallOk(s, s.calls[p]) && EntryOk(s, key, s.rows[key]);
    PendingShrinks(s, s');
    assert PendingDest(s.calls[p]) == Some(dest);
    assert Pending(s, dest);
    OnlyOnePends(s, p, dest);
    assert !Pending(s', dest);
    PointersKept(s, s');
  }

  lemma PopulateKeeps(s: CacheState, step: CacheStep, s': CacheState)
    requires PointersOk(s) && (step.PopulateRead? || step.PopulateCas? || step.PopulateFail?)
    requires PopulateNext(s, step) == Some(s')
    ensures PointersOk(s') && Moves(s, s')
  {
    var p := step.p;
    var call := s.calls[p];
    assert CallOk(s, call);
    if step.PopulateCas? && call.key in s.rows && Linkable(s.rows[call.key], call.expected) {
      LinkKeeps(s, p, s');
    } else if step.PopulateRead? && call.key in s.rows {
      hide PointersOk;
      ReadyKeeps(s, p, s');
    } else {
      assert s' == s.(calls := s.calls[p := Dropping(call.dest)]);
      DroppedIsDead(s, s', p, call.key, call.dest);
      CallsMoveKeep(s, s');
    }
  }

  lemma ReadyKeeps(s: CacheState, p: int, s': CacheState)
    requires PointersOk(s) && p in s.calls && s.calls[p].Populating? && s.calls[p].key in s.rows
    requires var Populating(key, dest) := s.calls[p];
             s' == s.(calls := s.calls[p := PopulateReady(key, dest, s.rows[key].generation)])
    ensures PointersOk(s') && Moves(s, s')
  {
    assert CallOk(s, s.calls[p]);
    CallsMoveKeep(s, s');
  }

  // ---------- reads of rows ----------

  lemma ReadIsOk(s: CacheState, key: string)
    requires PointersOk(s) && key in s.rows
    ensures SnapOk(s, key, s.rows[key])
  {
    assert EntryOk(s, key, s.rows[key]);
  }

  /** A row under `key` is replaced by one without a pointer: a later generation, or a new life. */
  lemma UnlinkKeeps(s: CacheState, key: string, e: Entry, s': CacheState)
    requires PointersOk(s) && e.pointer.None? && e.life < s'.lives
    requires if key in s.rows && s.rows[key].life == e.life then e.generation > s.rows[key].generation
             else s.lives <= e.life
    requires s'.rows == s.rows[key := e] && s'.store == s.store && s'.drawn == s.drawn && s.lives <= s'.lives
    requires s'.now == s.now && NoNewPending(s, s') && NewCallsOk(s, s')
    ensures PointersOk(s') && Moves(s, s')
  {
    PendingShrinks(s, s');
    forall k | k in s'.rows
      ensures RowMoves(s, s', k)
    {
      if k == key {
        assert s'.rows[k] == e;
      }
    }
    PointersKept(s, s');
  }

  lemma UnlinkedIsDead(s: CacheState, s': CacheState, key: string, o: ObjKey)
    requires PointersOk(s) && Drawn(s, key, o) && !Pending(s, o) && s'.drawn == s.drawn
    requires key in s'.rows && s'.rows[key].pointer != Some(o) && NoNewPending(s, s')
    ensures Dead(s', o)
  {
    PendingShrinks(s, s');
  }

  lemma LookupKeeps(s: CacheState, step: CacheStep, s': CacheState)
    requires PointersOk(s) && (step.LookupExpired? || step.LookupHit? || step.Placeholder? || step.HitCopy?)
    requires LookupNext(s, step) == Some(s')
    ensures PointersOk(s') && Moves(s, s')
  {
    hide KeyOf;
    match step
    case LookupHit(p, r) => HitReadKeeps(s, p, r, s');
    case HitCopy(_, _) => CallsMoveKeep(s, s');
    case LookupExpired(p, key) =>
      ResetKeeps(s, p, key, ResetEntry(s.rows[key]), s');
    case Placeholder(p, key, ttl) =>
      if key !in s.rows {
        UnlinkKeeps(s, key, NewEntry(ttl, s.now, s.lives), s');
      } else if Expired(s.rows[key], s.now) {
        ResetKeeps(s, p, key, ResetEntry(s.rows[key]).(expiresAt := Expiry(ttl, s.now)), s');
      }
  }

  lemma ResetKeeps(s: CacheState, p: int, key: string, e: Entry, s': CacheState)
    requires PointersOk(s) && key in s.rows && p !in s.calls
    requires e.pointer.None? && e.generation == s.rows[key].generation + 1 && e.life == s.rows[key].life
    requires s' == DropNext(SetEntry(s, key, e), p, s.rows[key].pointer)
    ensures PointersOk(s') && Moves(s, s')
  {
    assert EntryOk(s, key, s.rows[key]);
    if s.rows[key].pointer.Some? {
      UnlinkedIsDead(s, s', key, s.rows[key].pointer.value);
    }
    UnlinkKeeps(s, key, e, s');
  }

  lemma HitReadKeeps(s: CacheState, p: int, r: Payload.Request, s': CacheState)
    requires PointersOk(s) && LookupNext(s, LookupHit(p, r)) == Some(s')
    ensures PointersOk(s') && Moves(s, s')
  {
    hide KeyOf;
    PendingShrinks(s, s');
    forall k | k in s'.rows
      ensures RowMoves(s, s', k)
    {
    }
    PointersKept(s, s');
  }

  lemma RemovalKeeps(s: CacheState, key: string, s': CacheState)
    requires PointersOk(s) && NoNewPending(s, s') && NewCallsOk(s, s')
    requires s'.rows == s.rows - {key} && s'.store == s.store && s'.drawn == s.drawn && s'.lives == s.lives
    requires s'.now == s.now
    ensures PointersOk(s') && Moves(s, s')
  {
    PendingShrinks(s, s');
    PointersKept(s, s');
  }

  lemma InvalidateReadKeeps(s: CacheState, p: int, key: string, s': CacheState)
    requires PointersOk(s) && InvalidateNext(s, InvalidateRead(p, key)) == Some(s')
    ensures PointersOk(s') && Moves(s, s')
  {
    ReadIsOk(s, key);
    assert SnapOk(s', key, s.rows[key]) by {
      PendingShrinks(s, s');
    }
    CallsMoveKeep(s, s');
  }

  lemma InvalidateDeleteKeeps(s: CacheState, p: int, ok: bool, s': CacheState)
    requires PointersOk(s) && InvalidateNext(s, InvalidateDelete(p, ok)) == Some(s')
    ensures PointersOk(s') && Moves(s, s')
  {
    assert CallOk(s, s.calls[p]);
    if s'.store == s.store {
      CallsMoveKeep(s, s');
    } else {
      DeletionKeeps(s, s', s.calls[p].unlinked.value);
    }
  }

  lemma InvalidateKeeps(s: CacheState, step: CacheStep, s': CacheState)
    requires PointersOk(s)
    requires step.InvalidateRead? || step.InvalidateClaim? || step.InvalidateDelete? || step.InvalidateRemove?
    requires InvalidateNext(s, step) == Some(s')
    ensures PointersOk(s') && Moves(s, s')
  {
    var p := step.p;
    match step
    case InvalidateRead(_, key) => InvalidateReadKeeps(s, p, key, s');
    case InvalidateClaim(_) =>
      hide CallOk;
      if s'.rows == s.rows && s'.calls == s.calls - {p} {
        CallsMoveKeep(s, s');
      } else {
        ClaimKeeps(s, p, s');
      }
    case InvalidateDelete(_, ok) => InvalidateDeleteKeeps(s, p, ok, s');
    case InvalidateRemove(_) =>
      hide CallOk;
      if s'.rows == s.rows {
        CallsMoveKeep(s, s');
      } else {
        RemovalKeeps(s, s.calls[p].key, s');
      }
  }

  lemma ClaimKeeps(s: CacheState, p: int, s': CacheState)
    requires PointersOk(s) && p in s.calls && s.calls[p].InvalidateReady? && s.calls[p].key in s.rows
    requires var InvalidateReady(key, seen) := s.calls[p];
             s' == SetEntry(s, key, Unlinked(s.rows[key]))
                   .(calls := s.calls[p := InvalidateClaimed(key, seen.pointer, seen.generation + 1)])
    ensures PointersOk(s') && Moves(s, s')
  {
    var InvalidateReady(key, seen) := s.calls[p];
    assert CallOk(s, s.calls[p]) && EntryOk(s, key, s.rows[key]);
    if seen.pointer.Some? {
      UnlinkedIsDead(s, s', key, seen.pointer.value);
    }
    UnlinkKeeps(s, key, Unlinked(s.rows[key]), s');
  }

  lemma SweepKeeps(s: CacheState, step: CacheStep, s': CacheState)
    requires PointersOk(s) && (step.SweepList? || step.SweepDelete? || step.SweepRemove?)
    requires SweepNext(s, step) == Some(s')
    ensures PointersOk(s') && Moves(s, s')
  {
    var p := step.p;
    match step
    case SweepList(_, keys) =>
      PendingShrinks(s, s');
      forall k | k in s'.calls[p].todo
        ensures SnapOk(s', k, s'.calls[p].todo[k]) && Expired(s'.calls[p].todo[k], s.now)
      {
        ReadIsOk(s, k);
      }
      CallsMoveKeep(s, s');
    case SweepDelete(_, key, ok) => SweepDeleteKeeps(s, p, key, ok, s');
    case SweepRemove(_, key) => SweepRemoveKeeps(s, p, key, s');
  }

  /** The sweep's entries stay valid when the sweep moves on and an object of theirs is gone. */
  lemma SweepMoves(s: CacheState, s': CacheState, p: int)
    requires PointersOk(s) && p in s.calls && s.calls[p].Sweeping? && p in s'.calls && s'.calls[p].Sweeping?
    requires s'.calls == s.calls[p := s'.calls[p]]
    requires (s'.rows == s.rows || exists k :: s'.rows == s.rows - {k})
    requires s'.drawn == s.drawn && s'.lives == s.lives && s'.now == s.now
    requires forall k <- s'.calls[p].todo :: k in s.calls[p].todo && s'.calls[p].todo[k] == s.calls[p].todo[k]
    requires forall k <- s'.calls[p].deleted ::
               (k in s.calls[p].deleted && s'.calls[p].deleted[k] == s.calls[p].deleted[k])
               || (k in s.calls[p].todo && s'.calls[p].deleted[k] == s.calls[p].todo[k])
    ensures NoNewPending(s, s') && NewCallsOk(s, s')
  {
    assert CallOk(s, s.calls[p]);
    PendingShrinks(s, s');
    var Sweeping(todo, deleted) := s'.calls[p];
    forall k | k in todo
      ensures SnapOk(s', k, todo[k]) && Expired(todo[k], s'.now)
    {
      assert SnapOk(s, k, todo[k]);
    }
    forall k | k in deleted
      ensures SnapOk(s', k, deleted[k]) && Expired(deleted[k], s'.now)
    {
      assert SnapOk(s, k, deleted[k]);
    }
  }

  lemma SweepDeleteKeeps(s: CacheState, p: int, key: string, ok: bool, s': CacheState)
    requires PointersOk(s) && SweepNext(s, SweepDelete(p, key, ok)) == Some(s')
    ensures PointersOk(s') && Moves(s, s')
  {
    var seen := s.calls[p].todo[key];
    assert CallOk(s, s.calls[p]);
    assert SnapOk(s, key, seen) && Expired(seen, s.now);
    SweepMoves(s, s', p);
    hide CallOk, SnapOk;
    if seen.pointer.Some? && ok {
      DeletionKeeps(s, s', seen.pointer.value);
    } else {
      CallsMoveKeep(s, s');
    }
  }

  lemma SweepRemoveKeeps(s: CacheState, p: int, key: string, s': CacheState)
    requires PointersOk(s) && SweepNext(s, SweepRemove(p, key)) == Some(s')
    ensures PointersOk(s') && Moves(s, s')
  {
    SweepMoves(s, s', p);
    if s'.rows == s.rows {
      CallsMoveKeep(s, s');
    } else {
      RemovalKeeps(s, key, s');
    }
  }

  lemma PointersStep(s: CacheState, step: CacheStep, s': CacheState)
    requires PointersOk(s) && CacheNext(s, step) == Some(s')
    ensures PointersOk(s') && Moves(s, s')
  {
    hide PointersOk, Moves, KeyOf, PopulateNext, InvalidateNext, SweepNext, LookupNext;
    match step
    case DropDone(p, ok) => DropDoneKeeps(s, p, ok, s');
    case PopulateCopy(p, t, generation) => PopulateCopyKeeps(s, p, t, generation, s');
    case PopulateRead(_) => PopulateKeeps(s, step, s');
    case PopulateCas(_) => PopulateKeeps(s, step, s');
    case PopulateFail(_) => PopulateKeeps(s, step, s');
    case InvalidateRead(_, _) => InvalidateKeeps(s, step, s');
    case InvalidateClaim(_) => InvalidateKeeps(s, step, s');
    case InvalidateDelete(_, _) => InvalidateKeeps(s, step, s');
    case InvalidateRemove(_) => InvalidateKeeps(s, step, s');
    case SweepList(_, _) => SweepKeeps(s, step, s');
    case SweepDelete(_, _, _) => SweepKeeps(s, step, s');
    case SweepRemove(_, _) => SweepKeeps(s, step, s');
    case LookupExpired(_, _) => LookupKeeps(s, step, s');
    case LookupHit(_, _) => LookupKeeps(s, step, s');
    case Placeholder(_, _, _) => LookupKeeps(s, step, s');
    case HitCopy(_, _) => LookupKeeps(s, step, s');
    case _ => OtherStepKeeps(s, step, s');
  }

  lemma OtherStepKeeps(s: CacheState, step: CacheStep, s': CacheState)
    requires PointersOk(s) && CacheNext(s, step) == Some(s')
    requires step.Ingest? || step.Produce? || step.ResultGone? || step.Cut? || step.Pass?
    ensures PointersOk(s') && Moves(s, s')
  {
    CallsMoveKeep(s, s');
  }
}
