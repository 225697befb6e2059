/** What holds of the result cache over whole runs. */
module CacheTheorems {
  import opened Wrappers
  import opened Rows
  import opened CacheProtocol
  import opened CacheProofs
  import CacheKey
  import Payload

  // ---------- whose bytes the objects hold ----------

  /** A worker produced these bytes for a task whose request has this key. */
  ghost predicate MadeFor(s: CacheState, key: string, data: Bytes) {
    exists u :: u in s.tasks && KeyOf(s.tasks[u]) == key && (u, data) in s.produced
  }

  ghost predicate ObjectOk(s: CacheState, o: ObjKey, data: Bytes) {
    match o
    case PayloadObj(_) => true
    case CacheObj(key, _) => MadeFor(s, key, data)
    case ResultObj(t) =>
      || (t in s.tasks && (t, data) in s.produced)
      || (t in s.hitTasks && MadeFor(s, KeyOf(s.hitTasks[t]), data))
  }

  ghost predicate BytesOk(s: CacheState) {
    && s.tasks.Keys !! s.hitTasks.Keys
    && (forall o <- s.store :: ObjectOk(s, o, s.store[o]))
    && (forall p <- s.calls :: s.calls[p].HitReady? ==>
          && s.calls[p].key == KeyOf(s.calls[p].request)
          && s.calls[p].source.CacheObj? && s.calls[p].source.cacheKey == s.calls[p].key)
  }

  /** The step only adds tasks and results. */
  ghost predicate Grows(s: CacheState, s': CacheState) {
    && (forall t <- s.tasks :: t in s'.tasks && s'.tasks[t] == s.tasks[t])
    && (forall t <- s.hitTasks :: t in s'.hitTasks && s'.hitTasks[t] == s.hitTasks[t])
    && s.produced <= s'.produced
  }

  lemma ObjectStaysOk(s: CacheState, s': CacheState, o: ObjKey, data: Bytes)
    requires Grows(s, s') && ObjectOk(s, o, data)
    ensures ObjectOk(s', o, data)
  {
    hide KeyOf;
    match o
    case PayloadObj(_) =>
    case CacheObj(key, _) =>
      var u :| u in s.tasks && KeyOf(s.tasks[u]) == key && (u, data) in s.produced;
      assert u in s'.tasks;
    case ResultObj(t) =>
      if !(t in s.tasks && (t, data) in s.produced) {
        var u :| u in s.tasks && KeyOf(s.tasks[u]) == KeyOf(s.hitTasks[t]) && (u, data) in s.produced;
        assert u in s'.tasks;
      }
  }

  /** At most the object o is new or changed, and no hit is on its way that was not before. */
  lemma BytesKept(s: CacheState, s': CacheState)
    requires BytesOk(s) && Grows(s, s') && s'.tasks.Keys !! s'.hitTasks.Keys
    requires forall o <- s'.store :: (o in s.store && s'.store[o] == s.store[o]) || ObjectOk(s', o, s'.store[o])
    requires forall p <- s'.calls :: s'.calls[p].HitReady? ==> p in s.calls && s'.calls[p] == s.calls[p]
    ensures BytesOk(s')
  {
    hide KeyOf;
    forall o | o in s'.store
      ensures ObjectOk(s', o, s'.store[o])
    {
      if o in s.store && s'.store[o] == s.store[o] {
        ObjectStaysOk(s, s', o, s.store[o]);
      }
    }
  }

  lemma CopyBytes(s: CacheState, step: CacheStep, s': CacheState)
    requires BytesOk(s) && (step.PopulateCopy? || step.Produce? || step.Ingest?) && CacheNext(s, step) == Some(s')
    ensures BytesOk(s')
  {
    hide KeyOf;
    if step.PopulateCopy? {
      var dest := CacheObj(KeyOf(s.tasks[step.t]), step.generation);
      assert ObjectOk(s, ResultObj(step.t), s.store[ResultObj(step.t)]);
      assert (step.t, s'.store[dest]) in s'.produced;
      assert ObjectOk(s', dest, s'.store[dest]);
    }
    BytesKept(s, s');
  }

  lemma HitReadBytes(s: CacheState, p: int, r: Payload.Request, s': CacheState)
    requires BytesOk(s) && PointersOk(s) && LookupNext(s, LookupHit(p, r)) == Some(s')
    ensures BytesOk(s')
  {
    var key := KeyOf(r);
    hide KeyOf;
    assert EntryOk(s, key, s.rows[key]);
    hide PointersOk;
    forall o | o in s'.store
      ensures ObjectOk(s', o, s'.store[o])
    {
      ObjectStaysOk(s, s', o, s.store[o]);
    }
  }

  lemma PlaceholderDrops(s: CacheState, step: CacheStep, s': CacheState)
    requires (step.LookupExpired? || step.Placeholder?) && LookupNext(s, step) == Some(s')
    ensures OnlyDrops(s, s')
  {
    hide KeyOf;
  }

  lemma DropsKeepBytes(s: CacheState, s': CacheState)
    requires BytesOk(s) && OnlyDrops(s, s')
    ensures BytesOk(s')
  {
    hide KeyOf, ObjectOk;
    BytesKept(s, s');
  }

  lemma PlaceholderBytes(s: CacheState, step: CacheStep, s': CacheState)
    requires BytesOk(s) && (step.LookupExpired? || step.Placeholder?) && LookupNext(s, step) == Some(s')
    ensures BytesOk(s')
  {
    hide KeyOf, BytesOk, LookupNext, OnlyDrops;
    PlaceholderDrops(s, step, s');
    DropsKeepBytes(s, s');
  }

  lemma LookupBytes(s: CacheState, step: CacheStep, s': CacheState)
    requires BytesOk(s) && PointersOk(s)
    requires step.LookupExpired? || step.LookupHit? || step.Placeholder? || step.HitCopy?
    requires LookupNext(s, step) == Some(s')
    ensures BytesOk(s')
  {
    hide KeyOf, BytesOk, PointersOk, LookupNext;
    if step.HitCopy? {
      HitBytes(s, step.p, step.t, s');
    } else if step.LookupHit? {
      HitReadBytes(s, step.p, step.r, s');
    } else {
      PlaceholderBytes(s, step, s');
    }
  }

  lemma HitBytes(s: CacheState, p: int, t: TaskId, s': CacheState)
    requires BytesOk(s) && LookupNext(s, HitCopy(p, t)) == Some(s')
    ensures BytesOk(s')
  {
    hide KeyOf;
    var HitReady(key, source, r) := s.calls[p];
    if source in s.store {
      assert ObjectOk(s, source, s.store[source]);
      ObjectStaysOk(s, s', source, s.store[source]);
      assert ObjectOk(s', ResultObj(t), s'.store[ResultObj(t)]);
    }
    BytesKept(s, s');
  }

  lemma CallBytes(s: CacheState, step: CacheStep, s': CacheState)
    requires BytesOk(s) && CacheNext(s, step) == Some(s')
    requires || step.DropDone? || step.PopulateRead? || step.PopulateCas? || step.PopulateFail? || step.ResultGone?
             || step.Cut? || step.Pass?
    ensures BytesOk(s')
  {
    hide KeyOf;
    BytesKept(s, s');
  }

  /** The step drops objects at most, and starts no hit. */
  ghost predicate OnlyDrops(s: CacheState, s': CacheState) {
    && s'.tasks == s.tasks && s'.hitTasks == s.hitTasks && s'.produced == s.produced
    && (forall o <- s'.store :: o in s.store && s'.store[o] == s.store[o])
    && (forall p <- s'.calls :: s'.calls[p].HitReady? ==> p in s.calls && s'.calls[p] == s.calls[p])
  }

  lemma InvalidateDrops(s: CacheState, step: CacheStep, s': CacheState)
    requires step.InvalidateRead? || step.InvalidateClaim? || step.InvalidateDelete? || step.InvalidateRemove?
    requires InvalidateNext(s, step) == Some(s')
    ensures OnlyDrops(s, s')
  {
  }

  lemma SweepDrops(s: CacheState, step: CacheStep, s': CacheState)
    requires (step.SweepList? || step.SweepDelete? || step.SweepRemove?) && SweepNext(s, step) == Some(s')
    ensures OnlyDrops(s, s')
  {
  }

  lemma RowBytes(s: CacheState, step: CacheStep, s': CacheState)
    requires BytesOk(s) && CacheNext(s, step) == Some(s')
    requires || step.InvalidateRead? || step.InvalidateClaim? || step.InvalidateDelete? || step.InvalidateRemove?
             || step.SweepList? || step.SweepDelete? || step.SweepRemove?
    ensures BytesOk(s')
  {
    hide KeyOf, BytesOk, InvalidateNext, SweepNext, OnlyDrops;
    if step.SweepList? || step.SweepDelete? || step.SweepRemove? {
      SweepDrops(s, step, s');
    } else {
      InvalidateDrops(s, step, s');
    }
    DropsKeepBytes(s, s');
  }

  lemma BytesStep(s: CacheState, step: CacheStep, s': CacheState)
    requires BytesOk(s) && PointersOk(s) && CacheNext(s, step) == Some(s')
    ensures BytesOk(s')
  {
    hide BytesOk, PointersOk, KeyOf;
    if step.PopulateCopy? || step.Produce? || step.Ingest? {
      CopyBytes(s, step, s');
    } else if step.LookupExpired? || step.LookupHit? || step.Placeholder? || step.HitCopy? {
      LookupBytes(s, step, s');
    } else if || step.InvalidateRead? || step.InvalidateClaim? || step.InvalidateDelete? || step.InvalidateRemove?
              || step.SweepList? || step.SweepDelete? || step.SweepRemove? {
      RowBytes(s, step, s');
    } else {
      CallBytes(s, step, s');
    }
  }

  lemma {:induction false} CacheAlways(run: seq<CacheState>, steps: seq<CacheStep>, i: nat)
    requires CacheRun(run, steps) && i < |run|
    ensures PointersOk(run[i]) && BytesOk(run[i])
  {
    hide KeyOf;
    if i > 0 {
      hide CacheNext, PointersOk, BytesOk;
      CacheAlways(run, steps, i - 1);
      assert Leads(run, steps, i - 1);
      PointersStep(run[i - 1], steps[i - 1], run[i]);
      BytesStep(run[i - 1], steps[i - 1], run[i]);
    }
  }

  // ---------- no dangling hit ----------

  /** However lookups, placeholders, populations, invalidations, sweeps and crashes interleave: a row that
      has not expired and points to an object points to one that is in the store. */
  lemma NoDanglingPointer(run: seq<CacheState>, steps: seq<CacheStep>, i: nat, key: string)
    requires CacheRun(run, steps) && i < |run| && key in run[i].rows
    requires run[i].rows[key].pointer.Some? && !Expired(run[i].rows[key], run[i].now)
    ensures run[i].rows[key].pointer.value in run[i].store
    ensures MadeFor(run[i], key, run[i].store[run[i].rows[key].pointer.value])
  {
    CacheAlways(run, steps, i);
    assert EntryOk(run[i], key, run[i].rows[key]);
    var o := run[i].rows[key].pointer.value;
    assert ObjectOk(run[i], o, run[i].store[o]);
  }

  // ---------- the cache agrees with computation ----------

  lemma DigestIsInjective(a: Bytes, b: Bytes)
    requires Digest(a) == Digest(b)
    ensures a == b
  {
    var x, y := Digest(a), Digest(b);
    assert |x| == |a| && |y| == |b|;
    forall i | 0 <= i < |a|
      ensures a[i] == b[i]
    {
      assert x[i] == (a[i] as int) as char && y[i] == (b[i] as int) as char;
    }
  }

  /** The same files under the same names in the same order, with the same effective options. */
  ghost predicate SameJob(r: Payload.Request, q: Payload.Request) {
    && |r.uploads| == |q.uploads|
    && (forall i | 0 <= i < |r.uploads| ::
          r.uploads[i].uploadName == q.uploads[i].uploadName && r.uploads[i].data == q.uploads[i].data)
    && CacheKey.SameOptions(r.fields, q.fields)
  }

  /** Two requests share a cache key exactly when they are the same job. */
  lemma SameKeyIffSameJob(r: Payload.Request, q: Payload.Request)
    ensures KeyOf(r) == KeyOf(q) <==> SameJob(r, q)
  {
    var x, y := FileRecords(r), FileRecords(q);
    assert |x| == |r.uploads| && |y| == |q.uploads|;
    CacheKey.SameKeyIffSameRequest(x, r.fields, y, q.fields);
    hide CacheKey.KeyMaterial, CacheKey.SameOptions;
    if x == y {
      forall i | 0 <= i < |r.uploads|
        ensures r.uploads[i].uploadName == q.uploads[i].uploadName && r.uploads[i].data == q.uploads[i].data
      {
        assert x[i] == y[i];
        DigestIsInjective(r.uploads[i].data, q.uploads[i].data);
      }
    }
    if SameJob(r, q) {
      assert forall i | 0 <= i < |x| :: x[i] == y[i];
    }
  }

  /** A result answered from the cache is one a worker produced for a task with the same files and options. */
  lemma HitsAgreeWithComputation(run: seq<CacheState>, steps: seq<CacheStep>, i: nat, t: TaskId)
    requires CacheRun(run, steps) && i < |run| && t in run[i].hitTasks && ResultObj(t) in run[i].store
    ensures exists u :: u in run[i].tasks && SameJob(run[i].tasks[u], run[i].hitTasks[t])
                        && (u, run[i].store[ResultObj(t)]) in run[i].produced
  {
    CacheAlways(run, steps, i);
    hide KeyOf, SameJob;
    var s := run[i];
    assert ObjectOk(s, ResultObj(t), s.store[ResultObj(t)]);
    var u :| u in s.tasks && KeyOf(s.tasks[u]) == KeyOf(s.hitTasks[t]) && (u, s.store[ResultObj(t)]) in s.produced;
    SameKeyIffSameJob(s.tasks[u], s.hitTasks[t]);
  }

  // ---------- generations ----------

  ghost predicate LivesThrough(run: seq<CacheState>, i: nat, j: nat, key: string, life: nat)
    requires j < |run|
  {
    forall k | i <= k <= j :: key in run[k].rows && run[k].rows[key].life == life
  }

  /** Within one lifetime of a row its generation never falls, and an equal generation means an equal
      pointer and an equal expiry. */
  lemma {:induction false} GenerationIsSound(run: seq<CacheState>, steps: seq<CacheStep>, i: nat, j: nat, key: string)
    requires CacheRun(run, steps) && i <= j < |run| && key in run[i].rows
    requires LivesThrough(run, i, j, key, run[i].rows[key].life)
    ensures var a, b := run[i].rows[key], run[j].rows[key];
            && b.generation >= a.generation
            && (b.generation == a.generation ==> b.pointer == a.pointer && b.expiresAt == a.expiresAt)
    decreases j - i
  {
    if i < j {
      CacheAlways(run, steps, i);
      assert Leads(run, steps, i);
      hide PointersOk, BytesOk, CacheNext;
      PointersStep(run[i], steps[i], run[i + 1]);
      assert RowMoves(run[i], run[i + 1], key);
      assert run[i].rows[key].life < run[i].lives by { EntryLives(run[i], key); }
      GenerationIsSound(run, steps, i + 1, j, key);
    }
  }

  lemma EntryLives(s: CacheState, key: string)
    requires PointersOk(s) && key in s.rows
    ensures s.rows[key].life < s.lives
  {
    assert EntryOk(s, key, s.rows[key]);
  }

  // ---------- a later row expires later ----------

  predicate Keeps(call: Call, key: string, seen: Entry)
    requires call.Sweeping?
  {
    (key in call.todo && call.todo[key] == seen) || (key in call.deleted && call.deleted[key] == seen)
  }

  /** A row of another lifetime than the expired one that was read expires later, if at all. */
  predicate Outlives(s: CacheState, key: string, seen: Entry) {
    key in s.rows && s.rows[key].life != seen.life && s.rows[key].expiresAt.Some? ==>
      seen.expiresAt.Some? && s.rows[key].expiresAt.value > seen.expiresAt.value
  }

  ghost predicate SweptOutlived(s: CacheState) {
    forall p, key, seen | p in s.calls && s.calls[p].Sweeping? && Keeps(s.calls[p], key, seen) :: Outlives(s, key, seen)
  }

  /** A row keeps its lifetime and expiry, or gets an expiry in the future. */
  predicate ExpiryMoves(s: CacheState, s': CacheState) {
    forall k <- s'.rows ::
      || (k in s.rows && s.rows[k].life == s'.rows[k].life && s.rows[k].expiresAt == s'.rows[k].expiresAt)
      || s'.rows[k].expiresAt.None? || s'.rows[k].expiresAt.value >= s.now
  }

  /** A sweep holds rows it held before, or rows just read. */
  ghost predicate SweepsFollow(s: CacheState, s': CacheState) {
    forall p, key, seen | p in s'.calls && s'.calls[p].Sweeping? && Keeps(s'.calls[p], key, seen) ::
      || (p in s.calls && s.calls[p].Sweeping? && Keeps(s.calls[p], key, seen))
      || (key in s'.rows && s'.rows[key] == seen)
  }

  ghost predicate OutlivingMoves(s: CacheState, s': CacheState) {
    ExpiryMoves(s, s') && SweepsFollow(s, s')
  }

  /** No sweep goes on, and rows move as they may: so for every step but those of sweeps. */
  ghost predicate NoSweep(s: CacheState, s': CacheState) {
    ExpiryMoves(s, s') && forall p <- s'.calls :: s'.calls[p].Sweeping? ==> p in s.calls && s'.calls[p] == s.calls[p]
  }

  lemma NoSweepMoves(s: CacheState, s': CacheState)
    requires NoSweep(s, s')
    ensures OutlivingMoves(s, s')
  {
    hide ExpiryMoves;
  }

  lemma HitSweepMoves(s: CacheState, step: CacheStep, s': CacheState)
    requires (step.LookupHit? || step.HitCopy?) && LookupNext(s, step) == Some(s')
    ensures NoSweep(s, s')
  {
    hide KeyOf;
  }

  lemma DropIsNoSweep(s: CacheState, p: int, stale: Option<ObjKey>)
    requires p !in s.calls
    ensures var s' := DropNext(s, p, stale);
            && s'.rows == s.rows
            && forall q <- s'.calls :: s'.calls[q].Sweeping? ==> q in s.calls && s'.calls[q] == s.calls[q]
  {
  }

  lemma PlaceholderSweepMoves(s: CacheState, step: CacheStep, s': CacheState)
    requires (step.LookupExpired? || step.Placeholder?) && LookupNext(s, step) == Some(s')
    ensures NoSweep(s, s')
  {
    var key := step.key;
    hide KeyOf, DropNext;
    if key in s.rows && Expired(s.rows[key], s.now) {
      var e := ResetEntry(s.rows[key]);
      var e' := if step.LookupExpired? then e else e.(expiresAt := Expiry(step.ttl, s.now));
      DropIsNoSweep(SetEntry(s, key, e'), step.p, s.rows[key].pointer);
    }
  }

  lemma PopulateSweepMoves(s: CacheState, step: CacheStep, s': CacheState)
    requires (step.PopulateRead? || step.PopulateCas? || step.PopulateFail?) && PopulateNext(s, step) == Some(s')
    ensures NoSweep(s, s')
  {
  }

  lemma InvalidateSweepMoves(s: CacheState, step: CacheStep, s': CacheState)
    requires step.InvalidateRead? || step.InvalidateClaim? || step.InvalidateDelete? || step.InvalidateRemove?
    requires InvalidateNext(s, step) == Some(s')
    ensures NoSweep(s, s')
  {
  }

  lemma SweepSweepMoves(s: CacheState, step: CacheStep, s': CacheState)
    requires (step.SweepList? || step.SweepDelete? || step.SweepRemove?) && SweepNext(s, step) == Some(s')
    ensures OutlivingMoves(s, s')
  {
  }

  lemma CallSweepMoves(s: CacheState, step: CacheStep, s': CacheState)
    requires || step.Ingest? || step.Produce? || step.ResultGone? || step.DropDone? || step.PopulateCopy? || step.Cut?
             || step.Pass?
    requires CacheNext(s, step) == Some(s')
    ensures NoSweep(s, s')
  {
    hide KeyOf, LookupNext, SweepNext, PopulateNext, InvalidateNext;
  }

  lemma StepSweepMoves(s: CacheState, step: CacheStep, s': CacheState)
    requires CacheNext(s, step) == Some(s')
    ensures OutlivingMoves(s, s')
  {
    hide KeyOf, LookupNext, SweepNext, PopulateNext, InvalidateNext, OutlivingMoves, NoSweep;
    if step.SweepList? || step.SweepDelete? || step.SweepRemove? {
      SweepSweepMoves(s, step, s');
    } else {
      if step.LookupHit? || step.HitCopy? {
        HitSweepMoves(s, step, s');
      } else if step.LookupExpired? || step.Placeholder? {
        PlaceholderSweepMoves(s, step, s');
      } else if step.PopulateRead? || step.PopulateCas? || step.PopulateFail? {
        PopulateSweepMoves(s, step, s');
      } else if step.InvalidateRead? || step.InvalidateClaim? || step.InvalidateDelete? || step.InvalidateRemove? {
        InvalidateSweepMoves(s, step, s');
      } else {
        CallSweepMoves(s, step, s');
      }
      NoSweepMoves(s, s');
    }
  }

  lemma SweptHasExpired(s: CacheState, p: int, key: string, seen: Entry)
    requires PointersOk(s) && p in s.calls && s.calls[p].Sweeping? && Keeps(s.calls[p], key, seen)
    ensures Expired(seen, s.now)
  {
    assert CallOk(s, s.calls[p]);
  }

  lemma OutlivedStep(s: CacheState, s': CacheState)
    requires PointersOk(s) && SweptOutlived(s) && OutlivingMoves(s, s')
    ensures SweptOutlived(s')
  {
    hide PointersOk;
    forall p, key, seen | p in s'.calls && s'.calls[p].Sweeping? && Keeps(s'.calls[p], key, seen)
      ensures Outlives(s', key, seen)
    {
      if p in s.calls && s.calls[p].Sweeping? && Keeps(s.calls[p], key, seen) {
        SweptHasExpired(s, p, key, seen);
        assert Outlives(s, key, seen);
      }
    }
  }

  lemma {:induction false} AlwaysOutlived(run: seq<CacheState>, steps: seq<CacheStep>, i: nat)
    requires CacheRun(run, steps) && i < |run|
    ensures SweptOutlived(run[i])
  {
    if i > 0 {
      hide CacheNext, PointersOk, BytesOk, OutlivingMoves, SweptOutlived;
      AlwaysOutlived(run, steps, i - 1);
      CacheAlways(run, steps, i - 1);
      assert Leads(run, steps, i - 1);
      StepSweepMoves(run[i - 1], steps[i - 1], run[i]);
      OutlivedStep(run[i - 1], run[i]);
    }
  }

  // ---------- what the generation checks are worth ----------

  /** A sweep about to remove a row, its generation check passed: the row is the expired one it read, in the
      same lifetime, if and only if it still has the expiry that was read; then it has the object key that
      was read, too. A row of a later lifetime expires later or never. */
  lemma SweepRemovesWhatItReadIffSameExpiry(run: seq<CacheState>, steps: seq<CacheStep>, i: nat, p: int, key: string)
    requires CacheRun(run, steps) && i < |run| && p in run[i].calls && run[i].calls[p].Sweeping?
    requires key in run[i].calls[p].deleted && key in run[i].rows
    requires run[i].rows[key].generation == run[i].calls[p].deleted[key].generation
    ensures var seen, row := run[i].calls[p].deleted[key], run[i].rows[key];
            && (row.expiresAt == seen.expiresAt <==> row.life == seen.life)
            && (row.expiresAt == seen.expiresAt ==> row.pointer == seen.pointer && Expired(row, run[i].now))
  {
    CacheAlways(run, steps, i);
    AlwaysOutlived(run, steps, i);
    var s := run[i];
    assert CallOk(s, s.calls[p]);
    var seen := s.calls[p].deleted[key];
    assert SnapOk(s, key, seen);
    assert Keeps(s.calls[p], key, seen) && Outlives(s, key, seen);
  }

  /** An invalidation about to claim a row, its generation check passed: the object it goes on to delete is
      the one it unlinks, if and only if the row is in the lifetime in which it was read; when it read no
      object key, a row in the same lifetime has none either. In every case no row points to the deleted
      object afterwards, or ever again. */
  lemma InvalidationDeletesWhatItUnlinks(run: seq<CacheState>, steps: seq<CacheStep>, i: nat, p: int)
    requires CacheRun(run, steps) && i < |steps| && steps[i] == InvalidateClaim(p)
    requires p in run[i].calls && run[i].calls[p].InvalidateReady?
    requires run[i].calls[p].key in run[i].rows
    requires run[i].rows[run[i].calls[p].key].generation == run[i].calls[p].seen.generation
    ensures var key, seen := run[i].calls[p].key, run[i].calls[p].seen;
            var row := run[i].rows[key];
            && p in run[i + 1].calls && run[i + 1].calls[p].InvalidateClaimed?
            && run[i + 1].calls[p].unlinked == seen.pointer
            && (seen.pointer.Some? ==> (row.pointer == seen.pointer <==> row.life == seen.life))
            && (row.life == seen.life ==> row.pointer == seen.pointer && row.expiresAt == seen.expiresAt)
            && (seen.pointer.Some? ==> Dead(run[i + 1], seen.pointer.value))
  {
    CacheAlways(run, steps, i);
    assert CallOk(run[i], run[i].calls[p]);
    CacheAlways(run, steps, i + 1);
    assert Leads(run, steps, i);
    hide KeyOf;
    assert CallOk(run[i + 1], run[i + 1].calls[p]);
  }

  // ---------- generations start again at zero ----------

  ghost predicate Reachable(s: CacheState) {
    exists run, steps :: CacheRun(run, steps) && Last(run) == s
  }

  lemma ReachNext(s: CacheState, step: CacheStep, s': CacheState)
    requires Reachable(s) && CacheNext(s, step) == Some(s')
    ensures Reachable(s')
  {
    hide CacheNext, CacheInit;
    var run, steps :| CacheRun(run, steps) && Last(run) == s;
    RunGrows(run, steps, step, s');
    assert Last(run + [s']) == s';
  }

  lemma RunGrows(run: seq<CacheState>, steps: seq<CacheStep>, step: CacheStep, s': CacheState)
    requires CacheRun(run, steps) && CacheNext(Last(run), step) == Some(s')
    ensures CacheRun(run + [s'], steps + [step])
  {
    hide CacheNext, CacheInit;
    var run', steps' := run + [s'], steps + [step];
    forall i | 0 <= i < |steps'|
      ensures Leads(run', steps', i)
    {
      if i < |steps| {
        assert Leads(run, steps, i);
      }
    }
  }

  const NOTHING: CacheState := CacheState(map[], map[], 0, map[], {}, 0, map[], map[], {})

  /** An invalidation that nothing interrupts removes a row without an object. */
  lemma Invalidates(s: CacheState, p: int, key: string)
    requires Reachable(s) && p !in s.calls && key in s.rows && s.rows[key].pointer.None?
    ensures Reachable(s.(rows := s.rows - {key}))
  {
    hide KeyOf, Reachable;
    var e := s.rows[key];
    var s1 := s.(calls := s.calls[p := InvalidateReady(key, e)]);
    ReachNext(s, InvalidateRead(p, key), s1);
    var s2 := s1.(rows := s.rows[key := Unlinked(e)],
        calls := s1.calls[p := InvalidateClaimed(key, None, e.generation + 1)]);
    ReachNext(s1, InvalidateClaim(p), s2);
    var s3 := s2.(calls := s2.calls[p := InvalidateDeleted(key, e.generation + 1)]);
    ReachNext(s2, InvalidateDelete(p, true), s3);
    var s4 := s3.(rows := s3.rows - {key}, calls := s3.calls - {p});
    ReachNext(s3, InvalidateRemove(p), s4);
    assert s4.rows == s.rows - {key} && s4.calls == s.calls;
  }

  /** A sweep reads an expired row without an object. */
  lemma SweepReads(s: CacheState, p: int, key: string)
    requires Reachable(s) && p !in s.calls && key in s.rows && s.rows[key].pointer.None? && Expired(s.rows[key], s.now)
    ensures Reachable(s.(calls := s.calls[p := Sweeping(map[], map[key := s.rows[key]])]))
  {
    hide KeyOf, Reachable;
    var e := s.rows[key];
    assert ReadRows(s.rows, {key}) == map[key := e];
    var s1 := s.(calls := s.calls[p := Sweeping(map[key := e], map[])]);
    ReachNext(s, SweepList(p, {key}), s1);
    var s2 := s1.(calls := s1.calls[p := Sweeping(map[key := e] - {key}, map[][key := e])]);
    ReachNext(s1, SweepDelete(p, key, true), s2);
    assert map[key := e] - {key} == map[];
    assert s2.calls == s.calls[p := Sweeping(map[], map[key := e])];
  }

  /** A population that nothing interrupts links the row to a copy of the result. */
  lemma Populates(s: CacheState, p: int, t: TaskId, generation: string)
    requires Reachable(s) && p !in s.calls && t in s.tasks && ResultObj(t) in s.store && generation !in s.drawn
    requires KeyOf(s.tasks[t]) in s.rows && s.rows[KeyOf(s.tasks[t])].pointer.None?
    ensures var key := KeyOf(s.tasks[t]);
            var dest := CacheObj(key, generation);
            Reachable(s.(rows := s.rows[key := Linked(s.rows[key], dest)],
                         store := s.store[dest := s.store[ResultObj(t)]], drawn := s.drawn + {generation}))
  {
    hide KeyOf, Reachable;
    var key := KeyOf(s.tasks[t]);
    var dest := CacheObj(key, generation);
    var s1 := s.(store := s.store[dest := s.store[ResultObj(t)]], drawn := s.drawn + {generation},
                 calls := s.calls[p := Populating(key, dest)]);
    ReachNext(s, PopulateCopy(p, t, generation), s1);
    var s2 := s1.(calls := s1.calls[p := PopulateReady(key, dest, s.rows[key].generation)]);
    ReachNext(s1, PopulateRead(p), s2);
    var s3 := s2.(rows := s2.rows[key := Linked(s.rows[key], dest)], calls := s2.calls - {p});
    ReachNext(s2, PopulateCas(p), s3);
    assert s3.calls == s.calls;
  }

  /** An invalidation that nothing interrupts removes a row and its object. */
  lemma InvalidatesLinked(s: CacheState, p: int, key: string)
    requires Reachable(s) && p !in s.calls && key in s.rows && s.rows[key].pointer.Some?
    ensures Reachable(s.(rows := s.rows - {key}, store := s.store - {s.rows[key].pointer.value}))
  {
    hide KeyOf, Reachable;
    var e := s.rows[key];
    var s1 := s.(calls := s.calls[p := InvalidateReady(key, e)]);
    ReachNext(s, InvalidateRead(p, key), s1);
    var s2 := s1.(rows := s.rows[key := Unlinked(e)],
                  calls := s1.calls[p := InvalidateClaimed(key, e.pointer, e.generation + 1)]);
    ReachNext(s1, InvalidateClaim(p), s2);
    var s3 := s2.(store := s.store - {e.pointer.value},
        calls := s2.calls[p := InvalidateDeleted(key, e.generation + 1)]);
    ReachNext(s2, InvalidateDelete(p, true), s3);
    var s4 := s3.(rows := s3.rows - {key}, calls := s3.calls - {p});
    ReachNext(s3, InvalidateRemove(p), s4);
    assert s4.rows == s.rows - {key} && s4.calls == s.calls;
  }

  /** A worker has produced the result of a task. */
  function ResultThere(t: TaskId, r: Payload.Request, data: Bytes): CacheState {
    NOTHING.(tasks := map[t := r], store := map[ResultObj(t) := data], produced := {(t, data)})
  }

  lemma ResultComes(t: TaskId, r: Payload.Request, data: Bytes)
    ensures Reachable(ResultThere(t, r, data))
  {
    hide KeyOf, Reachable;
    assert Reachable(NOTHING) by { Start(); }
    var s1 := NOTHING.(tasks := NOTHING.tasks[t := r]);
    ReachNext(NOTHING, Ingest(t, r), s1);
    var s2 := s1.(store := s1.store[ResultObj(t) := data], produced := s1.produced + {(t, data)});
    ReachNext(s1, Produce(t, data), s2);
    assert s2.produced == {(t, data)};
  }

  /** The result is there, and a row under its key that has expired and been reset once. */
  lemma RowExpires(t: TaskId, r: Payload.Request, data: Bytes)
    ensures Reachable(ResultThere(t, r, data).(rows := map[KeyOf(r) := Entry(None, 1, Some(10), 0, 0)], lives := 1,
                                               now := 20))
  {
    ResultComes(t, r, data);
    hide KeyOf, Reachable;
    var key := KeyOf(r);
    var s2 := ResultThere(t, r, data);
    var s3 := s2.(rows := s2.rows[key := Entry(None, 0, Some(10), 0, 0)], lives := 1);
    ReachNext(s2, Placeholder(0, key, 10), s3);
    var s4 := s3.(now := 20);
    ReachNext(s3, Pass(20), s4);
    var s5 := s4.(rows := s4.rows[key := Entry(None, 1, Some(10), 0, 0)], calls := s4.calls - {1});
    ReachNext(s4, LookupExpired(1, key), s5);
    assert s5.calls == map[] && s5.rows == map[key := Entry(None, 1, Some(10), 0, 0)];
  }

  lemma Start()
    ensures Reachable(NOTHING)
  {
    assert CacheRun([NOTHING], []) && Last([NOTHING]) == NOTHING;
  }

  /** Across lifetimes an equal generation means nothing: a sweep can remove an unexpired row that points
      to a stored object, because that row has reached the generation an earlier one had when it was read. */
  lemma SweepCanRemoveALaterRow(t: TaskId, r: Payload.Request, data: Bytes)
    ensures exists s, s' ::
              && Reachable(s) && CacheNext(s, SweepRemove(2, KeyOf(r))) == Some(s')
              && var key := KeyOf(r);
                 && key in s.rows && !Expired(s.rows[key], s.now) && s.rows[key].pointer.Some?
                 && s.rows[key].pointer.value in s.store && key !in s'.rows
  {
    RowExpires(t, r, data);
    hide KeyOf, Reachable;
    var key := KeyOf(r);
    var s0 := ResultThere(t, r, data).(rows := map[key := Entry(None, 1, Some(10), 0, 0)], lives := 1, now := 20);
    SweepReads(s0, 2, key);
    var s1 := s0.(calls := s0.calls[2 := Sweeping(map[], map[key := s0.rows[key]])]);
    Invalidates(s1, 3, key);
    var s2 := s1.(rows := s1.rows - {key});
    LaterRow(s2, t, r, "b", 5);
    var dest := CacheObj(key, "b");
    var s3 := s2.(rows := s2.rows[key := Entry(Some(dest), 1, Some(30), 0, 1)], lives := 2,
                  store := s2.store[dest := data], drawn := s2.drawn + {"b"});
    var s4 := s3.(rows := s3.rows - {key},
                  calls := s3.calls[2 := Sweeping(map[], map[key := s0.rows[key]] - {key})]);
    assert CacheNext(s3, SweepRemove(2, KeyOf(r))) == Some(s4);
  }

  /** An invalidation can unlink one object and delete another: the row it claims is a later one that has
      reached the generation it read. The object it unlinks stays in the store, and no row points to it. */
  lemma InvalidationCanUnlinkAnother(t: TaskId, r: Payload.Request, data: Bytes)
    ensures exists s, s' ::
              && Reachable(s) && CacheNext(s, InvalidateClaim(2)) == Some(s')
              && var key := KeyOf(r);
                 && key in s.rows && !Expired(s.rows[key], s.now) && s.rows[key].pointer.Some?
                 && 2 in s'.calls && s'.calls[2].InvalidateClaimed? && s'.calls[2].unlinked.Some?
                 && s'.calls[2].unlinked != s.rows[key].pointer
                 && s.rows[key].pointer.value in s'.store && !LinkedAt(s', s.rows[key].pointer.value)
  {
    ResultComes(t, r, data);
    hide KeyOf, Reachable;
    var key := KeyOf(r);
    var first, second := CacheObj(key, "a"), CacheObj(key, "b");
    var s0 := ResultThere(t, r, data);
    LaterRow(s0, t, r, "a", 5);
    var e := Entry(Some(first), 1, Some(10), 0, 0);
    var s1 := s0.(rows := s0.rows[key := e], lives := 1, store := s0.store[first := data], drawn := s0.drawn + {"a"});
    var s2 := s1.(calls := s1.calls[2 := InvalidateReady(key, e)]);
    ReachNext(s1, InvalidateRead(2, key), s2);
    InvalidatesLinked(s2, 3, key);
    var s3 := s2.(rows := s2.rows - {key}, store := s2.store - {first});
    LaterRow(s3, t, r, "b", 5);
    var s4 := s3.(rows := s3.rows[key := Entry(Some(second), 1, Some(10), 0, 1)], lives := 2,
                  store := s3.store[second := data], drawn := s3.drawn + {"b"});
    var s5 := s4.(rows := s4.rows[key := Unlinked(s4.rows[key])],
                  calls := s4.calls[2 := InvalidateClaimed(key, Some(first), 2)]);
    assert CacheNext(s4, InvalidateClaim(2)) == Some(s5);
    assert !LinkedAt(s5, second);
  }

  /** After a row is gone, the next request inserts one anew, which is then populated. */
  lemma LaterRow(s: CacheState, t: TaskId, r: Payload.Request, generation: string, p: int)
    requires Reachable(s) && t in s.tasks && s.tasks[t] == r && KeyOf(r) !in s.rows && p !in s.calls
    requires ResultObj(t) in s.store && generation !in s.drawn
    ensures var key := KeyOf(r);
            var dest := CacheObj(key, generation);
            Reachable(s.(rows := s.rows[key := Entry(Some(dest), 1, Some(s.now + 10), 0, s.lives)],
                         lives := s.lives + 1, store := s.store[dest := s.store[ResultObj(t)]],
                         drawn := s.drawn + {generation}))
  {
    hide KeyOf, Reachable;
    var key := KeyOf(r);
    var dest := CacheObj(key, generation);
    var s1 := s.(rows := s.rows[key := NewEntry(10, s.now, s.lives)], lives := s.lives + 1);
    ReachNext(s, Placeholder(p, key, 10), s1);
    Populates(s1, p, t, generation);
    assert s1.rows[key := Linked(s1.rows[key], dest)]
           == s.rows[key := Entry(Some(dest), 1, Some(s.now + 10), 0, s.lives)];
  }
}
