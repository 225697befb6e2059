/** The result cache as a state machine (scheduler/cache_service.py): rows, objects, and what each call of
    the cache service holds between two awaits. A step is one database session or one object-store call;
    the read and the compare-and-set of `populate_from_task` and of `invalidate` are separate steps.
    Steps of any number of calls interleave freely, and any call may be cut off by a crash. */
module CacheProtocol {
  import opened Wrappers
  import opened Rows
  import CacheKey
  import Payload

  type Bytes = Payload.Bytes

  // ---------- keys ----------

  /** A collision-free digest. */
  function Digest(data: Bytes): string {
    seq(|data|, i requires 0 <= i < |data| => (data[i] as int) as char)
  }

  /** `compute_file_records_from_paths`. */
  function FileRecords(r: Payload.Request): seq<CacheKey.Record> {
    seq(|r.uploads|, i requires 0 <= i < |r.uploads| => (r.uploads[i].uploadName, Digest(r.uploads[i].data)))
  }

  ghost function KeyOf(r: Payload.Request): string {
    CacheKey.KeyMaterial(FileRecords(r), r.fields)
  }

  // ---------- states ----------

  /** A CacheEntry row. `life` tells apart the rows that have existed under one key one after another. */
  datatype Entry = Entry(pointer: Option<ObjKey>, generation: nat, expiresAt: Option<Time>, hits: nat, life: nat)

  /** One call of the cache service, between two of its awaits. */
  datatype Call =
    | Dropping(dropped: ObjKey)
    | Populating(key: string, dest: ObjKey)
    | PopulateReady(key: string, dest: ObjKey, expected: nat)
    | InvalidateReady(key: string, seen: Entry)
    | InvalidateClaimed(key: string, unlinked: Option<ObjKey>, claimed: nat)
    | InvalidateDeleted(key: string, claimed: nat)
    | Sweeping(todo: map<string, Entry>, deleted: map<string, Entry>)
    | HitReady(key: string, source: ObjKey, request: Payload.Request)

  datatype CacheState = CacheState(
    rows: map<string, Entry>,
    store: map<ObjKey, Bytes>,
    now: Time,
    calls: map<int, Call>,
    drawn: set<string>,                        // every object generation ever drawn
    lives: nat,                                // rows ever inserted
    tasks: map<TaskId, Payload.Request>,       // tasks that went to a worker
    hitTasks: map<TaskId, Payload.Request>,    // tasks answered from the cache
    produced: set<(TaskId, Bytes)>)            // history: results workers produced

  datatype CacheStep =
    | Ingest(t: TaskId, r: Payload.Request)
    | Produce(t: TaskId, data: Bytes)
    | ResultGone(t: TaskId)
    | LookupExpired(p: int, key: string)
    | LookupHit(p: int, r: Payload.Request)
    | Placeholder(p: int, key: string, ttl: nat)
    | DropDone(p: int, ok: bool)
    | PopulateCopy(p: int, t: TaskId, generation: string)
    | PopulateRead(p: int)
    | PopulateCas(p: int)
    | PopulateFail(p: int)
    | InvalidateRead(p: int, key: string)
    | InvalidateClaim(p: int)
    | InvalidateDelete(p: int, ok: bool)
    | InvalidateRemove(p: int)
    | SweepList(p: int, keys: set<string>)
    | SweepDelete(p: int, key: string, ok: bool)
    | SweepRemove(p: int, key: string)
    | HitCopy(p: int, t: TaskId)
    | Cut(p: int)
    | Pass(later: Time)

  /** `_row_is_expired`. */
  predicate Expired(e: Entry, now: Time) {
    e.expiresAt.Some? && now > e.expiresAt.value
  }

  function Expiry(ttl: nat, now: Time): Option<Time> {
    if ttl == 0 then None else Some(now + ttl)
  }

  function NewEntry(ttl: nat, now: Time, life: nat): Entry {
    Entry(None, 0, Expiry(ttl, now), 0, life)
  }

  /** `_reset_expired_row`. */
  function ResetEntry(e: Entry): Entry {
    e.(pointer := None, generation := e.generation + 1, hits := 0)
  }

  predicate Linkable(e: Entry, expected: nat) {
    e.generation == expected && e.pointer.None?
  }

  function Linked(e: Entry, dest: ObjKey): Entry {
    e.(pointer := Some(dest), generation := e.generation + 1)
  }

  function Unlinked(e: Entry): Entry {
    e.(pointer := None, generation := e.generation + 1)
  }

  // ---------- steps ----------

  /** The call goes on with the deletion of an object, or is over when there is none. */
  function DropNext(s: CacheState, p: int, stale: Option<ObjKey>): CacheState {
    if stale.None? then s.(calls := s.calls - {p}) else s.(calls := s.calls[p := Dropping(stale.value)])
  }

  function SetEntry(s: CacheState, key: string, e: Entry): CacheState {
    s.(rows := s.rows[key := e])
  }

  function PopulateNext(s: CacheState, step: CacheStep): Option<CacheState>
    requires step.PopulateRead? || step.PopulateCas? || step.PopulateFail?
  {
    var p := step.p;
    if p !in s.calls then None
    else
      match step
      case PopulateRead(_) =>
        if !s.calls[p].Populating? then None
        else
          var Populating(key, dest) := s.calls[p];
          if key !in s.rows then Some(DropNext(s, p, Some(dest)))
          else Some(s.(calls := s.calls[p := PopulateReady(key, dest, s.rows[key].generation)]))
      case PopulateCas(_) =>
        if !s.calls[p].PopulateReady? then None
        else
          var PopulateReady(key, dest, expected) := s.calls[p];
          if key in s.rows && Linkable(s.rows[key], expected)
          then Some(SetEntry(s, key, Linked(s.rows[key], dest)).(calls := s.calls - {p}))
          else Some(DropNext(s, p, Some(dest)))
      case PopulateFail(_) =>
        if !s.calls[p].PopulateReady? then None else Some(DropNext(s, p, Some(s.calls[p].dest)))
  }

  function InvalidateNext(s: CacheState, step: CacheStep): Option<CacheState>
    requires step.InvalidateRead? || step.InvalidateClaim? || step.InvalidateDelete? || step.InvalidateRemove?
  {
    var p := step.p;
    match step
    case InvalidateRead(_, key) =>
      if p in s.calls || key !in s.rows then None
      else Some(s.(calls := s.calls[p := InvalidateReady(key, s.rows[key])]))
    case InvalidateClaim(_) =>
      if p !in s.calls || !s.calls[p].InvalidateReady? then None
      else
        var InvalidateReady(key, seen) := s.calls[p];
        if key in s.rows && s.rows[key].generation == seen.generation
        then Some(SetEntry(s, key, Unlinked(s.rows[key]))
                  .(calls := s.calls[p := InvalidateClaimed(key, seen.pointer, seen.generation + 1)]))
        else Some(s.(calls := s.calls - {p}))
    case InvalidateDelete(_, ok) =>
      if p !in s.calls || !s.calls[p].InvalidateClaimed? then None
      else
        var InvalidateClaimed(key, unlinked, claimed) := s.calls[p];
        if unlinked.None? then Some(s.(calls := s.calls[p := InvalidateDeleted(key, claimed)]))
        else if ok
        then Some(s.(store := s.store - {unlinked.value}, calls := s.calls[p := InvalidateDeleted(key, claimed)]))
        else Some(s.(calls := s.calls - {p}))
    case InvalidateRemove(_) =>
      if p !in s.calls || !s.calls[p].InvalidateDeleted? then None
      else
        var InvalidateDeleted(key, claimed) := s.calls[p];
        if key in s.rows && Linkable(s.rows[key], claimed)
        then Some(s.(rows := s.rows - {key}, calls := s.calls - {p}))
        else Some(s.(calls := s.calls - {p}))
  }

  function ReadRows(rows: map<string, Entry>, keys: set<string>): map<string, Entry> {
    map k | k in keys && k in rows :: rows[k]
  }

  function SweepNext(s: CacheState, step: CacheStep): Option<CacheState>
    requires step.SweepList? || step.SweepDelete? || step.SweepRemove?
  {
    var p := step.p;
    match step
    case SweepList(_, keys) =>
      if p in s.calls || exists k <- keys :: k !in s.rows || s.rows[k].expiresAt.None?
                                             || s.rows[k].expiresAt.value >= s.now then None
      else Some(s.(calls := s.calls[p := Sweeping(ReadRows(s.rows, keys), map[])]))
    case SweepDelete(_, key, ok) =>
      if p !in s.calls || !s.calls[p].Sweeping? || key !in s.calls[p].todo then None
      else
        var Sweeping(todo, deleted) := s.calls[p];
        var seen := todo[key];
        if seen.pointer.Some? && !ok then Some(s.(calls := s.calls[p := Sweeping(todo - {key}, deleted)]))
        else Some(s.(store := if seen.pointer.Some? then s.store - {seen.pointer.value} else s.store,
                     calls := s.calls[p := Sweeping(todo - {key}, deleted[key := seen])]))
    case SweepRemove(_, key) =>
      if p !in s.calls || !s.calls[p].Sweeping? || key !in s.calls[p].deleted then None
      else
        var Sweeping(todo, deleted) := s.calls[p];
        var s' := s.(calls := s.calls[p := Sweeping(todo, deleted - {key})]);
        if key in s.rows && s.rows[key].generation == deleted[key].generation
        then Some(s'.(rows := s.rows - {key})) else Some(s')
  }

  ghost function LookupNext(s: CacheState, step: CacheStep): Option<CacheState>
    requires step.LookupExpired? || step.LookupHit? || step.Placeholder? || step.HitCopy?
  {
    var p := step.p;
    match step
    case LookupExpired(_, key) =>
      if p in s.calls || key !in s.rows || !Expired(s.rows[key], s.now) then None
      else Some(DropNext(SetEntry(s, key, ResetEntry(s.rows[key])), p, s.rows[key].pointer))
    case LookupHit(_, r) =>
      var key := KeyOf(r);
      if p in s.calls || key !in s.rows || Expired(s.rows[key], s.now) || s.rows[key].pointer.None? then None
      else Some(SetEntry(s, key, s.rows[key].(hits := s.rows[key].hits + 1))
                .(calls := s.calls[p := HitReady(key, s.rows[key].pointer.value, r)]))
    case Placeholder(_, key, ttl) =>
      if p in s.calls then None
      else if key !in s.rows then
        Some(SetEntry(s, key, NewEntry(ttl, s.now, s.lives)).(lives := s.lives + 1))
      else if Expired(s.rows[key], s.now) then
        var e := ResetEntry(s.rows[key]).(expiresAt := Expiry(ttl, s.now));
        Some(DropNext(SetEntry(s, key, e), p, s.rows[key].pointer))
      else Some(s)
    case HitCopy(_, t) =>
      if p !in s.calls || !s.calls[p].HitReady? || t in s.tasks || t in s.hitTasks then None
      else
        var HitReady(_, source, r) := s.calls[p];
        if source !in s.store then Some(s.(calls := s.calls - {p}))
        else Some(s.(store := s.store[ResultObj(t) := s.store[source]], hitTasks := s.hitTasks[t := r],
                     calls := s.calls - {p}))
  }

  ghost function CacheNext(s: CacheState, step: CacheStep): Option<CacheState> {
    match step
    case Ingest(t, r) =>
      if t in s.tasks || t in s.hitTasks then None else Some(s.(tasks := s.tasks[t := r]))
    case Produce(t, data) =>
      if t !in s.tasks then None
      else Some(s.(store := s.store[ResultObj(t) := data], produced := s.produced + {(t, data)}))
    case ResultGone(t) => Some(s.(store := s.store - {ResultObj(t)}))
    case DropDone(p, ok) =>
      if p !in s.calls || !s.calls[p].Dropping? then None
      else Some(s.(store := if ok then s.store - {s.calls[p].dropped} else s.store, calls := s.calls - {p}))
    case PopulateCopy(p, t, generation) =>
      if p in s.calls || t !in s.tasks || generation in s.drawn || ResultObj(t) !in s.store then None
      else
        var key := KeyOf(s.tasks[t]);
        var dest := CacheObj(key, generation);
        Some(s.(store := s.store[dest := s.store[ResultObj(t)]], drawn := s.drawn + {generation},
                calls := s.calls[p := Populating(key, dest)]))
    case PopulateRead(_) => PopulateNext(s, step)
    case PopulateCas(_) => PopulateNext(s, step)
    case PopulateFail(_) => PopulateNext(s, step)
    case InvalidateRead(_, _) => InvalidateNext(s, step)
    case InvalidateClaim(_) => InvalidateNext(s, step)
    case InvalidateDelete(_, _) => InvalidateNext(s, step)
    case InvalidateRemove(_) => InvalidateNext(s, step)
    case SweepList(_, _) => SweepNext(s, step)
    case SweepDelete(_, _, _) => SweepNext(s, step)
    case SweepRemove(_, _) => SweepNext(s, step)
    case LookupExpired(_, _) => LookupNext(s, step)
    case LookupHit(_, _) => LookupNext(s, step)
    case Placeholder(_, _, _) => LookupNext(s, step)
    case HitCopy(_, _) => LookupNext(s, step)
    case Cut(p) => Some(s.(calls := s.calls - {p}))
    case Pass(later) => if later < s.now then None else Some(s.(now := later))
  }

  ghost predicate CacheInit(s: CacheState) {
    && s.rows == map[] && s.store == map[] && s.calls == map[] && s.drawn == {} && s.lives == 0
    && s.tasks == map[] && s.hitTasks == map[] && s.produced == {}
  }

  /** Step i of the run leads from its state to the next. */
  ghost predicate Leads(run: seq<CacheState>, steps: seq<CacheStep>, i: nat)
    requires i < |steps| && |run| == |steps| + 1
  {
    CacheNext(run[i], steps[i]) == Some(run[i + 1])
  }

  ghost predicate CacheRun(run: seq<CacheState>, steps: seq<CacheStep>) {
    && |run| == |steps| + 1 && CacheInit(run[0])
    && forall i | 0 <= i < |steps| :: Leads(run, steps, i)
  }
}
