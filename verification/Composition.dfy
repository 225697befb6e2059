/** The cache and the deployment together: what a cache hit copies is what a worker of the deployment served.
    The two state machines run side by side and meet in three steps: a task that goes to a worker, a result
    that a worker serves, and a result that is copied for a hit. */
module Composition {
  import opened Wrappers
  import opened Rows
  import opened Protocol
  import opened Invariant
  import opened Theorems
  import opened CacheProtocol
  import opened CacheProofs
  import opened CacheTheorems
  import Selection
  import Payload

  type Bytes = Payload.Bytes

  /** A state of both. */
  datatype Both = Both(s: State, cache: CacheState)

  /** A step of one of them, or one that both take part in. */
  datatype JointStep =
    | Alone(step: Step)
    | CacheAlone(cacheStep: CacheStep)
    | Uploaded(t: TaskId, cacheKey: Option<string>)
    | ResultServed(t: TaskId, data: Bytes)
    | HitCopied(p: int, t: TaskId, data: Bytes)

  /** The step is one that the cache takes part in. */
  predicate Shared(step: Step) {
    || (step.Gateway? && (step.g.InsertTask? || step.g.PutHit?))
    || (step.Fast? && step.f.PersistPut?)
  }

  predicate CacheShared(step: CacheStep) {
    step.Ingest? || step.Produce? || step.HitCopy?
  }

  /** `create_task_row` for an upload; `store_result`; `create_hit_task`: one step of each machine. */
  ghost predicate Joint(c: Config, b: Both, step: JointStep, b': Both) {
    match step
    case Alone(st) => !Shared(st) && Next(c, b.s, st) == Some(b'.s) && b'.cache == b.cache
    case CacheAlone(st) => !CacheShared(st) && CacheNext(b.cache, st) == Some(b'.cache) && b'.s == b.s
    case Uploaded(t, cacheKey) =>
      && t in b.s.requests && Next(c, b.s, Gateway(InsertTask(t, cacheKey))) == Some(b'.s)
      && CacheNext(b.cache, Ingest(t, b.s.requests[t])) == Some(b'.cache)
    case ResultServed(t, data) =>
      && Next(c, b.s, Fast(PersistPut(t, data))) == Some(b'.s)
      && CacheNext(b.cache, Produce(t, data)) == Some(b'.cache)
    case HitCopied(p, t, data) =>
      && p in b.cache.calls && b.cache.calls[p].HitReady? && b.cache.calls[p].source in b.cache.store
      && data == b.cache.store[b.cache.calls[p].source]
      && Next(c, b.s, Gateway(PutHit(t, data))) == Some(b'.s)
      && CacheNext(b.cache, HitCopy(p, t)) == Some(b'.cache)
  }

  /** The bytes are what a worker served for an upstream id that it gave to the task u, whose request was r. */
  ghost predicate ServedFor(s: State, u: TaskId, r: Payload.Request, data: Bytes) {
    exists url, upstreamId ::
      Acceptance(u, url, upstreamId, r) in s.accepted && Served(url, upstreamId, data) in s.served
  }

  /** The cache knows of a task the request that its client uploaded, and of a result that a worker served it. */
  ghost predicate Agree(b: Both) {
    && (forall t <- b.cache.tasks :: t in b.s.requests && b.s.requests[t] == b.cache.tasks[t])
    && (forall t, data | (t, data) in b.cache.produced ::
          t in b.cache.tasks && ServedFor(b.s, t, b.cache.tasks[t], data))
  }

  ghost predicate BothOk(c: Config, b: Both) {
    Inv(c, b.s) && PointersOk(b.cache) && BytesOk(b.cache) && Agree(b)
  }

  ghost predicate JointInit(b: Both) {
    Init(b.s) && CacheInit(b.cache)
  }

  ghost predicate JointLeads(c: Config, run: seq<Both>, steps: seq<JointStep>, i: nat)
    requires i < |steps| && |run| == |steps| + 1
  {
    Joint(c, run[i], steps[i], run[i + 1])
  }

  /** A run of both. */
  ghost predicate JointRun(c: Config, run: seq<Both>, steps: seq<JointStep>) {
    && c.Valid() && |run| == |steps| + 1 && JointInit(run[0])
    && forall i | 0 <= i < |steps| :: JointLeads(c, run, steps, i)
  }

  // ---------- histories only grow ----------

  ghost predicate Remembers(s: State, s': State) {
    && s.accepted <= s'.accepted && s.served <= s'.served
    && forall t <- s.requests :: t in s'.requests && s'.requests[t] == s.requests[t]
  }

  lemma StaysServed(s: State, s': State, u: TaskId, r: Payload.Request, data: Bytes)
    requires Remembers(s, s') && ServedFor(s, u, r, data)
    ensures ServedFor(s', u, r, data)
  {
    var url, upstreamId :| Acceptance(u, url, upstreamId, r) in s.accepted && Served(url, upstreamId, data) in s.served;
    assert Acceptance(u, url, upstreamId, r) in s'.accepted;
  }

  lemma FastRemembers(c: Config, s: State, f: FastStep, s': State)
    requires FastNext(c, s, f) == Some(s')
    ensures Remembers(s, s')
  {
    hide PayloadOf, Selection.Acquire, Recorded, Polled, Touched;
  }

  lemma GatewayRemembers(s: State, g: GatewayStep, s': State)
    requires GatewayNext(s, g) == Some(s') && s.requests.Keys <= s.issued
    ensures Remembers(s, s')
  {
    hide Payload.Packed, Accepts;
  }

  lemma SlowRemembers(c: Config, s: State, l: SlowStep, s': State)
    requires Inv(c, s) && SlowNext(c, s, l) == Some(s')
    ensures Remembers(s, s')
  {
    hide Inv, SlowNext;
    SlowFrame(c, s, l, s');
    assert LeavesIntake(s, s');
  }

  lemma RequestsAreIssued(c: Config, s: State)
    requires Inv(c, s)
    ensures s.requests.Keys <= s.issued
  {
  }

  lemma StepRemembers(c: Config, s: State, step: Step, s': State)
    requires Inv(c, s) && Next(c, s, step) == Some(s')
    ensures Remembers(s, s')
  {
    hide Inv, GatewayNext, FastNext, SlowNext, Remembers;
    RequestsAreIssued(c, s);
    match step
    case Gateway(g) => GatewayRemembers(s, g, s');
    case Fast(f) => FastRemembers(c, s, f, s');
    case Slow(l) => SlowRemembers(c, s, l, s');
    case Admin(_) => SameHistory(s, s');
    case Tick(_) => SameHistory(s, s');
    case Crash => SameHistory(s, s');
  }

  lemma SameHistory(s: State, s': State)
    requires s'.accepted == s.accepted && s'.served == s.served && s'.requests == s.requests
    ensures Remembers(s, s')
  {
  }

  lemma SameRemembers(s: State)
    ensures Remembers(s, s)
  {
  }

  // ---------- the cache's steps ----------

  lemma LookupTells(s: CacheState, step: CacheStep, s': CacheState)
    requires (step.LookupExpired? || step.LookupHit? || step.Placeholder?) && LookupNext(s, step) == Some(s')
    ensures s'.tasks == s.tasks && s'.produced == s.produced
  {
    hide KeyOf;
  }

  /** The step adds no task and no result to what the cache knows. */
  lemma CacheStepTells(s: CacheState, step: CacheStep, s': CacheState)
    requires CacheNext(s, step) == Some(s') && !CacheShared(step)
    ensures s'.tasks == s.tasks && s'.produced == s.produced
  {
    hide KeyOf, LookupNext, ReadRows;
    if step.LookupExpired? || step.LookupHit? || step.Placeholder? {
      LookupTells(s, step, s');
    }
  }

  lemma SharedStepTells(s: CacheState, step: CacheStep, s': CacheState)
    requires CacheNext(s, step) == Some(s') && CacheShared(step)
    ensures step.Ingest? ==> s'.tasks == s.tasks[step.t := step.r] && step.t !in s.tasks && s'.produced == s.produced
    ensures step.Produce? ==>
              step.t in s.tasks && s'.tasks == s.tasks && s'.produced == s.produced + {(step.t, step.data)}
    ensures step.HitCopy? ==> s'.tasks == s.tasks && s'.produced == s.produced
  {
    hide KeyOf;
  }

  // ---------- the joint invariant ----------

  /** A result that is put has been served for the request of its task. */
  lemma PutIsServed(c: Config, s: State, t: TaskId, data: Bytes, s': State)
    requires Inv(c, s) && Next(c, s, Fast(PersistPut(t, data))) == Some(s')
    ensures t in s.requests && ServedFor(s', t, s.requests[t], data)
  {
    PutServes(c, s, t, data, s');
    hide Next;
    assert PersistOk(s, t, s.fast.toPersist[t]) && Identified(s, t);
    hide Inv;
    var p := s.fast.toPersist[t];
    assert Acceptance(t, p.url, p.upstreamId, s.requests[t]) in s'.accepted;
  }

  lemma PutServes(c: Config, s: State, t: TaskId, data: Bytes, s': State)
    requires Next(c, s, Fast(PersistPut(t, data))) == Some(s')
    ensures s.fast.Persisting? && t in s.fast.toPersist && s'.accepted == s.accepted
    ensures var p := s.fast.toPersist[t];
            Served(p.url, p.upstreamId, data) in s'.served
  {
    hide GatewayNext, AdminNext, SlowNext, PayloadOf, Selection.Acquire, Recorded, Polled, Touched;
  }

  lemma AgreeGrows(b: Both, b': Both)
    requires Agree(b) && Remembers(b.s, b'.s)
    requires b'.cache.tasks == b.cache.tasks && b'.cache.produced == b.cache.produced
    ensures Agree(b')
  {
    forall t, data | (t, data) in b'.cache.produced
      ensures t in b'.cache.tasks && ServedFor(b'.s, t, b'.cache.tasks[t], data)
    {
      StaysServed(b.s, b'.s, t, b.cache.tasks[t], data);
    }
  }

  lemma AgreeLearns(b: Both, b': Both, u: TaskId, r: Payload.Request)
    requires Agree(b) && Remembers(b.s, b'.s) && u in b.s.requests && b.s.requests[u] == r && u !in b.cache.tasks
    requires b'.cache.tasks == b.cache.tasks[u := r] && b'.cache.produced == b.cache.produced
    ensures Agree(b')
  {
    forall t, data | (t, data) in b'.cache.produced
      ensures t in b'.cache.tasks && ServedFor(b'.s, t, b'.cache.tasks[t], data)
    {
      StaysServed(b.s, b'.s, t, b.cache.tasks[t], data);
    }
  }

  lemma AgreeServed(b: Both, b': Both, u: TaskId, data: Bytes)
    requires Agree(b) && Remembers(b.s, b'.s) && u in b.cache.tasks && ServedFor(b'.s, u, b.cache.tasks[u], data)
    requires b'.cache.tasks == b.cache.tasks && b'.cache.produced == b.cache.produced + {(u, data)}
    ensures Agree(b')
  {
    forall t, d | (t, d) in b'.cache.produced
      ensures t in b'.cache.tasks && ServedFor(b'.s, t, b'.cache.tasks[t], d)
    {
      if (t, d) in b.cache.produced {
        StaysServed(b.s, b'.s, t, b.cache.tasks[t], d);
      }
    }
  }

  lemma JointAgrees(c: Config, b: Both, step: JointStep, b': Both)
    requires BothOk(c, b) && Joint(c, b, step, b')
    ensures Agree(b')
  {
    hide Inv, PointersOk, BytesOk, Next, CacheNext, Agree, Remembers, ServedFor;
    match step
    case Alone(st) =>
      StepRemembers(c, b.s, st, b'.s);
      AgreeGrows(b, b');
    case CacheAlone(st) =>
      CacheStepTells(b.cache, st, b'.cache);
      SameRemembers(b.s);
      AgreeGrows(b, b');
    case Uploaded(t, cacheKey) =>
      StepRemembers(c, b.s, Gateway(InsertTask(t, cacheKey)), b'.s);
      SharedStepTells(b.cache, Ingest(t, b.s.requests[t]), b'.cache);
      AgreeLearns(b, b', t, b.s.requests[t]);
    case ResultServed(t, data) =>
      StepRemembers(c, b.s, Fast(PersistPut(t, data)), b'.s);
      PutIsServed(c, b.s, t, data, b'.s);
      SharedStepTells(b.cache, Produce(t, data), b'.cache);
      AgreedRequest(b, t);
      AgreeServed(b, b', t, data);
    case HitCopied(p, t, data) =>
      StepRemembers(c, b.s, Gateway(PutHit(t, data)), b'.s);
      SharedStepTells(b.cache, HitCopy(p, t), b'.cache);
      AgreeGrows(b, b');
  }

  lemma AgreedRequest(b: Both, t: TaskId)
    requires Agree(b) && t in b.cache.tasks
    ensures t in b.s.requests && b.s.requests[t] == b.cache.tasks[t]
  {
  }

  lemma JointKeeps(c: Config, b: Both, step: JointStep, b': Both)
    requires BothOk(c, b) && Joint(c, b, step, b')
    ensures BothOk(c, b')
  {
    hide Inv, PointersOk, BytesOk, Next, CacheNext, Agree;
    JointAgrees(c, b, step, b');
    match step
    case Alone(st) => StepKeeps(c, b.s, st, b'.s);
    case CacheAlone(st) => CacheKeeps(b.cache, st, b'.cache);
    case Uploaded(t, cacheKey) =>
      StepKeeps(c, b.s, Gateway(InsertTask(t, cacheKey)), b'.s);
      CacheKeeps(b.cache, Ingest(t, b.s.requests[t]), b'.cache);
    case ResultServed(t, data) =>
      StepKeeps(c, b.s, Fast(PersistPut(t, data)), b'.s);
      CacheKeeps(b.cache, Produce(t, data), b'.cache);
    case HitCopied(p, t, data) =>
      StepKeeps(c, b.s, Gateway(PutHit(t, data)), b'.s);
      CacheKeeps(b.cache, HitCopy(p, t), b'.cache);
  }

  lemma CacheKeeps(s: CacheState, step: CacheStep, s': CacheState)
    requires PointersOk(s) && BytesOk(s) && CacheNext(s, step) == Some(s')
    ensures PointersOk(s') && BytesOk(s')
  {
    hide PointersOk, BytesOk, CacheNext;
    PointersStep(s, step, s');
    BytesStep(s, step, s');
  }

  lemma {:induction false} JointAlways(c: Config, run: seq<Both>, steps: seq<JointStep>, i: nat)
    requires JointRun(c, run, steps) && i < |run|
    ensures BothOk(c, run[i])
  {
    if i == 0 {
      JointStarts(c, run[0]);
    } else {
      hide BothOk, Joint;
      JointAlways(c, run, steps, i - 1);
      assert JointLeads(c, run, steps, i - 1);
      JointKeeps(c, run[i - 1], steps[i - 1], run[i]);
    }
  }

  lemma JointStarts(c: Config, b: Both)
    requires c.Valid() && JointInit(b)
    ensures BothOk(c, b)
  {
    InitOk(c, b.s);
    CacheAlways([b.cache], [], 0);
    hide Inv, PointersOk, BytesOk;
  }

  // ---------- the theorem ----------

  lemma HitIsOfAProducedResult(c: Config, b: Both, p: int, t: TaskId, data: Bytes)
    requires BothOk(c, b) && p in b.cache.calls && b.cache.calls[p].HitReady?
    requires b.cache.calls[p].source in b.cache.store && data == b.cache.store[b.cache.calls[p].source]
    ensures exists u :: u in b.cache.tasks && (u, data) in b.cache.produced
                        && KeyOf(b.cache.tasks[u]) == KeyOf(b.cache.calls[p].request)
  {
    hide Inv, PointersOk, KeyOf;
    assert ObjectOk(b.cache, b.cache.calls[p].source, data);
  }

  /** Whatever the gateway, the workers, the loops, retention, the cache's calls and crashes do: when a result is
      copied for a cache hit, its bytes are what a worker served for an upstream id that it had given to a task
      whose client uploaded the same job, file by file and option by option. */
  lemma HitsAreServedResults(c: Config, run: seq<Both>, steps: seq<JointStep>, i: nat, p: int, t: TaskId, data: Bytes)
    requires JointRun(c, run, steps) && i < |steps| && steps[i] == HitCopied(p, t, data)
    ensures p in run[i].cache.calls && run[i].cache.calls[p].HitReady?
    ensures var s := run[i].s;
            exists u :: u in s.requests && SameJob(s.requests[u], run[i].cache.calls[p].request)
                        && ServedFor(s, u, s.requests[u], data)
  {
    JointAlways(c, run, steps, i);
    assert JointLeads(c, run, steps, i);
    var b := run[i];
    HitIsOfAProducedResult(c, b, p, t, data);
    hide Inv, PointersOk, BytesOk, KeyOf, SameJob, Next, CacheNext;
    var u :| u in b.cache.tasks && (u, data) in b.cache.produced
             && KeyOf(b.cache.tasks[u]) == KeyOf(b.cache.calls[p].request);
    SameKeyIffSameJob(b.cache.tasks[u], b.cache.calls[p].request);
    assert u in b.s.requests && ServedFor(b.s, u, b.s.requests[u], data);
  }
}
