/** Duplicate and orphan VMs (scheduler/scheduler.py): which VM of a worker is kept, and which are sent
    a terminate request. */
module Vms {
  import opened Wrappers
  import opened Rows

  datatype InstanceState = VmPending | VmRunning | VmStopping | VmStopped | VmTerminating | VmTerminated | VmUnknown

  /** A discovered VM; `managed` stands for the two tags that mark a VM as a worker of this gateway. */
  datatype Discovered = Discovered(
    instanceId: InstanceId, workerId: Option<WorkerId>, state: InstanceState, managed: bool)

  function CloudStateOf(state: InstanceState): CloudState {
    match state
    case VmPending => Pending
    case VmRunning => Running
    case VmStopping => Stopping
    case VmStopped => Stopped
    case VmTerminating => Terminating
    case VmTerminated => Terminated
    case VmUnknown => Unknown
  }

  predicate Ending(d: Discovered) {
    d.state.VmTerminating? || d.state.VmTerminated?
  }

  predicate Belongs(d: Discovered, w: WorkerId) {
    d.managed && d.workerId == Some(w)
  }

  // ---------- what is to happen ----------

  function Ids(ds: seq<Discovered>, w: WorkerId): set<InstanceId> {
    set d | d in ds && Belongs(d, w) :: d.instanceId
  }

  function Least(ids: set<InstanceId>): (least: InstanceId)
    requires ids != {}
    ensures least in ids && forall i <- ids :: least <= i
  {
    LeastExists(ids);
    var least :| least in ids && forall i <- ids :: least <= i;
    least
  }

  lemma {:induction false} LeastExists(ids: set<InstanceId>)
    requires ids != {}
    ensures exists least <- ids :: forall i <- ids :: least <= i
  {
    var x := Pick(ids);
    if ids == {x} {
      assert forall i <- ids :: x <= i;
    } else {
      LeastExists(ids - {x});
      var y :| y in ids - {x} && forall i <- ids - {x} :: y <= i;
      var least := if x <= y then x else y;
      assert forall i <- ids :: i == x || i in ids - {x};
      assert least in ids && forall i <- ids :: least <= i;
    }
  }

  /** The VM a worker keeps: the recorded one if it was discovered, else the one with the least id. */
  function KeptVm(ds: seq<Discovered>, w: WorkerId, recorded: Option<InstanceId>): Option<InstanceId> {
    var ids := Ids(ds, w);
    if ids == {} then None
    else if recorded.Some? && recorded.value in ids then recorded
    else Some(Least(ids))
  }

  function RecordedOf(workers: Workers, w: WorkerId): Option<InstanceId> {
    if w in workers then workers[w].instanceId else None
  }

  predicate Orphan(workers: Workers, d: Discovered) {
    d.managed && (d.workerId.None? || d.workerId.value !in workers)
  }

  predicate Duplicate(ds: seq<Discovered>, workers: Workers, d: Discovered) {
    && d.managed && d.workerId.Some?
    && KeptVm(ds, d.workerId.value, RecordedOf(workers, d.workerId.value)) != Some(d.instanceId)
  }

  function Duplicates(ds: seq<Discovered>, workers: Workers): set<InstanceId> {
    set d | d in ds && Duplicate(ds, workers, d) && !Ending(d) :: d.instanceId
  }

  function Orphans(ds: seq<Discovered>, workers: Workers): set<InstanceId> {
    set d | d in ds && Orphan(workers, d) && !Ending(d) :: d.instanceId
  }

  // ---------- what the outcome means ----------

  /** A cloud lists each VM under one id. */
  predicate Coherent(ds: seq<Discovered>) {
    forall d, e | d in ds && e in ds && d.instanceId == e.instanceId :: d == e
  }

  /** Every known worker that has VMs keeps exactly one of them, which is spared; every other managed VM
      that is not ending already is sent a terminate request, and no unmanaged one is. */
  lemma OneVmPerWorker(ds: seq<Discovered>, workers: Workers, d: Discovered)
    requires Coherent(ds) && d in ds && !Ending(d)
    ensures var spared := d.workerId.Some? && d.workerId.value in workers
                          && KeptVm(ds, d.workerId.value, workers[d.workerId.value].instanceId) == Some(d.instanceId);
            d.instanceId in Duplicates(ds, workers) + Orphans(ds, workers) <==> d.managed && !spared
    ensures d.managed && d.workerId.Some? && d.workerId.value in workers ==>
              var kept := KeptVm(ds, d.workerId.value, workers[d.workerId.value].instanceId);
              && kept.Some? && kept.value in Ids(ds, d.workerId.value)
              && kept.value !in Duplicates(ds, workers) + Orphans(ds, workers)
  {
    if d.instanceId in Duplicates(ds, workers) {
      var e :| e in ds && Duplicate(ds, workers, e) && e.instanceId == d.instanceId;
      assert e == d;
    }
    if d.instanceId in Orphans(ds, workers) {
      var e :| e in ds && Orphan(workers, e) && e.instanceId == d.instanceId;
      assert e == d;
    }
    if d.managed && d.workerId.Some? && d.workerId.value in workers {
      var w := d.workerId.value;
      assert d.instanceId in Ids(ds, w);
      var kept := KeptVm(ds, w, workers[w].instanceId).value;
      var k :| k in ds && Belongs(k, w) && k.instanceId == kept;
      assert forall e <- ds :: e.instanceId == kept ==> e == k;
      assert !Duplicate(ds, workers, k) && !Orphan(workers, k);
    }
  }

  /** The outcome does not depend on the order, or the repetitions, of the discovery list. */
  lemma OrderDoesNotMatter(ds: seq<Discovered>, es: seq<Discovered>, workers: Workers, w: WorkerId)
    requires forall d :: d in ds <==> d in es
    ensures KeptVm(ds, w, RecordedOf(workers, w)) == KeptVm(es, w, RecordedOf(workers, w))
    ensures Duplicates(ds, workers) == Duplicates(es, workers) && Orphans(ds, workers) == Orphans(es, workers)
  {
    assert forall v :: Ids(ds, v) == Ids(es, v);
    assert forall d :: Duplicate(ds, workers, d) == Duplicate(es, workers, d);
  }

  // ---------- the scheduler's methods ----------

  function Managed(ds: seq<Discovered>): (ms: seq<Discovered>)
    ensures forall d :: d in ms <==> d in ds && d.managed
  {
    if ds == [] then []
    else
      assert forall d :: d in ds <==> d in ds[..|ds| - 1] || d == ds[|ds| - 1];
      Managed(ds[..|ds| - 1]) + if ds[|ds| - 1].managed then [ds[|ds| - 1]] else []
  }

  function Group(ds: seq<Discovered>, w: WorkerId): (g: seq<Discovered>)
    ensures forall d :: d in g <==> d in ds && Belongs(d, w)
  {
    if ds == [] then []
    else
      assert forall d :: d in ds <==> d in ds[..|ds| - 1] || d == ds[|ds| - 1];
      Group(ds[..|ds| - 1], w) + if Belongs(ds[|ds| - 1], w) then [ds[|ds| - 1]] else []
  }

  /** The rows of the workers whose recorded VM is corrected, because several VMs were found. */
  function Rebound(ds: seq<Discovered>, row: Worker, w: WorkerId): Worker {
    var kept := KeptVm(ds, w, row.instanceId);
    if |Group(ds, w)| <= 1 || kept == row.instanceId then row
    else row.(instanceId := kept, cloud := CloudStateOf(FirstWith(Group(ds, w), kept.GetOr(0)).state))
  }

  /** `next(inst for inst in instances if inst.instance_id == canonical_id)`. */
  function FirstWith(ds: seq<Discovered>, id: InstanceId): Discovered {
    if |ds| <= 1 || ds[0].instanceId == id then (if ds == [] then Discovered(id, None, VmUnknown, false) else ds[0])
    else FirstWith(ds[1..], id)
  }

  lemma {:induction false} FirstWithFinds(ds: seq<Discovered>, id: InstanceId)
    requires exists d <- ds :: d.instanceId == id
    ensures FirstWith(ds, id) in ds && FirstWith(ds, id).instanceId == id
  {
    if ds[0].instanceId != id {
      var d :| d in ds && d.instanceId == id;
      assert d in ds[1..];
      FirstWithFinds(ds[1..], id);
    }
  }

  /** The part of the scheduler that handles VMs: the worker rows it knows, and the terminate requests it
      has sent. Requests that the cloud refuses are not told apart. */
  class VmKeeper {
    var workers: Workers
    var sent: set<InstanceId>

    constructor (workers: Workers)
      ensures this.workers == workers && sent == {}
    {
      this.workers := workers;
      sent := {};
    }

    /** `_terminate_unowned_vm`. */
    method TerminateUnownedVm(d: Discovered)
      modifies `sent
      ensures sent == if Ending(d) then old(sent) else old(sent) + {d.instanceId}
    {
      if Ending(d) {
        return;
      }
      sent := sent + {d.instanceId};
    }

    /** The loop of `_resolve_duplicate_vms` over the VMs that are not kept. */
    method TerminateAllBut(instances: seq<Discovered>, kept: InstanceId)
      modifies `sent
      ensures sent == old(sent) + AllBut(instances, kept)
    {
      ghost var before := sent;
      for i := 0 to |instances|
        invariant sent == before + AllBut(instances[..i], kept)
      {
        var d := instances[i];
        assert instances[..i + 1] == instances[..i] + [d];
        if d.instanceId != kept {
          TerminateUnownedVm(d);
        }
      }
      assert instances[..|instances|] == instances;
    }

    /** `_resolve_duplicate_vms`. */
    method ResolveDuplicateVms(ghost ds: seq<Discovered>, w: WorkerId, instances: seq<Discovered>)
      returns (primary: Discovered)
      requires instances == Group(ds, w) && |instances| > 1
      modifies this
      ensures Resolved(ds, old(workers), w, primary)
      ensures workers == if w in old(workers) then old(workers)[w := Rebound(ds, old(workers)[w], w)] else old(workers)
      ensures sent == old(sent) + AllBut(instances, primary.instanceId)
    {
      GroupIds(ds, w);
      var ids := set d | d in instances :: d.instanceId;
      var recorded := RecordedOf(workers, w);
      var canonical := if recorded.Some? && recorded.value in ids then recorded.value else Least(ids);
      FirstWithFinds(instances, canonical);
      primary := FirstWith(instances, canonical);
      if w in workers && workers[w].instanceId != Some(canonical) {
        workers := workers[w := workers[w].(instanceId := Some(canonical), cloud := CloudStateOf(primary.state))];
      }
      TerminateAllBut(instances, canonical);
    }

    method PickPrimary(ghost ds: seq<Discovered>, ghost ws: Workers, ghost done: set<WorkerId>, w: WorkerId,
                       instances: seq<Discovered>)
      returns (p: Discovered)
      requires instances == Group(ds, w) != [] && w !in done && workers == ReboundAll(ds, ws, done)
      modifies this
      ensures Resolved(ds, ws, w, p)
      ensures workers == ReboundAll(ds, ws, done + {w})
      ensures sent == old(sent) + AllBut(Group(ds, w), p.instanceId)
    {
      ReboundOneMore(ds, ws, done, w);
      if |instances| == 1 {
        OnlyOneIsKept(ds, w, ws);
        p := instances[0];
        DuplicatesOneMore(ds, ws, done, w, p);
      } else {
        p := ResolveDuplicateVms(ds, w, instances);
      }
    }

    /** The second half of `_discover_and_dedupe`. */
    method PickPrimaries(ghost ds: seq<Discovered>, byWorker: map<WorkerId, seq<Discovered>>)
      returns (primary: map<WorkerId, Discovered>)
      requires Grouped(ds, byWorker)
      modifies this
      ensures primary.Keys == byWorker.Keys && Progress(ds, old(workers), old(sent), primary, workers, sent)
    {
      primary := map[];
      var todo := byWorker.Keys;
      ghost var ws, before := workers, sent;
      NothingDone(ds, ws, before);
      hide Progress, ReboundAll, DuplicatesOf, AllBut, Resolved, Grouped, Group;
      while todo != {}
        invariant todo <= byWorker.Keys && primary.Keys == byWorker.Keys - todo
        invariant Progress(ds, ws, before, primary, workers, sent)
        decreases |todo|
      {
        ghost var x := Pick(todo);
        assert x in todo;
        var w :| w in todo;
        GroupAt(ds, byWorker, w);
        ghost var workers0, sent0 := workers, sent;
        ProgressMeans(ds, ws, before, primary, workers, sent);
        var p := PickPrimary(ds, ws, primary.Keys, w, byWorker[w]);
        ProgressOneMore(ds, ws, before, primary, workers0, sent0, w, p, workers, sent);
        primary := primary[w := p];
        todo := todo - {w};
      }
    }

    /** `_discover_and_dedupe`. */
    method DiscoverAndDedupe(ds: seq<Discovered>) returns (managed: seq<Discovered>, primary: map<WorkerId, Discovered>)
      modifies this
      ensures managed == Managed(ds)
      ensures forall w :: w in primary <==> Ids(ds, w) != {}
      ensures forall w <- primary :: Resolved(ds, old(workers), w, primary[w])
      ensures workers == map w | w in old(workers) :: Rebound(ds, old(workers)[w], w)
      ensures sent == old(sent) + Duplicates(ds, old(workers))
    {
      var byWorker;
      managed, byWorker := GroupByWorker(ds);
      primary := PickPrimaries(ds, byWorker);
      forall w
        ensures w in byWorker <==> Ids(ds, w) != {}
      {
        GroupIds(ds, w);
      }
      AllGroupsCovered(ds, old(workers), byWorker.Keys);
    }

    /** The first half of `_discover_and_dedupe`. */
    method GroupByWorker(ds: seq<Discovered>)
      returns (managed: seq<Discovered>, byWorker: map<WorkerId, seq<Discovered>>)
      ensures managed == Managed(ds) && Grouping(ds, byWorker)
    {
      hide Managed, Group, Grouping;
      managed, byWorker := [], map[];
      NothingGrouped();
      for i := 0 to |ds|
        invariant managed == Managed(ds[..i]) && Grouping(ds[..i], byWorker)
      {
        var d := ds[i];
        OneMoreGrouped(ds[..i], d, byWorker);
        assert ds[..i + 1] == ds[..i] + [d];
        if d.managed {
          managed := managed + [d];
          if d.workerId.Some? {
            var w := d.workerId.value;
            byWorker := byWorker[w := (if w in byWorker then byWorker[w] else []) + [d]];
          }
        }
      }
      assert ds[..|ds|] == ds;
    }

    /** `_terminate_orphan_vms`. */
    method TerminateOrphanVms(ghost ds: seq<Discovered>, managed: seq<Discovered>)
      requires managed == Managed(ds)
      modifies `sent
      ensures sent == old(sent) + Orphans(ds, workers)
    {
      ghost var before := sent;
      for i := 0 to |managed|
        invariant sent == before + set d | d in managed[..i] && Orphan(workers, d) && !Ending(d) :: d.instanceId
      {
        var d := managed[i];
        assert managed[..i + 1] == managed[..i] + [d];
        assert d in managed;
        if d.workerId.None? || d.workerId.value !in workers {
          TerminateUnownedVm(d);
        }
      }
      assert managed[..|managed|] == managed;
      assert (set d | d in managed && Orphan(workers, d) && !Ending(d) :: d.instanceId) == Orphans(ds, workers);
    }
  }

  ghost predicate Resolved(ds: seq<Discovered>, ws: Workers, w: WorkerId, p: Discovered) {
    && p in ds && Belongs(p, w) && Some(p.instanceId) == KeptVm(ds, w, RecordedOf(ws, w))
  }

  ghost predicate AllResolved(ds: seq<Discovered>, ws: Workers, primary: map<WorkerId, Discovered>) {
    forall w <- primary :: Resolved(ds, ws, w, primary[w])
  }

  ghost predicate Grouped(ds: seq<Discovered>, byWorker: map<WorkerId, seq<Discovered>>) {
    forall w <- byWorker :: byWorker[w] == Group(ds, w) && Group(ds, w) != []
  }

  /** The dictionary holds every worker's managed VMs, in the order of the list. */
  ghost predicate Grouping(ds: seq<Discovered>, byWorker: map<WorkerId, seq<Discovered>>) {
    (forall w :: w in byWorker <==> Group(ds, w) != []) && forall w <- byWorker :: byWorker[w] == Group(ds, w)
  }

  lemma NothingGrouped()
    ensures Managed([]) == [] && Grouping([], map[])
  {
  }

  lemma GroupOneMore(ds: seq<Discovered>, d: Discovered, w: WorkerId)
    ensures Group(ds + [d], w) == if Belongs(d, w) then Group(ds, w) + [d] else Group(ds, w)
  {
    assert (ds + [d])[..|ds|] == ds;
  }

  /** The dictionary after one more VM. */
  function WithOne(byWorker: map<WorkerId, seq<Discovered>>, d: Discovered): map<WorkerId, seq<Discovered>> {
    if d.managed && d.workerId.Some? then
      var w := d.workerId.value;
      byWorker[w := (if w in byWorker then byWorker[w] else []) + [d]]
    else byWorker
  }

  lemma OneMoreAt(ds: seq<Discovered>, d: Discovered, byWorker: map<WorkerId, seq<Discovered>>, w: WorkerId)
    requires w in byWorker <==> Group(ds, w) != []
    requires w in byWorker ==> byWorker[w] == Group(ds, w)
    ensures w in WithOne(byWorker, d) <==> Group(ds + [d], w) != []
    ensures w in WithOne(byWorker, d) ==> WithOne(byWorker, d)[w] == Group(ds + [d], w)
  {
    GroupOneMore(ds, d, w);
  }

  lemma OneMoreGrouped(ds: seq<Discovered>, d: Discovered, byWorker: map<WorkerId, seq<Discovered>>)
    requires Grouping(ds, byWorker)
    ensures Managed(ds + [d]) == if d.managed then Managed(ds) + [d] else Managed(ds)
    ensures Grouping(ds + [d], WithOne(byWorker, d))
  {
    assert (ds + [d])[..|ds|] == ds;
    hide Group, WithOne;
    forall w
      ensures w in WithOne(byWorker, d) <==> Group(ds + [d], w) != []
      ensures w in WithOne(byWorker, d) ==> WithOne(byWorker, d)[w] == Group(ds + [d], w)
    {
      OneMoreAt(ds, d, byWorker, w);
    }
  }

  lemma GroupAt(ds: seq<Discovered>, byWorker: map<WorkerId, seq<Discovered>>, w: WorkerId)
    requires Grouped(ds, byWorker) && w in byWorker
    ensures byWorker[w] == Group(ds, w) && Group(ds, w) != []
  {
  }

  /** The workers in `primary` are done with: their VM is picked, their row corrected, the rest sent terminate. */
  ghost predicate Progress(ds: seq<Discovered>, ws: Workers, before: set<InstanceId>,
                           primary: map<WorkerId, Discovered>,
                           workers: Workers, sent: set<InstanceId>)
  {
    && AllResolved(ds, ws, primary)
    && workers == ReboundAll(ds, ws, primary.Keys)
    && sent == before + DuplicatesOf(ds, ws, primary.Keys)
  }

  lemma NothingDone(ds: seq<Discovered>, ws: Workers, before: set<InstanceId>)
    ensures Progress(ds, ws, before, map[], ws, before)
  {
  }

  lemma ProgressMeans(ds: seq<Discovered>, ws: Workers, before: set<InstanceId>, primary: map<WorkerId, Discovered>,
                      workers: Workers, sent: set<InstanceId>)
    requires Progress(ds, ws, before, primary, workers, sent)
    ensures workers == ReboundAll(ds, ws, primary.Keys)
  {
  }

  lemma ProgressOneMore(ds: seq<Discovered>, ws: Workers, before: set<InstanceId>, primary: map<WorkerId, Discovered>,
                        workers0: Workers, sent0: set<InstanceId>, w: WorkerId, p: Discovered,
                        workers: Workers, sent: set<InstanceId>)
    requires Progress(ds, ws, before, primary, workers0, sent0) && Resolved(ds, ws, w, p)
    requires workers == ReboundAll(ds, ws, primary.Keys + {w})
    requires sent == sent0 + AllBut(Group(ds, w), p.instanceId)
    ensures Progress(ds, ws, before, primary[w := p], workers, sent)
  {
    DuplicatesOneMore(ds, ws, primary.Keys, w, p);
    assert primary[w := p].Keys == primary.Keys + {w};
  }

  lemma OnlyOneIsKept(ds: seq<Discovered>, w: WorkerId, ws: Workers)
    requires |Group(ds, w)| == 1
    ensures Resolved(ds, ws, w, Group(ds, w)[0])
    ensures forall d <- ds :: Belongs(d, w) ==> d == Group(ds, w)[0]
  {
    var p := Group(ds, w)[0];
    assert p in Group(ds, w);
    assert forall d <- ds :: Belongs(d, w) ==> d in Group(ds, w);
    assert Ids(ds, w) == {p.instanceId};
  }

  lemma GroupIds(ds: seq<Discovered>, w: WorkerId)
    ensures (set d | d in Group(ds, w) :: d.instanceId) == Ids(ds, w)
    ensures Group(ds, w) == [] <==> Ids(ds, w) == {}
    ensures Group(ds, w) != [] ==> exists d <- Group(ds, w) :: d.instanceId in Ids(ds, w)
  {
    if Group(ds, w) != [] {
      var d := Group(ds, w)[0];
      assert d in Group(ds, w) && d.instanceId in Ids(ds, w);
    }
    if Ids(ds, w) != {} {
      var d :| d in ds && Belongs(d, w);
      assert d in Group(ds, w);
    }
  }

  function AllBut(ds: seq<Discovered>, kept: InstanceId): set<InstanceId> {
    set d | d in ds && d.instanceId != kept && !Ending(d) :: d.instanceId
  }

  /** The duplicates of the given workers. */
  function DuplicatesOf(ds: seq<Discovered>, ws: Workers, of: set<WorkerId>): set<InstanceId> {
    set d | d in ds && Duplicate(ds, ws, d) && !Ending(d) && d.workerId.value in of :: d.instanceId
  }

  function ReboundAll(ds: seq<Discovered>, ws: Workers, of: set<WorkerId>): Workers {
    map w | w in ws :: if w in of then Rebound(ds, ws[w], w) else ws[w]
  }

  lemma ReboundOneMore(ds: seq<Discovered>, ws: Workers, done: set<WorkerId>, w: WorkerId)
    requires w !in done
    ensures |Group(ds, w)| == 1 ==> ReboundAll(ds, ws, done + {w}) == ReboundAll(ds, ws, done)
    ensures w !in ws ==> ReboundAll(ds, ws, done + {w}) == ReboundAll(ds, ws, done)
    ensures w in ws ==>
              && ReboundAll(ds, ws, done)[w] == ws[w]
              && ReboundAll(ds, ws, done + {w}) == ReboundAll(ds, ws, done)[w := Rebound(ds, ws[w], w)]
  {
  }

  lemma DuplicatesOneMore(ds: seq<Discovered>, ws: Workers, done: set<WorkerId>, w: WorkerId, p: Discovered)
    requires Resolved(ds, ws, w, p)
    ensures DuplicatesOf(ds, ws, done + {w}) == DuplicatesOf(ds, ws, done) + AllBut(Group(ds, w), p.instanceId)
    ensures |Group(ds, w)| == 1 ==> AllBut(Group(ds, w), p.instanceId) == {}
  {
    if |Group(ds, w)| == 1 {
      OnlyOneIsKept(ds, w, ws);
    }
    forall i
      ensures i in DuplicatesOf(ds, ws, done + {w})
              <==> i in DuplicatesOf(ds, ws, done) + AllBut(Group(ds, w), p.instanceId)
    {
      if i in DuplicatesOf(ds, ws, done + {w}) {
        var d :| d in ds && Duplicate(ds, ws, d) && !Ending(d) && d.workerId.value in done + {w} && d.instanceId == i;
        if d.workerId.value == w {
          assert d in Group(ds, w);
        } else {
          assert i in DuplicatesOf(ds, ws, done);
        }
      }
      if i in AllBut(Group(ds, w), p.instanceId) {
        var d :| d in Group(ds, w) && d.instanceId != p.instanceId && !Ending(d) && d.instanceId == i;
        assert Duplicate(ds, ws, d);
      }
    }
  }

  lemma AllGroupsCovered(ds: seq<Discovered>, ws: Workers, of: set<WorkerId>)
    requires forall w :: w in of <==> Ids(ds, w) != {}
    ensures DuplicatesOf(ds, ws, of) == Duplicates(ds, ws)
    ensures ReboundAll(ds, ws, of) == map w | w in ws :: Rebound(ds, ws[w], w)
  {
    forall d | d in ds && d.managed && d.workerId.Some?
      ensures d.workerId.value in of
    {
      assert d.instanceId in Ids(ds, d.workerId.value);
    }
    forall w | w in ws && w !in of
      ensures Rebound(ds, ws[w], w) == ws[w]
    {
      GroupIds(ds, w);
    }
  }
}
