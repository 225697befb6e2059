/** Which worker a dispatch gets (worker_repository.py, acquire_dispatchable). */
module Selection {
  import opened Wrappers
  import opened Rows

  /** The workers a task may be dispatched to. */
  function Dispatchable(c: Config, tasks: Tasks, workers: Workers, excluded: set<WorkerId>): set<WorkerId> {
    set w | w in workers && Serviceable(c, workers[w]) && Load(tasks, w) < c.targetPerWorker && w !in excluded
  }

  /** ORDER BY load, last_active_at NULLS FIRST, id. */
  predicate Before(tasks: Tasks, workers: Workers, v: WorkerId, w: WorkerId)
    requires v in workers && w in workers
  {
    var lv, lw := Load(tasks, v), Load(tasks, w);
    var av, aw := workers[v].lastActiveAt, workers[w].lastActiveAt;
    || lv < lw
    || (lv == lw
        && (|| (av.None? && aw.Some?)
            || (av.Some? && aw.Some? && av.value < aw.value)
            || (av == aw && v < w)))
  }

  lemma BeforeTransitive(tasks: Tasks, workers: Workers, u: WorkerId, v: WorkerId, w: WorkerId)
    requires u in workers && v in workers && w in workers
    requires Before(tasks, workers, u, v) && Before(tasks, workers, v, w)
    ensures Before(tasks, workers, u, w)
  {
  }

  lemma BeforeTotal(tasks: Tasks, workers: Workers, v: WorkerId, w: WorkerId)
    requires v in workers && w in workers && v != w
    ensures Before(tasks, workers, v, w) || Before(tasks, workers, w, v)
  {
  }

  predicate First(tasks: Tasks, workers: Workers, candidates: set<WorkerId>, w: WorkerId)
    requires candidates <= workers.Keys
  {
    w in candidates && forall v <- candidates :: v == w || Before(tasks, workers, w, v)
  }

  lemma {:induction false} FirstExists(tasks: Tasks, workers: Workers, candidates: set<WorkerId>)
    requires candidates != {} && candidates <= workers.Keys
    ensures exists w :: First(tasks, workers, candidates, w)
  {
    var x := Pick(candidates);
    if candidates == {x} {
      assert First(tasks, workers, candidates, x);
    } else {
      var rest := candidates - {x};
      FirstExists(tasks, workers, rest);
      var y :| First(tasks, workers, rest, y);
      var w := if Before(tasks, workers, x, y) then x else y;
      forall v | v in candidates && v != w
        ensures Before(tasks, workers, w, v)
      {
        if w == x && v != y {
          assert v in rest;
          BeforeTransitive(tasks, workers, x, y, v);
        } else if v == x {
          BeforeTotal(tasks, workers, x, y);
        }
      }
      assert First(tasks, workers, candidates, w);
    }
  }

  function Acquire(c: Config, tasks: Tasks, workers: Workers, excluded: set<WorkerId>): (r: Option<WorkerId>)
    ensures r.None? <==> Dispatchable(c, tasks, workers, excluded) == {}
    ensures r.Some? ==> First(tasks, workers, Dispatchable(c, tasks, workers, excluded), r.value)
  {
    var candidates := Dispatchable(c, tasks, workers, excluded);
    if candidates == {} then None
    else
      FirstExists(tasks, workers, candidates);
      var w :| w in candidates && First(tasks, workers, candidates, w);
      Some(w)
  }
}
