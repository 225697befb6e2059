/** The autoscaler's decisions on the tables it counts (scheduler/scheduler.py, _apply_autoscaling). */
module Autoscale {
  import opened Status
  import opened Rows
  import opened Scaling
  import opened Protocol

  function QueueSet(tasks: Tasks): set<TaskId> {
    set t | t in tasks && Demand(tasks[t].status)
  }

  function ServiceableSet(c: Config, ws: Workers): set<WorkerId> {
    set w | w in ws && Serviceable(c, ws[w])
  }

  function StartingSet(c: Config, ws: Workers): set<WorkerId> {
    set w | w in ws && Provisioning(c, ws[w])
  }

  function DrainingSet(ws: Workers): set<WorkerId> {
    set w | w in ws && IsDraining(ws[w])
  }

  function StoppingSet(ws: Workers): set<WorkerId> {
    set w | w in ws && IsStopping(ws[w])
  }

  /** `collect_scaling_inputs`, with the five counts taken of one state. */
  function CollectInputs(c: Config, tasks: Tasks, ws: Workers): Inputs {
    Inputs(|QueueSet(tasks)|, |ServiceableSet(c, ws)|, |StartingSet(c, ws)|, |DrainingSet(ws)|, |StoppingSet(ws)|)
  }

  function SignalOf(c: Config, tasks: Tasks, ws: Workers): Signal
    requires c.Valid()
  {
    ComputeSignal(CollectInputs(c, tasks, ws), c.targetPerWorker, c.minWorkers, c.maxWorkers)
  }

  lemma CardPlus<T>(a: set<T>, x: T)
    requires x !in a
    ensures |a + {x}| == |a| + 1
  {
  }

  lemma CardMinus<T>(a: set<T>, x: T)
    requires x in a
    ensures |a - {x}| == |a| - 1
  {
  }

  /** When the autoscaler drains the idle worker it found, the workers left in service still reach the
      desired number, and while that drain is on its way the autoscaler asks neither for another drain
      nor, for the same queue, for a worker to replace it. */
  lemma AutoscaleDrainKeepsCapacity(c: Config, tasks: Tasks, ws: Workers, w: WorkerId, before: Time)
    requires c.Valid() && w in ws && IdleSince(tasks, w, ws[w], before)
    requires SignalOf(c, tasks, ws).ShouldScaleDown()
    ensures var ws' := ws[w := DrainIntended(ws[w], WantStopped)];
            var s, s' := SignalOf(c, tasks, ws), SignalOf(c, tasks, ws');
            && |ServiceableSet(c, ws')| >= s.desired == s'.desired
            && !s'.ShouldScaleUp() && !s'.ShouldScaleDown()
  {
    var ws' := ws[w := DrainIntended(ws[w], WantStopped)];
    assert w in DrainingSet(ws');
    assert DrainingSet(ws') != {};
    assert ServiceableSet(c, ws') == ServiceableSet(c, ws) - {w};
    if w in ServiceableSet(c, ws) {
      CardMinus(ServiceableSet(c, ws), w);
    } else {
      assert ServiceableSet(c, ws') == ServiceableSet(c, ws);
    }
  }

  /** A new worker counts as starting at once: it closes the gap by one, and does not open a surplus. */
  lemma NewWorkerClosesGap(c: Config, tasks: Tasks, ws: Workers, id: WorkerId, now: Time)
    requires c.Valid() && id !in ws && SignalOf(c, tasks, ws).ShouldScaleUp()
    ensures var s, s' := SignalOf(c, tasks, ws), SignalOf(c, tasks, ws[id := NewWorker(now)]);
            && s'.desired == s.desired
            && s'.inputs.serviceable + s'.inputs.starting == s.inputs.serviceable + s.inputs.starting + 1 <= s.desired
            && !s'.ShouldScaleDown()
  {
    var ws' := ws[id := NewWorker(now)];
    assert ServiceableSet(c, ws') == ServiceableSet(c, ws);
    assert StartingSet(c, ws') == StartingSet(c, ws) + {id};
    CardPlus(StartingSet(c, ws), id);
  }

  /** A stopped worker that is restarted is not counted until reconciliation has seen its instance start:
      to the next decision the gap looks as wide as before, so that only the cooldown holds it back. */
  lemma RestartIsNotYetCounted(c: Config, tasks: Tasks, ws: Workers, w: WorkerId, now: Time)
    requires c.Valid() && w in ws && StoppedSpare(ws[w]) && SignalOf(c, tasks, ws).ShouldScaleUp()
    ensures SignalOf(c, tasks, ws[w := Restarted(ws[w], now)]) == SignalOf(c, tasks, ws)
  {
    var ws' := ws[w := Restarted(ws[w], now)];
    assert ServiceableSet(c, ws') == ServiceableSet(c, ws);
    assert StartingSet(c, ws') == StartingSet(c, ws);
    assert DrainingSet(ws') == DrainingSet(ws);
    assert StoppingSet(ws') == StoppingSet(ws);
  }
}
