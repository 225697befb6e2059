/** Desired capacity from queue depth (scheduler/scaling.py). */
module Scaling {

  datatype Inputs = Inputs(
    queueDepth: nat, serviceable: nat, starting: nat, draining: nat, stopping: nat)

  datatype Signal = Signal(inputs: Inputs, desired: int) {
    predicate InProgress() {
      inputs.starting > 0 || inputs.draining > 0 || inputs.stopping > 0
    }

    predicate ShouldScaleUp() {
      inputs.serviceable + inputs.starting < desired
    }

    predicate ShouldScaleDown() {
      inputs.serviceable > desired && !InProgress()
    }
  }

  function Max(a: int, b: int): int { if a >= b then a else b }

  function Min(a: int, b: int): int { if a <= b then a else b }

  /** `math.ceil(q / t)` for a non-negative numerator. */
  function CeilDiv(q: nat, t: nat): nat
    requires t > 0
  {
    (q + t - 1) / t
  }

  function ComputeSignal(inputs: Inputs, target: nat, minWorkers: nat, maxWorkers: nat): Signal
    requires target > 0
  {
    var queueDesired := if inputs.queueDepth == 0 then 0 else CeilDiv(inputs.queueDepth, target);
    var floor := Max(queueDesired, if inputs.queueDepth > 0 then 1 else 0);
    Signal(inputs, Max(minWorkers, Min(floor, maxWorkers)))
  }

  /** n workers with `target` slots each hold the whole queue. */
  predicate Covers(n: int, target: nat, depth: nat) {
    n * target >= depth
  }

  lemma CeilDivIsLeastCover(q: nat, t: nat)
    requires t > 0
    ensures Covers(CeilDiv(q, t), t, q)
    ensures forall n: int | n < CeilDiv(q, t) :: !Covers(n, t, q)
  {
    var c := CeilDiv(q, t);
    var r := (q + t - 1) % t;
    assert q + t - 1 == c * t + r;
    forall n: int | n < c
      ensures !Covers(n, t, q)
    {
      assert (c - n) * t >= t by { MulAtLeast(c - n, t); }
      assert n * t == c * t - (c - n) * t;
    }
  }

  lemma MulAtLeast(k: int, t: nat)
    requires k >= 1
    ensures k * t >= t
  {
    assert k * t == t + (k - 1) * t;
    assert (k - 1) * t >= 0;
  }

  lemma CoverIsMonotone(m: int, n: int, t: nat, q: nat)
    requires m <= n && Covers(m, t, q)
    ensures Covers(n, t, q)
  {
    assert n * t == m * t + (n - m) * t;
    assert (n - m) * t >= 0;
  }

  /** The autoscaler's target is the least fleet size within the configured bounds that covers the
      queue, or the upper bound when no allowed size does. */
  lemma DesiredIsLeastAllowedCover(inputs: Inputs, target: nat, minWorkers: nat, maxWorkers: nat)
    requires target > 0 && minWorkers <= maxWorkers
    ensures var d := ComputeSignal(inputs, target, minWorkers, maxWorkers).desired;
            && minWorkers <= d <= maxWorkers
            && (Covers(d, target, inputs.queueDepth) || d == maxWorkers)
            && (forall n: int | minWorkers <= n < d :: !Covers(n, target, inputs.queueDepth))
  {
    var q := inputs.queueDepth;
    var c := CeilDiv(q, target);
    var d := ComputeSignal(inputs, target, minWorkers, maxWorkers).desired;
    CeilDivIsLeastCover(q, target);
    if q > 0 {
      assert !Covers(0, target, q);
      if c <= 0 { CoverIsMonotone(c, 0, target, q); }
    }
    if d < maxWorkers {
      var k := if q == 0 then 0 else c;
      assert d >= k;
      CoverIsMonotone(k, d, target, q);
    }
  }

  /** The threshold at which one more worker is wanted. */
  lemma DesiredThreshold(inputs: Inputs, target: nat, minWorkers: nat, maxWorkers: nat, d: int)
    requires target > 0 && minWorkers < d <= maxWorkers
    ensures ComputeSignal(inputs, target, minWorkers, maxWorkers).desired >= d
            <==> inputs.queueDepth >= (d - 1) * target + 1
  {
    var q := inputs.queueDepth;
    var desired := ComputeSignal(inputs, target, minWorkers, maxWorkers).desired;
    DesiredIsLeastAllowedCover(inputs, target, minWorkers, maxWorkers);
    if desired >= d {
      assert !Covers(d - 1, target, q);
    } else {
      CoverIsMonotone(desired, d - 1, target, q);
    }
  }
}
