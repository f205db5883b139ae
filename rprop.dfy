/**
 * The RProp (resilient propagation) stochastic optimiser: every coordinate keeps its own step
 * size in `changes`, which grows while that coordinate's gradient keeps its sign, shrinks when
 * the sign flips, and is clamped to `[minStep, maxStep]`; the parameters then move against the
 * sign of the gradient by that step, optionally combined with standard or Nesterov momentum.
 */
module RPropOptimizer {
  import opened Common

  datatype MomentumType = NoMomentum | Standard | Nesterov

  /** `status` of the optimiser: still running, or `'stopped'` once the epoch budget is spent. */
  datatype Status = Running | Stopped

  /** The gradient of the objective on one batch, as a function of the parameters. */
  type Jacobian = seq<real> -> seq<real>

  /** One batch delivered by the batch iterator: its gradient, whether it closes an epoch, and whether the callback asks to stop. */
  datatype Batch = Batch(jacobian: Jacobian, isBatchEnd: bool, callbackStops: bool)

  ghost predicate PreservesDimension(jac: Jacobian, n: nat)
  {
    forall v: seq<real> :: |v| == n ==> |jac(v)| == n
  }

  /** `np.sign`: the product with its argument is the argument's magnitude, and only 0 has sign 0. */
  function Sign(v: real): (s: real)
    ensures s * v == Abs(v)
    ensures s == 0.0 <==> v == 0.0
    ensures Abs(s) == if v == 0.0 then 0.0 else 1.0
  {
    if v > 0.0 then 1.0 else if v < 0.0 then -1.0 else 0.0
  }

  /** An entry of `changes` after the two masked multiplications, before the clip. */
  function Adapted(change: real, gradProd: real, stepGrow: real, stepShrink: real): real
  {
    if gradProd > 0.0 then change * stepGrow
    else if gradProd < 0.0 then change * stepShrink
    else change
  }

  function Scale(a: real, v: seq<real>): seq<real>
  {
    seq(|v|, i requires 0 <= i < |v| => a * v[i])
  }

  function Add(u: seq<real>, v: seq<real>): seq<real>
    requires |u| == |v|
  {
    seq(|u|, i requires 0 <= i < |u| => u[i] + v[i])
  }

  function Sub(u: seq<real>, v: seq<real>): seq<real>
    requires |u| == |v|
  {
    seq(|u|, i requires 0 <= i < |u| => u[i] - v[i])
  }

  /** `changes * np.sign(jacobian)`: the signed step of every coordinate. */
  function SignedStep(changes: seq<real>, jacobian: seq<real>): seq<real>
    requires |changes| == |jacobian|
  {
    seq(|changes|, i requires 0 <= i < |changes| => changes[i] * Sign(jacobian[i]))
  }

  /**
   * A coordinate whose gradient is zero does not move; every other coordinate moves by exactly
   * its step size, against the sign of its gradient.
   */
  lemma {:induction false} SignedStepMagnitude(changes: seq<real>, jacobian: seq<real>, i: int)
    requires |changes| == |jacobian| && 0 <= i < |changes| && changes[i] >= 0.0
    ensures jacobian[i] == 0.0 ==> SignedStep(changes, jacobian)[i] == 0.0
    ensures jacobian[i] != 0.0 ==> Abs(SignedStep(changes, jacobian)[i]) == changes[i]
    ensures SignedStep(changes, jacobian)[i] * jacobian[i] >= 0.0
  {
    var s := Sign(jacobian[i]);
    assert SignedStep(changes, jacobian)[i] == changes[i] * s;
    assert changes[i] * s * jacobian[i] == changes[i] * Abs(jacobian[i]);
    assert changes[i] * Abs(jacobian[i]) >= 0.0;
    if jacobian[i] > 0.0 {
      assert s == 1.0;
    } else if jacobian[i] < 0.0 {
      assert s == -1.0;
    }
  }

  /** Subtracting two vectors one after the other is subtracting their sum. */
  lemma SubTwice(u: seq<real>, v: seq<real>, w: seq<real>)
    requires |u| == |v| == |w|
    ensures Sub(Sub(u, v), w) == Sub(u, Add(v, w))
  {
  }

  /** `a -= d` on a numpy array, in place. */
  method SubtractInPlace(a: array<real>, d: seq<real>)
    requires a.Length == |d|
    modifies a
    ensures a[..] == Sub(old(a[..]), d)
  {
    var i := 0;
    while i < a.Length
      invariant 0 <= i <= a.Length
      invariant forall j :: 0 <= j < i ==> a[j] == old(a[j]) - d[j]
      invariant forall j :: i <= j < a.Length ==> a[j] == old(a[j])
    {
      a[i] := a[i] - d[i];
      i := i + 1;
    }
  }

  /** What one update reads and writes: the parameters, the step sizes, the last gradient and the last step. */
  datatype State = State(x: seq<real>, changes: seq<real>, jacobian: seq<real>, step: seq<real>)

  /** Every batch's gradient keeps the dimension `n`. */
  ghost predicate KeepDimension(batches: seq<Batch>, n: nat)
  {
    forall k :: 0 <= k < |batches| ==> PreservesDimension(batches[k].jacobian, n)
  }

  /** How many of the first `count` batches close an epoch. */
  function CountBatchEnds(batches: seq<Batch>, count: nat): (c: nat)
    requires count <= |batches|
    ensures c <= count
  {
    if count == 0 then 0 else CountBatchEnds(batches, count - 1) + Indicator(batches[count - 1].isBatchEnd)
  }

  /**
   * Each of the first `count` batches passed both tests of the loop when it was reached from
   * epoch `epoch0`: the callback did not ask to stop, and the epochs counted so far, its own
   * included, stayed below the budget `epochs`.
   */
  ghost predicate Admitted(batches: seq<Batch>, count: nat, epoch0: nat, epochs: nat)
    requires count <= |batches|
  {
    forall k :: 0 <= k < count ==> !batches[k].callbackStops && epoch0 + CountBatchEnds(batches, k + 1) < epochs
  }

  /** A batch that passes both tests extends the admitted prefix by one. */
  lemma AdmitNext(batches: seq<Batch>, count: nat, epoch0: nat, epochs: nat)
    requires count < |batches| && Admitted(batches, count, epoch0, epochs)
    requires !batches[count].callbackStops && epoch0 + CountBatchEnds(batches, count + 1) < epochs
    ensures Admitted(batches, count + 1, epoch0, epochs)
  {
  }

  class RProp {
    const n: nat
    const epochs: nat
    const minStep: real
    const stepShrink: real
    const stepGrow: real
    const maxStep: real
    const momentumType: MomentumType
    const momentum: real

    /** The parameters being optimised: the caller's array, updated in place. */
    var x: array<real>
    /** The per-coordinate step sizes. */
    var changes: array<real>
    /** The gradient seen by the previous update. */
    var jacobian: seq<real>
    /** The last step taken, read by the momentum variants. */
    var step: seq<real>
    var iter: nat
    var epoch: nat
    var status: Status

    ghost predicate Valid()
      reads this`x, this`changes, this`jacobian, this`step
    {
      x.Length == n && changes.Length == n && x != changes && |jacobian| == n && |step| == n
    }

    /** `changes[i]` after one update, from its previous value and the previous and current gradient entries. */
    function NewChange(change: real, previous: real, current: real): (c: real)
      ensures minStep <= maxStep ==> minStep <= c <= maxStep
      ensures previous * current > 0.0 ==> c == Clip(change * stepGrow, minStep, maxStep)
      ensures previous * current < 0.0 ==> c == Clip(change * stepShrink, minStep, maxStep)
      ensures previous * current == 0.0 ==> c == Clip(change, minStep, maxStep)
    {
      Clip(Adapted(change, previous * current, stepGrow, stepShrink), minStep, maxStep)
    }

    /** The point where the gradient is taken: shifted by the momentum term under Nesterov momentum. */
    function EvaluationPoint(x0: seq<real>, step0: seq<real>): seq<real>
      requires |x0| == |step0|
    {
      if momentumType == Nesterov then Sub(x0, Scale(momentum, step0)) else x0
    }

    /** The step stored after an update, from the previous step and the new signed step. */
    function NextStep(step0: seq<real>, step2: seq<real>): seq<real>
      requires |step0| == |step2|
    {
      if momentumType == NoMomentum then step2 else Add(Scale(momentum, step0), step2)
    }

    /** A state whose four vectors all have the dimension of the parameters. */
    predicate Fits(s: State)
    {
      |s.x| == n && |s.changes| == n && |s.jacobian| == n && |s.step| == n
    }

    /**
     * One update as a function of the state: the gradient at the evaluation point, the adapted
     * step sizes, the new step and the parameters moved against it.
     */
    function Next(s: State, jac: Jacobian): (r: State)
      requires Fits(s) && PreservesDimension(jac, n)
      ensures Fits(r)
    {
      var j := jac(EvaluationPoint(s.x, s.step));
      var c := seq(n, i requires 0 <= i < n => NewChange(s.changes[i], s.jacobian[i], j[i]));
      var st := NextStep(s.step, SignedStep(c, j));
      State(Sub(s.x, st), c, j, st)
    }

    /**
     * What one update does: the gradient is taken at the evaluation point, every step size is
     * adapted from its old value and the signs of the two gradients and stays in
     * `[minStep, maxStep]`, the parameters move against the new step, and without momentum
     * every coordinate moves by exactly its step size against the sign of its gradient.
     */
    lemma NextProperties(s: State, jac: Jacobian)
      requires Fits(s) && PreservesDimension(jac, n)
      ensures var r := Next(s, jac);
        && r.jacobian == jac(EvaluationPoint(s.x, s.step))
        && (forall i :: 0 <= i < n ==> r.changes[i] == NewChange(s.changes[i], s.jacobian[i], r.jacobian[i]))
        && (minStep <= maxStep ==> forall i :: 0 <= i < n ==> minStep <= r.changes[i] <= maxStep)
        && r.step == NextStep(s.step, SignedStep(r.changes, r.jacobian))
        && r.x == Sub(s.x, r.step)
        && (momentumType == NoMomentum ==> forall i :: 0 <= i < n ==> r.x[i] == s.x[i] - r.changes[i] * Sign(r.jacobian[i]))
    {
    }

    /** `Next` is the only state with the new gradient, step sizes, step and parameters of an update. */
    lemma NextFromParts(s: State, r: State, jac: Jacobian)
      requires Fits(s) && Fits(r) && PreservesDimension(jac, n)
      requires r.jacobian == jac(EvaluationPoint(s.x, s.step))
      requires forall i :: 0 <= i < n ==> r.changes[i] == NewChange(s.changes[i], s.jacobian[i], r.jacobian[i])
      requires r.step == NextStep(s.step, SignedStep(r.changes, r.jacobian))
      requires r.x == Sub(s.x, r.step)
      ensures r == Next(s, jac)
    {
      var t := Next(s, jac);
      assert r.changes == t.changes;
    }

    /** The state after the updates of the first `count` batches, one after another. */
    function Replay(s: State, batches: seq<Batch>, count: nat): (r: State)
      requires Fits(s) && count <= |batches| && KeepDimension(batches, n)
      ensures Fits(r)
    {
      if count == 0 then s else Next(Replay(s, batches, count - 1), batches[count - 1].jacobian)
    }

    /** Once at least one update has run, every step size lies in `[minStep, maxStep]`. */
    lemma ReplayStepSizesBounded(s: State, batches: seq<Batch>, count: nat)
      requires Fits(s) && 0 < count <= |batches| && KeepDimension(batches, n)
      requires minStep <= maxStep
      ensures forall i :: 0 <= i < n ==> minStep <= Replay(s, batches, count).changes[i] <= maxStep
    {
      NextProperties(Replay(s, batches, count - 1), batches[count - 1].jacobian);
    }

    /** The current state of the optimiser, as a value. */
    ghost function Snapshot(): State
      reads this`x, this`changes, this`jacobian, this`step, x, changes
    {
      State(x[..], changes[..], jacobian, step)
    }

    constructor (x: array<real>, epochs: nat, minStep: real := 1e-6, stepShrink: real := 0.5,
                 stepGrow: real := 1.2, maxStep: real := 1.0,
                 momentumType: MomentumType := NoMomentum, momentum: real := 0.9)
      ensures Valid() && this.x == x && fresh(changes)
      ensures this.epochs == epochs && this.minStep == minStep && this.maxStep == maxStep
      ensures this.stepShrink == stepShrink && this.stepGrow == stepGrow
      ensures this.momentumType == momentumType && this.momentum == momentum
      ensures changes[..] == seq(x.Length, _ => 0.0)
      ensures jacobian == seq(x.Length, _ => 0.0) && step == seq(x.Length, _ => 0.0)
      ensures iter == 0 && epoch == 0 && status == Running
    {
      n := x.Length;
      this.epochs := epochs;
      this.minStep := minStep;
      this.stepShrink := stepShrink;
      this.stepGrow := stepGrow;
      this.maxStep := maxStep;
      this.momentumType := momentumType;
      this.momentum := momentum;
      this.x := x;
      changes := new real[x.Length](_ => 0.0);
      jacobian := seq(x.Length, _ => 0.0);
      step := seq(x.Length, _ => 0.0);
      iter, epoch, status := 0, 0, Running;
    }

    /** The sign-driven adaptation of `changes` followed by the clip to `[minStep, maxStep]`. */
    method AdaptChanges(previous: seq<real>)
      requires Valid() && |previous| == n
      modifies changes
      ensures forall i :: 0 <= i < n ==> changes[i] == NewChange(old(changes[i]), previous[i], jacobian[i])
    {
      var i := 0;
      while i < n
        invariant 0 <= i <= n
        invariant forall j :: 0 <= j < i ==> changes[j] == NewChange(old(changes[j]), previous[j], jacobian[j])
        invariant forall j :: i <= j < n ==> changes[j] == old(changes[j])
      {
        var gradProd := previous[i] * jacobian[i];
        var c := changes[i];
        if gradProd > 0.0 {
          c := c * stepGrow;
        } else if gradProd < 0.0 {
          c := c * stepShrink;
        }
        assert c == Adapted(changes[i], gradProd, stepGrow, stepShrink);
        changes[i] := Clip(c, minStep, maxStep);
        i := i + 1;
      }
    }

    /**
     * The body of the `for batch` loop once the epoch test has passed: the momentum shift,
     * the new gradient, the step-size adaptation, the move of `x` and the bookkeeping.
     */
    method Update(jac: Jacobian)
      requires Valid() && PreservesDimension(jac, n)
      modifies this, x, changes
      ensures Valid() && x == old(x) && changes == old(changes)
      ensures jacobian == jac(EvaluationPoint(old(x[..]), old(step)))
      ensures forall i :: 0 <= i < n ==> changes[i] == NewChange(old(changes[i]), old(jacobian)[i], jacobian[i])
      ensures step == NextStep(old(step), SignedStep(changes[..], jacobian))
      ensures x[..] == Sub(old(x[..]), step)
      ensures iter == old(iter) + 1
      ensures epoch == old(epoch) && status == old(status)
      ensures Snapshot() == Next(old(Snapshot()), jac)
    {
      ghost var start := Snapshot();
      var step1 := Scale(momentum, step);
      if momentumType == Nesterov {
        SubtractInPlace(x, step1);
      }
      ghost var shifted := x[..];
      var previous := jacobian;
      jacobian := jac(x[..]);
      AdaptChanges(previous);
      var step2 := SignedStep(changes[..], jacobian);
      ghost var before := x[..];
      if momentumType == Standard {
        SubtractInPlace(x, Add(step1, step2));
      } else {
        SubtractInPlace(x, step2);
      }
      if momentumType != NoMomentum {
        step := Add(step1, step2);
      } else {
        step := step2;
      }
      iter := iter + 1;
      if momentumType == Nesterov {
        SubTwice(old(x[..]), step1, step2);
      }
      NextFromParts(start, Snapshot(), jac);
    }

    /**
     * The two tests at the head of the `for batch` loop: a stop request from the callback
     * rejects the batch; otherwise a batch that closes an epoch advances `epoch`, and once
     * `epoch` reaches `epochs` the status becomes `Stopped` and the batch is rejected.
     */
    method Admit(batch: Batch) returns (admitted: bool)
      modifies this`epoch, this`status
      ensures epoch == old(epoch) + if batch.callbackStops then 0 else Indicator(batch.isBatchEnd)
      ensures admitted <==> !batch.callbackStops && epoch < epochs
      ensures status == if !batch.callbackStops && epoch >= epochs then Stopped else old(status)
    {
      if batch.callbackStops {
        return false;
      }
      if batch.isBatchEnd {
        epoch := epoch + 1;
      }
      if epoch >= epochs {
        status := Stopped;
        return false;
      }
      return true;
    }

    /** One pass of the `for batch` loop: the two tests, then the update when the batch is admitted. */
    method Step(batch: Batch) returns (admitted: bool)
      requires Valid() && PreservesDimension(batch.jacobian, n)
      modifies this, x, changes
      ensures Valid() && x == old(x) && changes == old(changes)
      ensures epoch == old(epoch) + if batch.callbackStops then 0 else Indicator(batch.isBatchEnd)
      ensures admitted <==> !batch.callbackStops && epoch < epochs
      ensures status == if !batch.callbackStops && epoch >= epochs then Stopped else old(status)
      ensures admitted ==> Snapshot() == Next(old(Snapshot()), batch.jacobian) && iter == old(iter) + 1
      ensures !admitted ==> Snapshot() == old(Snapshot()) && iter == old(iter)
    {
      admitted := Admit(batch);
      if admitted {
        Update(batch.jacobian);
      }
    }

    /**
     * The `for batch` loop: a stop request from the callback ends it, a batch that closes an
     * epoch advances `epoch`, the loop stops with status `Stopped` once `epoch` reaches
     * `epochs`, and otherwise the batch yields one update. Returns the number of updates made:
     * the state is the replay of that many batches, each of which passed both tests, and
     * `epoch` has counted the epoch ends of every batch the loop looked at.
     */
    method Minimize(batches: seq<Batch>) returns (updates: nat)
      requires Valid()
      requires KeepDimension(batches, n)
      modifies this, x, changes
      ensures Valid() && x == old(x) && changes == old(changes)
      ensures updates <= |batches| && iter == old(iter) + updates
      ensures status == Stopped ==> old(status) == Stopped || epoch >= epochs
      ensures updates < |batches| && !batches[updates].callbackStops ==> status == Stopped && epoch >= epochs
      ensures Snapshot() == Replay(old(Snapshot()), batches, updates)
      ensures Admitted(batches, updates, old(epoch), epochs)
      ensures updates == |batches| ==> epoch == old(epoch) + CountBatchEnds(batches, |batches|) && status == old(status)
      ensures updates < |batches| && batches[updates].callbackStops ==>
        epoch == old(epoch) + CountBatchEnds(batches, updates) && status == old(status)
      ensures updates < |batches| && !batches[updates].callbackStops ==>
        epoch == old(epoch) + CountBatchEnds(batches, updates + 1)
    {
      updates := 0;
      while updates < |batches|
        invariant Valid() && x == old(x) && changes == old(changes)
        invariant updates <= |batches| && iter == old(iter) + updates
        invariant status == old(status)
        invariant Snapshot() == Replay(old(Snapshot()), batches, updates)
        invariant epoch == old(epoch) + CountBatchEnds(batches, updates)
        invariant Admitted(batches, updates, old(epoch), epochs)
      {
        var admitted := Step(batches[updates]);
        if !admitted {
          break;
        }
        AdmitNext(batches, updates, old(epoch), epochs);
        updates := updates + 1;
      }
    }
  }
}
