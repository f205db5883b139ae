/**
 * What the two SMO engines share (the state of the `SMO` base class is repeated in each
 * engine's class): the `sys.float_info.max` sentinel of the threshold rescans, the dot product
 * that recomputes a residual, the extremum properties the rescans establish, and the
 * full-sweep / active-set-sweep state machine of the outer loop.
 */
module SmoBase {

  /**
   * The exception the engines raise on their own: `Exception('unexpected status')` when a
   * threshold rescan after a step finds no index for `b_up` or `b_low`.
   */
  datatype SmoException = UnexpectedStatus

  /** The outcome of an operation that may raise: the value it returns or the exception. */
  datatype Result<T> = Success(value: T) | Failure(error: SmoException)

  /** `sys.float_info.max`, the exact value of the largest finite double. */
  const FloatMax: real := 179769313486231570814527423731704356798070567525844996598917476803157260780028538760589558632766878171540458953514382464234321326889464182768467546703537516986049910576551282076245490090389328944075868508455133942304583236903222948165808559332123348274797826204144723168738177180919299881250404026184124858368.0

  /** A set of indices is empty or has a member: what lets a `for i in s` loop pick its next index. */
  lemma EmptyOrMember(s: set<int>)
    ensures s == {} || exists x :: x in s
  {
    if forall x :: x !in s {
      assert s == {};
    }
  }

  /** The dot product `u.dot(v)`, summed from the front. */
  function Dot(u: seq<real>, v: seq<real>): real
    requires |u| == |v|
    decreases |u|
  {
    if |u| == 0 then 0.0 else Dot(u[..|u| - 1], v[..|v| - 1]) + u[|u| - 1] * v[|v| - 1]
  }

  /**
   * Changing one entry of `u` changes the dot product by that entry's change times the
   * matching entry of `v`: the fact behind every incremental update of the error cache.
   */
  lemma {:induction false} DotUpdate(u: seq<real>, v: seq<real>, k: int, x: real)
    requires |u| == |v| && 0 <= k < |u|
    ensures Dot(u[k := x], v) == Dot(u, v) + (x - u[k]) * v[k]
    decreases |u|
  {
    var m := |u| - 1;
    var w := u[k := x];
    if k == m {
      assert w[..m] == u[..m];
    } else {
      assert w[..m] == u[..m][k := x];
      DotUpdate(u[..m], v[..m], k, x);
    }
  }

  /** Extending the summed prefix by one entry adds that entry's product. */
  lemma DotPrefix(u: seq<real>, v: seq<real>, j: int)
    requires |u| == |v| && 0 <= j < |u|
    ensures Dot(u[..j + 1], v[..j + 1]) == Dot(u[..j], v[..j]) + u[j] * v[j]
  {
    assert u[..j + 1][..j] == u[..j];
    assert v[..j + 1][..j] == v[..j];
  }

  /** Writing `a1` at `i1` and then `a2` at `i2` moves the dot product by the two weighted changes. */
  lemma {:induction false} DotAfterPair(u: seq<real>, v: seq<real>, i1: int, i2: int, a1: real, a2: real)
    requires |u| == |v| && 0 <= i1 < |u| && 0 <= i2 < |u| && i1 != i2
    ensures Dot(u[i1 := a1][i2 := a2], v) == Dot(u, v) + (a1 - u[i1]) * v[i1] + (a2 - u[i2]) * v[i2]
  {
    DotUpdate(u, v, i1, a1);
    DotUpdate(u[i1 := a1], v, i2, a2);
  }

  /**
   * How much a step on the pair `(i1, i2)` whose weighted multiplier changes are `d1` and
   * `d2` moves the error of example `i`: `d1*K[i1][i] + d2*K[i2][i]`.
   */
  function Shift(K: seq<seq<real>>, i1: int, i2: int, d1: real, d2: real, i: int): real
    requires 0 <= i1 < |K| && 0 <= i2 < |K| && 0 <= i < |K[i1]| && 0 <= i < |K[i2]|
  {
    d1 * K[i1][i] + d2 * K[i2][i]
  }

  /**
   * The error cache after a step on the pair `(i1, i2)`: the entries of the free indices
   * and of `i1`, `i2` move by their `Shift`, every other entry stays.
   */
  function CacheAfterStep(errors: seq<real>, K: seq<seq<real>>, free: set<int>, i1: int, i2: int, d1: real, d2: real): (r: seq<real>)
    requires 0 <= i1 < |K| && 0 <= i2 < |K| && |K[i1]| == |errors| && |K[i2]| == |errors|
    ensures |r| == |errors|
    ensures forall i :: 0 <= i < |errors| && i !in free && i != i1 && i != i2 ==> r[i] == errors[i]
  {
    seq(|errors|, i requires 0 <= i < |errors| =>
      errors[i] + (if i in free || i == i1 || i == i2 then Shift(K, i1, i2, d1, d2, i) else 0.0))
  }

  /**
   * The change of the dual objective when the second multiplier of a pair moves from
   * `current` to `x` along the constraint line: slope `g`, curvature `-eta`.
   */
  function Gain(x: real, current: real, g: real, eta: real): real
  {
    g * (x - current) - eta / 2.0 * (x - current) * (x - current)
  }

  /** With `g = eta*(t - current)` the gain is a downward parabola with its top at `t`. */
  lemma GainAroundTop(x: real, current: real, g: real, eta: real)
    requires eta > 0.0
    ensures Gain(x, current, g, eta) == eta / 2.0 * ((g / eta) * (g / eta) - (x - (current + g / eta)) * (x - (current + g / eta)))
  {
    var s := g / eta;
    assert g == eta * s;
    var d := x - current;
    calc {
      Gain(x, current, g, eta);
      eta * s * d - eta / 2.0 * d * d;
      eta / 2.0 * (s * s - (d - s) * (d - s));
    }
  }

  /** Of two points on the same side of `t`, the nearer one is no further from `t` in square. */
  lemma NearerSquare(a: real, x: real, t: real)
    requires (t <= a <= x) || (x <= a <= t)
    ensures (a - t) * (a - t) <= (x - t) * (x - t)
  {
    var u, v := if a >= t then a - t else t - a, if x >= t then x - t else t - x;
    assert 0.0 <= u <= v;
    assert u * u <= u * v <= v * v;
  }

  /**
   * `hi`, attained at `idx`, is the largest of `vals` over `S`, as a scan that starts from
   * `-sys.float_info.max` with index -1 and keeps strictly larger values leaves it: when no
   * value of `S` exceeds the sentinel the index is still -1.
   */
  ghost predicate IsMaxOver(hi: real, idx: int, S: set<int>, vals: seq<real>)
    requires forall j :: j in S ==> 0 <= j < |vals|
  {
    && (forall j :: j in S ==> vals[j] <= hi)
    && (if idx == -1 then hi == -FloatMax else idx in S && hi == vals[idx])
  }

  /** The mirror image of `IsMaxOver`, from `sys.float_info.max` down. */
  ghost predicate IsMinOver(lo: real, idx: int, S: set<int>, vals: seq<real>)
    requires forall j :: j in S ==> 0 <= j < |vals|
  {
    && (forall j :: j in S ==> lo <= vals[j])
    && (if idx == -1 then lo == FloatMax else idx in S && lo == vals[idx])
  }

  /**
   * The outer loop's mode after a sweep: a full sweep is always followed by an active-set
   * sweep, and an active-set sweep that changed nothing by a full sweep.
   */
  function NextExamineAll(examineAll: bool, numChanged: nat): (r: bool)
    ensures examineAll ==> !r
    ensures !examineAll ==> (r <==> numChanged == 0)
  {
    if examineAll then false else numChanged == 0
  }

  /** The outer loop's guard: `num_changed > 0 or examine_all`. */
  predicate SweepAgain(numChanged: nat, examineAll: bool)
  {
    numChanged > 0 || examineAll
  }

  /**
   * The outer loop ends after a sweep exactly when that sweep examined every index and
   * changed nothing: the only way out is a full sweep that finds no KKT violation.
   */
  lemma {:induction false} StopsOnlyAfterQuietFullSweep(examineAll: bool, numChanged: nat)
    ensures !SweepAgain(numChanged, NextExamineAll(examineAll, numChanged)) <==> examineAll && numChanged == 0
  {
    if examineAll {
      assert !NextExamineAll(examineAll, numChanged);
    } else {
      assert numChanged == 0 ==> NextExamineAll(examineAll, numChanged);
    }
  }
}
