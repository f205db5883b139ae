/**
 * Platt's sequential minimal optimisation for the support vector classifier, with the
 * improvements of Keerthi et al.: five index sets keyed on multiplier value and label, the
 * threshold pair `b_up` / `b_low` with the indices that attain them, and an error cache kept
 * up to date incrementally for the free multipliers.
 */
module Svc {
  import opened Common
  import opened SmoBase

  /** Multipliers closer than this fraction of `C` to a bound are snapped onto the bound. */
  const SnapFraction: real := 1e-8
  /** The tolerance of the negligible-change test and of the endpoint comparison for `eta <= 0`. */
  const Precision: real := 1e-12

  predicate IsLabel(v: real)
  {
    v == 1.0 || v == -1.0
  }

  /** What the engine assumes of its inputs: an n×n symmetric kernel matrix, ±1 labels, `C > 0`. */
  ghost predicate WellFormedInputs(y: seq<real>, K: seq<seq<real>>, C: real)
  {
    && |K| == |y|
    && (forall i :: 0 <= i < |K| ==> |K[i]| == |y|)
    && (forall i, j :: 0 <= i < |y| && 0 <= j < |y| ==> K[i][j] == K[j][i])
    && (forall i :: 0 <= i < |y| ==> IsLabel(y[i]))
    && C > 0.0
  }

  // The five index sets, as conditions on one multiplier and its label.

  /** I0: `0 < alpha < C`. */
  predicate InI0(a: real, C: real) { 0.0 < a < C }
  /** I1: `y = +1, alpha = 0`. */
  predicate InI1(a: real, y: real) { y == 1.0 && a == 0.0 }
  /** I2: `y = -1, alpha = C`. */
  predicate InI2(a: real, y: real, C: real) { y == -1.0 && a == C }
  /** I3: `y = +1, alpha = C`. */
  predicate InI3(a: real, y: real, C: real) { y == 1.0 && a == C }
  /** I4: `y = -1, alpha = 0`. */
  predicate InI4(a: real, y: real) { y == -1.0 && a == 0.0 }

  /** A multiplier in the box with a ±1 label belongs to exactly one of the five sets. */
  lemma CategoriesPartition(a: real, y: real, C: real)
    requires C > 0.0 && 0.0 <= a <= C && IsLabel(y)
    ensures Indicator(InI0(a, C)) + Indicator(InI1(a, y)) + Indicator(InI2(a, y, C))
          + Indicator(InI3(a, y, C)) + Indicator(InI4(a, y)) == 1
  {
  }

  /** The first index holding `v`: `next(i for i in range(len(X)) if y[i] == v)`. */
  function FirstIndex(s: seq<real>, v: real): (k: nat)
    requires v in s
    ensures k < |s| && s[k] == v
    ensures forall j :: 0 <= j < k ==> s[j] != v
  {
    if s[0] == v then 0 else 1 + FirstIndex(s[1..], v)
  }

  /**
   * The bounds `L`, `H` on the new `alpha2` (equations 13 and 14 of Platt's paper): for any
   * pair of multipliers in the box they satisfy `0 <= L <= H <= C`.
   */
  function PairBounds(alpha1: real, alpha2: real, y1: real, y2: real, C: real): (lh: (real, real))
    requires 0.0 <= alpha1 <= C && 0.0 <= alpha2 <= C
    ensures 0.0 <= lh.0 <= lh.1 <= C
  {
    if y1 != y2 then (Max(0.0, alpha2 - alpha1), Min(C, C + alpha2 - alpha1))
    else (Max(0.0, alpha2 + alpha1 - C), Min(C, alpha2 + alpha1))
  }

  /** The new `alpha1` from the new `alpha2` along the equality constraint (equation 18). */
  function PairedAlpha1(alpha1: real, alpha2: real, a2: real, s: real): real
  {
    alpha1 + s * (alpha2 - a2)
  }

  /**
   * Any `a2` in `[L, H]` keeps the paired `a1` in the box `[0, C]` and keeps
   * `y1*a1 + y2*a2` equal to `y1*alpha1 + y2*alpha2`.
   */
  lemma {:induction false} PairedAlpha1Feasible(alpha1: real, alpha2: real, y1: real, y2: real, C: real, a2: real)
    requires IsLabel(y1) && IsLabel(y2) && 0.0 <= alpha1 <= C && 0.0 <= alpha2 <= C
    requires PairBounds(alpha1, alpha2, y1, y2, C).0 <= a2 <= PairBounds(alpha1, alpha2, y1, y2, C).1
    ensures 0.0 <= PairedAlpha1(alpha1, alpha2, a2, y1 * y2) <= C
    ensures y1 * PairedAlpha1(alpha1, alpha2, a2, y1 * y2) + y2 * a2 == y1 * alpha1 + y2 * alpha2
  {
    var a1 := PairedAlpha1(alpha1, alpha2, a2, y1 * y2);
    if y1 != y2 {
      assert y1 * y2 == -1.0;
      assert a1 == alpha1 - alpha2 + a2;
      assert y2 == -y1;
    } else {
      assert y1 * y2 == 1.0;
      assert a1 == alpha1 + alpha2 - a2;
    }
  }

  /**
   * The new `alpha2`: when `eta > 0` the minimum of the objective along the constraint line,
   * clipped to `[L, H]` (equations 16 and 17); otherwise the endpoint whose objective term is
   * larger by more than 1e-12, and the old value on a tie.
   */
  function NewAlpha2(alpha2: real, y2: real, E1: real, E2: real, eta: real, L: real, H: real): (a2: real)
    requires L <= H
    ensures eta > 0.0 ==> L <= a2 <= H
    ensures eta > 0.0 && L <= alpha2 + y2 * (E1 - E2) / eta <= H ==> a2 == alpha2 + y2 * (E1 - E2) / eta
    ensures eta <= 0.0 ==> a2 == L || a2 == H || a2 == alpha2
    ensures eta <= 0.0 && a2 != alpha2 ==>
              || (a2 == L && y2 * (E1 - E2) * L > y2 * (E1 - E2) * H + Precision)
              || (a2 == H && y2 * (E1 - E2) * L < y2 * (E1 - E2) * H - Precision)
  {
    if eta > 0.0 then Clip(alpha2 + y2 * (E1 - E2) / eta, L, H)
    else
      var lObj := y2 * (E1 - E2) * L;
      var hObj := y2 * (E1 - E2) * H;
      if lObj > hObj + Precision then L
      else if lObj < hObj - Precision then H
      else alpha2
  }

  /**
   * The new `alpha2` is the best point of `[L, H]` for the dual objective, whose slope along
   * the constraint line is `y2*(E1 - E2)` and whose curvature is `-eta`: for `eta > 0` the
   * clipped minimum of equation 16 is the point of the interval nearest the top of the
   * parabola, and for `eta = 0` an endpoint taken by the comparison beats every other point.
   */
  lemma {:induction false} NewAlpha2Maximises(alpha2: real, y2: real, E1: real, E2: real, eta: real, L: real, H: real, x: real)
    requires L <= x <= H
    requires eta > 0.0 || (eta == 0.0 && NewAlpha2(alpha2, y2, E1, E2, eta, L, H) != alpha2)
    ensures Gain(x, alpha2, y2 * (E1 - E2), eta) <= Gain(NewAlpha2(alpha2, y2, E1, E2, eta, L, H), alpha2, y2 * (E1 - E2), eta)
  {
    var g := y2 * (E1 - E2);
    var a := NewAlpha2(alpha2, y2, E1, E2, eta, L, H);
    if eta > 0.0 {
      var t := alpha2 + g / eta;
      assert (t <= a <= x) || (x <= a <= t) || a == t;
      NearerSquare(a, x, t);
      GainAroundTop(x, alpha2, g, eta);
      GainAroundTop(a, alpha2, g, eta);
    } else {
      assert Gain(x, alpha2, g, eta) == g * (x - alpha2);
      assert Gain(a, alpha2, g, eta) == g * (a - alpha2);
      assert g * x <= Max(g * L, g * H) by {
        if g >= 0.0 {
          assert g * x <= g * H;
        } else {
          assert g * x <= g * L;
        }
      }
    }
  }

  /** The change of `alpha2` is too small to count as progress. */
  predicate Negligible(a2: real, alpha2: real)
  {
    Abs(a2 - alpha2) < Precision * (a2 + alpha2 + Precision)
  }

  /** The two multipliers after a step, before the precision snap. */
  datatype Pair = Pair(a1: real, a2: real)

  /**
   * The analytic solution of the two-multiplier subproblem, before the precision snap:
   * `None` when the box leaves no room (`L == H`) or the change of `alpha2` is negligible;
   * otherwise both new multipliers lie in the box, `alpha2` really moves, and the equality
   * constraint's share `y1*a1 + y2*a2` is kept.
   */
  function SolvePair(alpha1: real, alpha2: real, y1: real, y2: real, E1: real, E2: real,
                     k11: real, k22: real, k12: real, C: real): (r: Option<Pair>)
    requires IsLabel(y1) && IsLabel(y2) && 0.0 <= alpha1 <= C && 0.0 <= alpha2 <= C
    ensures var (L, H) := PairBounds(alpha1, alpha2, y1, y2, C);
      r.None? <==> L == H || Negligible(NewAlpha2(alpha2, y2, E1, E2, k11 + k22 - 2.0 * k12, L, H), alpha2)
    ensures r.Some? ==> 0.0 <= r.value.a1 <= C && 0.0 <= r.value.a2 <= C
    ensures r.Some? ==> PairBounds(alpha1, alpha2, y1, y2, C).0 <= r.value.a2 <= PairBounds(alpha1, alpha2, y1, y2, C).1
    ensures r.Some? ==> r.value.a2 != alpha2
    ensures r.Some? ==> y1 * r.value.a1 + y2 * r.value.a2 == y1 * alpha1 + y2 * alpha2
  {
    var (L, H) := PairBounds(alpha1, alpha2, y1, y2, C);
    if L == H then None
    else
      var eta := k11 + k22 - 2.0 * k12;
      var a2 := NewAlpha2(alpha2, y2, E1, E2, eta, L, H);
      if Negligible(a2, alpha2) then None
      else
        assert a2 != alpha2;
        PairedAlpha1Feasible(alpha1, alpha2, y1, y2, C, a2);
        Some(Pair(PairedAlpha1(alpha1, alpha2, a2, y1 * y2), a2))
  }

  /**
   * The precision guard: a multiplier above `C - 1e-8*C` becomes `C`, one below `1e-8*C`
   * becomes 0. A multiplier in the box stays in the box and moves by less than `1e-8*C`.
   */
  function SnapToBounds(a: real, C: real): (r: real)
    requires C > 0.0
    ensures 0.0 <= a <= C ==> 0.0 <= r <= C && Abs(r - a) < SnapFraction * C
    ensures r == a || r == 0.0 || r == C
    ensures a > C - SnapFraction * C ==> r == C
    ensures a < SnapFraction * C && a <= C - SnapFraction * C ==> r == 0.0
    ensures SnapFraction * C <= a <= C - SnapFraction * C ==> r == a
  {
    if a > C - SnapFraction * C then C
    else if a < SnapFraction * C then 0.0
    else a
  }

  function Times(u: seq<real>, v: seq<real>): seq<real>
    requires |u| == |v|
  {
    seq(|u|, j requires 0 <= j < |u| => u[j] * v[j])
  }

  /** The residual of example `i` recomputed from the multipliers: `(alphas * y).dot(K[i]) - y[i]`. */
  function Residual(alphas: seq<real>, y: seq<real>, K: seq<seq<real>>, i: int): real
    requires |alphas| == |y| == |K| && 0 <= i < |K| && |K[i]| == |y|
  {
    Dot(Times(alphas, y), K[i]) - y[i]
  }

  /**
   * When only the multipliers at `i1` and `i2` change, the residual of any example `i` changes
   * by the two deltas weighted by the labels and the kernel entries `K[i1][i]`, `K[i2][i]`:
   * exactly the increment the error cache applies.
   */
  lemma {:induction false} ResidualAfterPair(alphas: seq<real>, y: seq<real>, K: seq<seq<real>>,
                                             i1: int, i2: int, a1: real, a2: real, i: int)
    requires |alphas| == |y| == |K| && 0 <= i < |K| && |K[i]| == |y|
    requires 0 <= i1 < |y| && 0 <= i2 < |y| && i1 != i2
    requires |K[i1]| == |y| && |K[i2]| == |y| && K[i][i1] == K[i1][i] && K[i][i2] == K[i2][i]
    ensures Residual(alphas[i1 := a1][i2 := a2], y, K, i)
         == Residual(alphas, y, K, i) + y[i1] * (a1 - alphas[i1]) * K[i1][i] + y[i2] * (a2 - alphas[i2]) * K[i2][i]
  {
    var u := Times(alphas, y);
    TimesAfterPair(alphas, y, i1, i2, a1, a2);
    DotAfterPair(u, K[i], i1, i2, a1 * y[i1], a2 * y[i2]);
    WeightedDelta(K[i][i1], a1, alphas[i1], y[i1]);
    WeightedDelta(K[i][i2], a2, alphas[i2], y[i2]);
  }

  lemma TimesAfterPair(alphas: seq<real>, y: seq<real>, i1: int, i2: int, a1: real, a2: real)
    requires |alphas| == |y| && 0 <= i1 < |y| && 0 <= i2 < |y| && i1 != i2
    ensures Times(alphas[i1 := a1][i2 := a2], y) == Times(alphas, y)[i1 := a1 * y[i1]][i2 := a2 * y[i2]]
  {
    var w := Times(alphas[i1 := a1][i2 := a2], y);
    var v := Times(alphas, y)[i1 := a1 * y[i1]][i2 := a2 * y[i2]];
    assert forall j :: 0 <= j < |w| ==> w[j] == v[j];
  }

  lemma WeightedDelta(k: real, a: real, alpha: real, y: real)
    ensures k * (a * y - alpha * y) == y * (a - alpha) * k
  {
  }

  /**
   * A cache entry that held the exact residual before a step holds the exact residual of the
   * unsnapped pair after it: the incremental update agrees with recomputation.
   */
  lemma CacheAfterStepIsResidual(alphas: seq<real>, y: seq<real>, K: seq<seq<real>>, errors: seq<real>,
                                 free: set<int>, i1: int, i2: int, a1: real, a2: real, i: int)
    requires WellFormedInputs(y, K, 1.0) && |alphas| == |y| == |errors|
    requires 0 <= i1 < |y| && 0 <= i2 < |y| && i1 != i2 && 0 <= i < |y| && (i in free || i == i1 || i == i2)
    requires errors[i] == Residual(alphas, y, K, i)
    ensures CacheAfterStep(errors, K, free, i1, i2, Delta(y[i1], a1, alphas[i1]), Delta(y[i2], a2, alphas[i2]))[i]
         == Residual(alphas[i1 := a1][i2 := a2], y, K, i)
  {
    ResidualAfterPair(alphas, y, K, i1, i2, a1, a2, i);
  }

  /** The weighted change `y * (a - alpha)` of one multiplier, as the error cache applies it. */
  function Delta(y: real, a: real, alpha: real): real
  {
    y * (a - alpha)
  }

  /**
   * The equality constraint `sum(y * alphas)`: a step that keeps `y1*a1 + y2*a2` leaves it
   * unchanged before the precision snap, and the snap moves it by less than `2e-8*C`.
   */
  lemma {:induction false} EqualityConstraintDrift(alphas: seq<real>, y: seq<real>, i1: int, i2: int, p: Pair, C: real)
    requires |alphas| == |y| && 0 <= i1 < |y| && 0 <= i2 < |y| && i1 != i2
    requires IsLabel(y[i1]) && IsLabel(y[i2]) && C > 0.0
    requires 0.0 <= p.a1 <= C && 0.0 <= p.a2 <= C
    requires y[i1] * p.a1 + y[i2] * p.a2 == y[i1] * alphas[i1] + y[i2] * alphas[i2]
    ensures Dot(alphas[i1 := p.a1][i2 := p.a2], y) == Dot(alphas, y)
    ensures Abs(Dot(alphas[i1 := SnapToBounds(p.a1, C)][i2 := SnapToBounds(p.a2, C)], y) - Dot(alphas, y))
          < 2.0 * SnapFraction * C
  {
    var s1, s2 := SnapToBounds(p.a1, C), SnapToBounds(p.a2, C);
    DotAfterPair(alphas, y, i1, i2, p.a1, p.a2);
    DotAfterPair(alphas, y, i1, i2, s1, s2);
    assert y[i1] * (s1 - alphas[i1]) + y[i2] * (s2 - alphas[i2]) == y[i1] * (s1 - p.a1) + y[i2] * (s2 - p.a2);
    LabelKeepsMagnitude(y[i1], s1 - p.a1);
    LabelKeepsMagnitude(y[i2], s2 - p.a2);
  }

  /** Multiplying by a label keeps the magnitude. */
  lemma LabelKeepsMagnitude(y: real, d: real)
    requires IsLabel(y)
    ensures Abs(y * d) == Abs(d)
  {
    if y == -1.0 {
      assert y * d == -d;
    }
  }

  /**
   * The KKT test of `_examine_example` and the choice of the partner index. `free` says that
   * `i2` is in I0, `lowSide` that it is in I1 or I2 (it may be paired against `b_low`), and
   * `upSide` that it is in I3 or I4 (against `b_up`). `None` when neither gap exceeds `2*tol`;
   * otherwise an index whose gap does, and for a free `i2` the one with the larger gap.
   */
  function SelectPartner(free: bool, lowSide: bool, upSide: bool, e2: real, bUp: real, bLow: real,
                         bUpIdx: int, bLowIdx: int, tol: real): (r: Option<int>)
    ensures r.None? <==> !((free || lowSide) && bLow - e2 > 2.0 * tol) && !((free || upSide) && e2 - bUp > 2.0 * tol)
    ensures r.Some? ==> (r.value == bLowIdx && bLow - e2 > 2.0 * tol) || (r.value == bUpIdx && e2 - bUp > 2.0 * tol)
    ensures r.Some? && free ==> r.value == if bLow - e2 > e2 - bUp then bLowIdx else bUpIdx
  {
    var lowViolated := (free || lowSide) && bLow - e2 > 2.0 * tol;
    var upViolated := (free || upSide) && e2 - bUp > 2.0 * tol;
    if !lowViolated && !upViolated then None
    else if free then Some(if bLow - e2 > e2 - bUp then bLowIdx else bUpIdx)
    else if upViolated then Some(bUpIdx)
    else Some(bLowIdx)
  }

  class SmoClassifier {
    const n: nat
    const y: seq<real>
    const K: seq<seq<real>>
    const C: real
    const tol: real

    /** The Lagrange multipliers, one per example. */
    const alphas: array<real>
    /** The error cache, one entry per example. */
    const errors: array<real>

    /** `{i : 0 < alphas[i] < C}` */
    var I0: set<int>
    /** `{i : y[i] = +1, alphas[i] = 0}` */
    var I1: set<int>
    /** `{i : y[i] = -1, alphas[i] = C}` */
    var I2: set<int>
    /** `{i : y[i] = +1, alphas[i] = C}` */
    var I3: set<int>
    /** `{i : y[i] = -1, alphas[i] = 0}` */
    var I4: set<int>

    var bUp: real
    var bLow: real
    var bUpIdx: int
    var bLowIdx: int
    /** The bias, set when the outer loop ends. */
    var b: real

    /** The inputs and the arrays: well-formed inputs, one multiplier and one cache entry per example. */
    ghost predicate Inputs()
    {
      && WellFormedInputs(y, K, C) && n == |y|
      && alphas.Length == n && errors.Length == n && alphas != errors
    }

    /** Every index set holds example indices only. */
    ghost predicate SetsInRange()
      reads this`I0, this`I1, this`I2, this`I3, this`I4
    {
      forall i :: i in I0 || i in I1 || i in I2 || i in I3 || i in I4 ==> 0 <= i < n
    }

    /** The shape of the state: index sets within range, threshold indices valid. */
    ghost predicate Shape()
      reads this`I0, this`I1, this`I2, this`I3, this`I4, this`bUpIdx, this`bLowIdx
    {
      Inputs() && SetsInRange() && 0 <= bUpIdx < n && 0 <= bLowIdx < n
    }

    /** Index `i` sits in exactly the sets its multiplier and label call for. */
    ghost predicate Categorized(i: int)
      reads this`I0, this`I1, this`I2, this`I3, this`I4, alphas
      requires 0 <= i < alphas.Length && i < |y|
    {
      && (i in I0 <==> InI0(alphas[i], C))
      && (i in I1 <==> InI1(alphas[i], y[i]))
      && (i in I2 <==> InI2(alphas[i], y[i], C))
      && (i in I3 <==> InI3(alphas[i], y[i], C))
      && (i in I4 <==> InI4(alphas[i], y[i]))
    }

    /** Every multiplier lies in the box `[0, C]`. */
    ghost predicate Boxed()
      reads alphas
    {
      Inputs() && forall i :: 0 <= i < n ==> 0.0 <= alphas[i] <= C
    }

    /** The multipliers are boxed and every index is categorized. */
    ghost predicate Consistent()
      reads this`I0, this`I1, this`I2, this`I3, this`I4, alphas
    {
      Boxed() && forall i :: 0 <= i < n ==> Categorized(i)
    }

    /** The invariant kept between steps. */
    ghost predicate Valid()
      reads this`I0, this`I1, this`I2, this`I3, this`I4, this`bUpIdx, this`bLowIdx, alphas
    {
      Shape() && Consistent()
    }

    /** Index `i` of a step joins the `b_low` candidates when it is outside I0 and in I3 or I4. */
    ghost function LowCandidate(i: int): set<int>
      reads this`I0, this`I3, this`I4
    {
      if i !in I0 && (i in I3 || i in I4) then {i} else {}
    }

    /** Index `i` of a step joins the `b_up` candidates when it is outside I0, I3 and I4. */
    ghost function UpCandidate(i: int): set<int>
      reads this`I0, this`I3, this`I4
    {
      if i !in I0 && !(i in I3 || i in I4) then {i} else {}
    }

    /** The candidates for `b_low` after a step: I0, and `i1`, `i2` when they are in I3 or I4. */
    ghost function LowCandidates(i1: int, i2: int): set<int>
      reads this`I0, this`I3, this`I4
    {
      I0 + LowCandidate(i1) + LowCandidate(i2)
    }

    /** The candidates for `b_up` after a step: I0, and `i1`, `i2` when they are in neither I3 nor I4. */
    ghost function UpCandidates(i1: int, i2: int): set<int>
      reads this`I0, this`I3, this`I4
    {
      I0 + UpCandidate(i1) + UpCandidate(i2)
    }

    /** The analytic step the current state calls for on the pair `(i1, i2)`. */
    ghost function PairStep(i1: int, i2: int): Option<Pair>
      reads this`I0, this`I1, this`I2, this`I3, this`I4, this`bUpIdx, this`bLowIdx, alphas, errors
      requires Valid() && 0 <= i1 < n && 0 <= i2 < n
    {
      SolvePair(alphas[i1], alphas[i2], y[i1], y[i2], errors[i1], errors[i2], K[i1][i1], K[i2][i2], K[i1][i2], C)
    }

    constructor (y: seq<real>, K: seq<seq<real>>, C: real, tol: real)
      requires WellFormedInputs(y, K, C) && 1.0 in y && -1.0 in y
      ensures Valid() && fresh(alphas) && fresh(errors)
      ensures this.y == y && this.K == K && this.C == C && this.tol == tol
      ensures alphas[..] == seq(|y|, _ => 0.0)
      ensures I0 == {} && I2 == {} && I3 == {}
      ensures I1 == (set i | 0 <= i < |y| && y[i] == 1.0) && I4 == (set i | 0 <= i < |y| && y[i] == -1.0)
      ensures bUp == -1.0 && bLow == 1.0
      ensures bUpIdx == FirstIndex(y, 1.0) && bLowIdx == FirstIndex(y, -1.0)
      ensures forall i :: 0 <= i < |y| ==> errors[i] == if i == bUpIdx then -1.0 else if i == bLowIdx then 1.0 else 0.0
    {
      n := |y|;
      this.y := y;
      this.K := K;
      this.C := C;
      this.tol := tol;
      alphas := new real[|y|](_ => 0.0);
      var up := FirstIndex(y, 1.0);
      var low := FirstIndex(y, -1.0);
      errors := new real[|y|](i => if i == up then -1.0 else if i == low then 1.0 else 0.0);
      I0, I2, I3 := {}, {}, {};
      I1 := set i | 0 <= i < |y| && y[i] == 1.0;
      I4 := set i | 0 <= i < |y| && y[i] == -1.0;
      bUp, bLow := -1.0, 1.0;
      bUpIdx, bLowIdx := up, low;
      b := 0.0;
      new;
      forall i | 0 <= i < n
        ensures Categorized(i)
      {
        assert alphas[i] == 0.0;
      }
    }

    /** The residual of example `i` recomputed from the multipliers and the kernel row `K[i]`. */
    method FreshError(i: int) returns (e: real)
      requires Inputs() && 0 <= i < n
      ensures e == Residual(alphas[..], y, K, i)
    {
      ghost var u := Times(alphas[..], y);
      var s := 0.0;
      var j := 0;
      while j < n
        invariant 0 <= j <= n
        invariant s == Dot(u[..j], K[i][..j])
      {
        DotPrefix(u, K[i], j);
        s := s + alphas[j] * y[j] * K[i][j];
        j := j + 1;
      }
      assert u[..n] == u && K[i][..n] == K[i];
      e := s - y[i];
    }

    /**
     * The error cache after a step: every index of I0 other than `i1`, `i2`, and then `i1`
     * and `i2` themselves, receive the multiplier deltas `d1 = y1*(a1 - alpha1)` and
     * `d2 = y2*(a2 - alpha2)` weighted by their kernel entries; no other entry changes.
     */
    method UpdateErrorCache(i1: int, i2: int, d1: real, d2: real)
      requires Valid() && 0 <= i1 < n && 0 <= i2 < n && i1 != i2
      modifies errors
      ensures errors[..] == CacheAfterStep(old(errors[..]), K, I0, i1, i2, d1, d2)
    {
      ShiftFree(i1, i2, d1, d2);
      ghost var swept := errors[..];
      var shift1 := d1 * K[i1][i1] + d2 * K[i1][i2];
      var shift2 := d1 * K[i1][i2] + d2 * K[i2][i2];
      assert shift1 == Shift(K, i1, i2, d1, d2, i1) by {
        assert K[i2][i1] == K[i1][i2];
      }
      assert shift2 == Shift(K, i1, i2, d1, d2, i2);
      errors[i1] := errors[i1] + shift1;
      errors[i2] := errors[i2] + shift2;
      ghost var expected := CacheAfterStep(old(errors[..]), K, I0, i1, i2, d1, d2);
      forall i | 0 <= i < n
        ensures errors[i] == expected[i]
      {
        assert old(errors[..])[i] == old(errors[i]);
        if i == i1 {
          assert swept[i1] == old(errors[i1]);
        } else if i == i2 {
          assert swept[i2] == old(errors[i2]);
        } else {
          assert errors[i] == swept[i];
        }
      }
      assert errors[..] == expected;
    }

    /** The loop over I0 of the cache update: every free index other than `i1`, `i2` moves by its `Shift`. */
    method ShiftFree(i1: int, i2: int, d1: real, d2: real)
      requires Valid() && 0 <= i1 < n && 0 <= i2 < n
      modifies errors
      ensures forall i :: 0 <= i < n ==>
        errors[i] == old(errors[i]) + (if i in I0 && i != i1 && i != i2 then Shift(K, i1, i2, d1, d2, i) else 0.0)
    {
      var rest := I0;
      while rest != {}
        invariant rest <= I0
        invariant forall i :: 0 <= i < n ==>
          errors[i] == old(errors[i]) + (if i in I0 - rest && i != i1 && i != i2 then Shift(K, i1, i2, d1, d2, i) else 0.0)
        decreases rest
      {
        EmptyOrMember(rest);
        var i :| i in rest;
        if i != i1 && i != i2 {
          errors[i] := errors[i] + d1 * K[i1][i] + d2 * K[i2][i];
        }
        rest := rest - {i};
      }
      assert I0 - {} == I0;
    }

    /** Puts `i` into exactly the sets its new multiplier and label call for, and leaves every other index where it was. */
    method Recategorize(i: int)
      requires Shape() && 0 <= i < n
      modifies this`I0, this`I1, this`I2, this`I3, this`I4
      ensures Shape() && Categorized(i)
      ensures forall j :: 0 <= j < n && j != i && old(Categorized(j)) ==> Categorized(j)
      ensures I0 == if InI0(alphas[i], C) then old(I0) + {i} else old(I0) - {i}
      ensures I1 == if InI1(alphas[i], y[i]) then old(I1) + {i} else old(I1) - {i}
      ensures I2 == if InI2(alphas[i], y[i], C) then old(I2) + {i} else old(I2) - {i}
      ensures I3 == if InI3(alphas[i], y[i], C) then old(I3) + {i} else old(I3) - {i}
      ensures I4 == if InI4(alphas[i], y[i]) then old(I4) + {i} else old(I4) - {i}
    {
      var a := alphas[i];
      I0 := if 0.0 < a < C then I0 + {i} else I0 - {i};
      I1 := if y[i] == 1.0 && a == 0.0 then I1 + {i} else I1 - {i};
      I2 := if y[i] == -1.0 && a == C then I2 + {i} else I2 - {i};
      I3 := if y[i] == 1.0 && a == C then I3 + {i} else I3 - {i};
      I4 := if y[i] == -1.0 && a == 0.0 then I4 + {i} else I4 - {i};
    }

    /** The scan of I0 behind both thresholds: the smallest and the largest cached error over I0. */
    method ScanFree() returns (up: real, upIdx: int, low: real, lowIdx: int)
      requires Shape()
      ensures IsMinOver(up, upIdx, I0, errors[..])
      ensures IsMaxOver(low, lowIdx, I0, errors[..])
    {
      upIdx, lowIdx := -1, -1;
      up, low := FloatMax, -FloatMax;
      var rest := I0;
      while rest != {}
        invariant rest <= I0
        invariant IsMinOver(up, upIdx, I0 - rest, errors[..])
        invariant IsMaxOver(low, lowIdx, I0 - rest, errors[..])
        decreases rest
      {
        EmptyOrMember(rest);
        var i :| i in rest;
        if errors[i] > low {
          low, lowIdx := errors[i], i;
        }
        if errors[i] < up {
          up, upIdx := errors[i], i;
        }
        rest := rest - {i};
      }
      assert I0 - {} == I0;
    }

    /**
     * One of the two indices of a step: outside I0 it joins the `b_low` scan when it is in
     * I3 or I4 and the `b_up` scan otherwise.
     */
    method ScanStepIndex(i: int, up: real, upIdx: int, low: real, lowIdx: int, ghost upSet: set<int>, ghost lowSet: set<int>)
      returns (up': real, upIdx': int, low': real, lowIdx': int)
      requires Shape() && 0 <= i < n
      requires (forall j :: j in upSet ==> 0 <= j < n) && (forall j :: j in lowSet ==> 0 <= j < n)
      requires IsMinOver(up, upIdx, upSet, errors[..]) && IsMaxOver(low, lowIdx, lowSet, errors[..])
      ensures IsMinOver(up', upIdx', upSet + UpCandidate(i), errors[..])
      ensures IsMaxOver(low', lowIdx', lowSet + LowCandidate(i), errors[..])
    {
      up', upIdx', low', lowIdx' := up, upIdx, low, lowIdx;
      if i !in I0 {
        if i in I3 || i in I4 {
          if errors[i] > low {
            low', lowIdx' := errors[i], i;
          }
        } else if errors[i] < up {
          up', upIdx' := errors[i], i;
        }
      }
      assert upSet + {} == upSet && lowSet + {} == lowSet;
    }

    /**
     * The threshold rescan after a step (equations 11a and 11b of Keerthi et al., over I0,
     * `i1` and `i2` only): `b_up` is the smallest error over the `b_up` candidates and `b_low`
     * the largest over the `b_low` candidates, each with an index attaining it, or -1 with
     * the `sys.float_info.max` sentinel when no candidate beats it.
     */
    method Thresholds(i1: int, i2: int) returns (up: real, upIdx: int, low: real, lowIdx: int)
      requires Shape() && 0 <= i1 < n && 0 <= i2 < n
      ensures IsMinOver(up, upIdx, UpCandidates(i1, i2), errors[..])
      ensures IsMaxOver(low, lowIdx, LowCandidates(i1, i2), errors[..])
    {
      up, upIdx, low, lowIdx := ScanFree();
      up, upIdx, low, lowIdx := ScanStepIndex(i1, up, upIdx, low, lowIdx, I0, I0);
      up, upIdx, low, lowIdx := ScanStepIndex(i2, up, upIdx, low, lowIdx, I0 + UpCandidate(i1), I0 + LowCandidate(i1));
    }

    /**
     * Stores the rescanned thresholds; both are found (neither index is -1) exactly when
     * `found` holds, and otherwise the step raises "unexpected status".
     */
    method RescanThresholds(i1: int, i2: int) returns (found: bool)
      requires Shape() && 0 <= i1 < n && 0 <= i2 < n
      modifies this`bUp, this`bUpIdx, this`bLow, this`bLowIdx
      ensures IsMinOver(bUp, bUpIdx, old(UpCandidates(i1, i2)), old(errors[..]))
      ensures IsMaxOver(bLow, bLowIdx, old(LowCandidates(i1, i2)), old(errors[..]))
      ensures found <==> bUpIdx != -1 && bLowIdx != -1
      ensures found ==> 0 <= bUpIdx < n && 0 <= bLowIdx < n
    {
      bUp, bUpIdx, bLow, bLowIdx := Thresholds(i1, i2);
      found := bUpIdx != -1 && bLowIdx != -1;
    }

    /**
     * Stores the snapped multipliers of `i1` and `i2` and recategorizes both; no other
     * multiplier and no other index's membership changes.
     */
    method StoreMultipliers(i1: int, i2: int, a1: real, a2: real)
      requires Valid() && 0 <= i1 < n && 0 <= i2 < n && i1 != i2
      requires 0.0 <= a1 <= C && 0.0 <= a2 <= C
      modifies this`I0, this`I1, this`I2, this`I3, this`I4, alphas
      ensures Valid()
      ensures alphas[..] == old(alphas[..])[i1 := a1][i2 := a2]
      ensures I0 - {i1, i2} == old(I0) - {i1, i2} && I1 - {i1, i2} == old(I1) - {i1, i2}
      ensures I2 - {i1, i2} == old(I2) - {i1, i2} && I3 - {i1, i2} == old(I3) - {i1, i2}
      ensures I4 - {i1, i2} == old(I4) - {i1, i2}
    {
      WritePair(i1, i2, a1, a2);
      Recategorize(i1);
      Recategorize(i2);
    }

    /**
     * Writes the snapped multipliers of `i1` and `i2`: the box holds afterwards, and every
     * other index is still categorized.
     */
    method WritePair(i1: int, i2: int, a1: real, a2: real)
      requires Valid() && 0 <= i1 < n && 0 <= i2 < n && i1 != i2
      requires 0.0 <= a1 <= C && 0.0 <= a2 <= C
      modifies alphas
      ensures Shape() && Boxed()
      ensures alphas[..] == old(alphas[..])[i1 := a1][i2 := a2]
      ensures forall j :: 0 <= j < n && j != i1 && j != i2 ==> Categorized(j)
    {
      alphas[i1] := a1;
      alphas[i2] := a2;
      forall j | 0 <= j < n && j != i1 && j != i2
        ensures Categorized(j)
      {
        assert old(Categorized(j));
      }
    }

    /**
     * The cache update with the unsnapped deltas of `p`, then the snapped multipliers with
     * the recategorization of `i1` and `i2`.
     */
    method MovePair(i1: int, i2: int, p: Pair)
      requires Valid() && 0 <= i1 < n && 0 <= i2 < n && i1 != i2
      requires 0.0 <= p.a1 <= C && 0.0 <= p.a2 <= C
      modifies this`I0, this`I1, this`I2, this`I3, this`I4, alphas, errors
      ensures Valid()
      ensures alphas[..] == old(alphas[..])[i1 := SnapToBounds(p.a1, C)][i2 := SnapToBounds(p.a2, C)]
      ensures errors[..] == CacheAfterStep(old(errors[..]), K, old(I0), i1, i2, Delta(y[i1], p.a1, old(alphas[i1])), Delta(y[i2], p.a2, old(alphas[i2])))
      ensures I0 - {i1, i2} == old(I0) - {i1, i2} && I1 - {i1, i2} == old(I1) - {i1, i2}
      ensures I2 - {i1, i2} == old(I2) - {i1, i2} && I3 - {i1, i2} == old(I3) - {i1, i2}
      ensures I4 - {i1, i2} == old(I4) - {i1, i2}
    {
      UpdateErrorCache(i1, i2, Delta(y[i1], p.a1, alphas[i1]), Delta(y[i2], p.a2, alphas[i2]));
      StoreMultipliers(i1, i2, SnapToBounds(p.a1, C), SnapToBounds(p.a2, C));
    }

    /**
     * Applies an accepted step `p` to the pair: the cache update with the unsnapped deltas,
     * the snapped multipliers with the recategorization, and the threshold rescan.
     */
    method ApplyStep(i1: int, i2: int, p: Pair) returns (r: Result<bool>)
      requires Valid() && 0 <= i1 < n && 0 <= i2 < n && i1 != i2
      requires 0.0 <= p.a1 <= C && 0.0 <= p.a2 <= C
      modifies this`I0, this`I1, this`I2, this`I3, this`I4, this`bUp, this`bUpIdx, this`bLow, this`bLowIdx, alphas, errors
      ensures r.Success? ==> r.value
      ensures r.Success? <==> Valid()
      ensures r.Failure? <==> bUpIdx == -1 || bLowIdx == -1
      ensures alphas[..] == old(alphas[..])[i1 := SnapToBounds(p.a1, C)][i2 := SnapToBounds(p.a2, C)]
      ensures errors[..] == CacheAfterStep(old(errors[..]), K, old(I0), i1, i2, Delta(y[i1], p.a1, old(alphas[i1])), Delta(y[i2], p.a2, old(alphas[i2])))
      ensures Consistent() && SetsInRange()
      ensures I0 - {i1, i2} == old(I0) - {i1, i2} && I1 - {i1, i2} == old(I1) - {i1, i2}
      ensures I2 - {i1, i2} == old(I2) - {i1, i2} && I3 - {i1, i2} == old(I3) - {i1, i2}
      ensures I4 - {i1, i2} == old(I4) - {i1, i2}
      ensures IsMinOver(bUp, bUpIdx, UpCandidates(i1, i2), errors[..])
      ensures IsMaxOver(bLow, bLowIdx, LowCandidates(i1, i2), errors[..])
    {
      MovePair(i1, i2, p);
      var found := RescanThresholds(i1, i2);
      r := if found then Success(true) else Failure(UnexpectedStatus);
    }

    /** Stores `e` as the cached error of `i`. */
    method StoreError(i: int, e: real)
      requires Valid() && 0 <= i < n
      modifies errors
      ensures Valid() && errors[..] == old(errors[..])[i := e]
    {
      errors[i] := e;
    }

    /**
     * The error refresh of `_examine_example` for an index outside I0: the residual is
     * recomputed and stored, and lowers `b_up` when `i2` is in I1 or I2, or raises `b_low`
     * when it is in I3 or I4. A threshold that moves takes `i2` as its index.
     */
    method RefreshError(i2: int) returns (e: real)
      requires Valid() && 0 <= i2 < n && i2 !in I0
      modifies errors, this`bUp, this`bUpIdx, this`bLow, this`bLowIdx
      ensures Valid()
      ensures e == old(Residual(alphas[..], y, K, i2))
      ensures errors[..] == old(errors[..])[i2 := e]
      ensures (bUp == old(bUp) && bUpIdx == old(bUpIdx)) || (bUp == e < old(bUp) && bUpIdx == i2)
      ensures (bLow == old(bLow) && bLowIdx == old(bLowIdx)) || (bLow == e > old(bLow) && bLowIdx == i2)
      ensures i2 in I1 || i2 in I2 ==> bUp <= e && bLow == old(bLow)
      ensures i2 in I3 || i2 in I4 ==> bLow >= e && bUp == old(bUp)
    {
      assert Categorized(i2);
      e := FreshError(i2);
      StoreError(i2, e);
      if (i2 in I1 || i2 in I2) && e < bUp {
        SetUp(e, i2);
      } else if (i2 in I3 || i2 in I4) && e > bLow {
        SetLow(e, i2);
      }
    }

    /** Moves `b_up` to `v`, attained at example `i`. */
    method SetUp(v: real, i: int)
      requires Valid() && 0 <= i < n
      modifies this`bUp, this`bUpIdx
      ensures Valid() && bUp == v && bUpIdx == i
    {
      bUp, bUpIdx := v, i;
    }

    /** Moves `b_low` to `v`, attained at example `i`. */
    method SetLow(v: real, i: int)
      requires Valid() && 0 <= i < n
      modifies this`bLow, this`bLowIdx
      ensures Valid() && bLow == v && bLowIdx == i
    {
      bLow, bLowIdx := v, i;
    }

    /**
     * `_take_step`: jointly optimises the multipliers of `i1` and `i2`. It returns `false` and
     * changes nothing when `i1 == i2`, when `L == H` or when the change is negligible.
     * Otherwise only positions `i1` and `i2` of the multipliers are written, with the snapped
     * analytic solution; the error cache moves at I0, `i1` and `i2` by the deltas of the
     * unsnapped solution; `i1` and `i2` are recategorized and no other index moves between
     * sets; and the thresholds are rescanned. A rescan that finds no index for either
     * threshold raises "unexpected status".
     */
    method TakeStep(i1: int, i2: int) returns (r: Result<bool>)
      requires Valid() && 0 <= i1 < n && 0 <= i2 < n
      modifies this, alphas, errors
      ensures r.Success? ==> Valid()
      ensures r == Success(false) <==> i1 == i2 || old(PairStep(i1, i2)).None?
      ensures r == Success(false) ==> unchanged(this, alphas, errors)
      ensures r != Success(false) ==> (old(PairStep(i1, i2)).Some? &&
        var p := old(PairStep(i1, i2)).value;
        && alphas[..] == old(alphas[..])[i1 := SnapToBounds(p.a1, C)][i2 := SnapToBounds(p.a2, C)]
        && errors[..] == CacheAfterStep(old(errors[..]), K, old(I0), i1, i2, Delta(y[i1], p.a1, old(alphas[i1])), Delta(y[i2], p.a2, old(alphas[i2]))))
      ensures r != Success(false) ==>
        && Consistent() && SetsInRange()
        && I0 - {i1, i2} == old(I0) - {i1, i2} && I1 - {i1, i2} == old(I1) - {i1, i2}
        && I2 - {i1, i2} == old(I2) - {i1, i2} && I3 - {i1, i2} == old(I3) - {i1, i2}
        && I4 - {i1, i2} == old(I4) - {i1, i2}
        && IsMinOver(bUp, bUpIdx, UpCandidates(i1, i2), errors[..])
        && IsMaxOver(bLow, bLowIdx, LowCandidates(i1, i2), errors[..])
      ensures r.Failure? <==> r != Success(false) && (bUpIdx == -1 || bLowIdx == -1)
    {
      if i1 == i2 {
        return Success(false);
      }
      var alpha1, alpha2 := alphas[i1], alphas[i2];
      var y1, y2 := y[i1], y[i2];
      var step := SolvePair(alpha1, alpha2, y1, y2, errors[i1], errors[i2], K[i1][i1], K[i2][i2], K[i1][i2], C);
      if step.None? {
        return Success(false);
      }
      assert step == PairStep(i1, i2);
      r := ApplyStep(i1, i2, step.value);
    }
    /**
     * `_examine_example`: the error `e2` of `i2` is the cached one for a free index, else it
     * is recomputed, stored, and used to lower `b_up` (for I1, I2) or raise `b_low` (for I3,
     * I4); `up`, `low` and their indices are the thresholds after that refresh. The partner
     * is exactly what `SelectPartner` picks from them: none when `i2` satisfies the KKT test
     * within `2*tol`, and then nothing else happens and the result is `false`. Otherwise the
     * step on the partner and `i2` is taken, and the result is `false` exactly when the
     * partner is `i2` itself or the analytic step calls for no change.
     */
    method ExamineExample(i2: int) returns (r: Result<bool>, ghost e2: real, ghost partner: Option<int>,
                                           ghost up: real, ghost upIdx: int, ghost low: real, ghost lowIdx: int)
      requires Valid() && 0 <= i2 < n
      modifies this, alphas, errors
      ensures r.Success? ==> Valid()
      ensures e2 == if old(i2 in I0) then old(errors[i2]) else old(Residual(alphas[..], y, K, i2))
      ensures old(i2 in I0) ==> up == old(bUp) && upIdx == old(bUpIdx) && low == old(bLow) && lowIdx == old(bLowIdx)
      ensures (up == old(bUp) && upIdx == old(bUpIdx)) || (up == e2 < old(bUp) && upIdx == i2)
      ensures (low == old(bLow) && lowIdx == old(bLowIdx)) || (low == e2 > old(bLow) && lowIdx == i2)
      ensures old(i2 !in I0 && (i2 in I1 || i2 in I2)) ==> up <= e2 && low == old(bLow)
      ensures old(i2 !in I0 && (i2 in I3 || i2 in I4)) ==> low >= e2 && up == old(bUp)
      ensures partner == SelectPartner(old(i2 in I0), old(i2 in I1 || i2 in I2), old(i2 in I3 || i2 in I4), e2, up, low, upIdx, lowIdx, tol)
      ensures partner.Some? ==> 0 <= partner.value < n
      ensures partner.Some? ==> var i1 := partner.value;
        (r == Success(false) <==>
          i1 == i2 || SolvePair(old(alphas[i1]), old(alphas[i2]), y[i1], y[i2], old(errors[i1]), e2, K[i1][i1], K[i2][i2], K[i1][i2], C).None?)
      ensures partner.None? ==>
        && r == Success(false) && alphas[..] == old(alphas[..]) && errors[..] == old(errors[..])[i2 := e2]
        && I0 == old(I0) && I1 == old(I1) && I2 == old(I2) && I3 == old(I3) && I4 == old(I4)
        && bUp == up && bUpIdx == upIdx && bLow == low && bLowIdx == lowIdx
      ensures partner.None? && old(i2 in I0) ==> unchanged(this, alphas, errors)
    {
      var e: real;
      if i2 in I0 {
        e := errors[i2];
      } else {
        e := RefreshError(i2);
      }
      e2 := e;
      up, upIdx, low, lowIdx := bUp, bUpIdx, bLow, bLowIdx;
      assert alphas[i2] == old(alphas[i2]);
      assert I0 == old(I0) && I1 == old(I1) && I2 == old(I2) && I3 == old(I3) && I4 == old(I4);
      var i1 := SelectPartner(i2 in I0, i2 in I1 || i2 in I2, i2 in I3 || i2 in I4, e, bUp, bLow, bUpIdx, bLowIdx, tol);
      partner := i1;
      if i1.None? {
        r := Success(false);
        return;
      }
      assert i1.value != i2 ==> errors[i1.value] == old(errors[i1.value]);
      r := TakeStep(i1.value, i2);
    }

    /** A sweep over every example; the result counts the steps that changed the multipliers. */
    method FullSweep() returns (r: Result<nat>)
      requires Valid()
      modifies this, alphas, errors
      ensures r.Success? ==> Valid() && r.value <= n
    {
      var changed: nat := 0;
      var i := 0;
      while i < n
        invariant 0 <= i <= n && changed <= i
        invariant Valid()
      {
        var outcome;
        ghost var e, partner, up, upIdx, low, lowIdx;
        outcome, e, partner, up, upIdx, low, lowIdx := ExamineExample(i);
        if outcome.Failure? {
          return Failure(outcome.error);
        }
        if outcome.value {
          changed := changed + 1;
        }
        i := i + 1;
      }
      return Success(changed);
    }

    /**
     * A sweep over the examples whose multiplier is strictly inside the box. It stops early,
     * reporting no change, as soon as optimality on I0 is attained (`b_up > b_low - 2*tol`).
     */
    method ActiveSweep() returns (r: Result<nat>, ghost attained: bool)
      requires Valid()
      modifies this, alphas, errors
      ensures r.Success? ==> Valid() && r.value <= n
      ensures attained ==> r == Success(0) && bUp > bLow - 2.0 * tol
    {
      attained := false;
      var changed: nat := 0;
      var i := 0;
      while i < n
        invariant 0 <= i <= n && changed <= i
        invariant Valid()
        invariant !attained
      {
        if 0.0 < alphas[i] < C {
          var outcome;
          ghost var e, partner, up, upIdx, low, lowIdx;
          outcome, e, partner, up, upIdx, low, lowIdx := ExamineExample(i);
          if outcome.Failure? {
            return Failure(outcome.error), false;
          }
          if outcome.value {
            changed := changed + 1;
          }
          if bUp > bLow - 2.0 * tol {
            attained := true;
            return Success(0), attained;
          }
        }
        i := i + 1;
      }
      return Success(changed), attained;
    }

    /**
     * `smo`: alternates full sweeps and active-set sweeps until a full sweep changes nothing,
     * then sets the bias to `-(b_low + b_up) / 2`. At most `fuel` sweeps are run; the result
     * is `true` when the loop ended by convergence and `false` when the fuel ran out.
     */
    method Smo(fuel: nat) returns (r: Result<bool>, ghost lastFull: bool, ghost lastChanged: nat)
      requires Valid()
      modifies this, alphas, errors
      ensures r.Success? ==> Valid()
      ensures r == Success(true) ==> lastFull && lastChanged == 0 && b == -(bLow + bUp) / 2.0
    {
      var changed: nat := 0;
      var examineAll := true;
      var sweeps: nat := 0;
      lastFull, lastChanged := true, 0;
      while SweepAgain(changed, examineAll)
        invariant Valid() && sweeps <= fuel
        invariant !SweepAgain(changed, examineAll) ==> lastFull && lastChanged == 0
        decreases fuel - sweeps
      {
        if sweeps == fuel {
          return Success(false), lastFull, lastChanged;
        }
        sweeps := sweeps + 1;
        var outcome: Result<nat>;
        if examineAll {
          outcome := FullSweep();
        } else {
          ghost var attained;
          outcome, attained := ActiveSweep();
        }
        if outcome.Failure? {
          return Failure(outcome.error), lastFull, lastChanged;
        }
        changed := outcome.value;
        lastFull, lastChanged := examineAll, changed;
        StopsOnlyAfterQuietFullSweep(examineAll, changed);
        examineAll := NextExamineAll(examineAll, changed);
      }
      b := -(bLow + bUp) / 2.0;
      return Success(true), lastFull, lastChanged;
    }
  }
}
