/**
 * Smola and Schölkopf's sequential minimal optimisation for support vector regression, with
 * the improvements of Shevade et al.: two multipliers per example (`alphas_p` for the upper
 * and `alphas_n` for the lower side of the epsilon-tube), four index sets, the threshold pair
 * `b_up` / `b_low` over the tube-shifted errors, and the four-case pair step of Flake and
 * Lawrence.
 */
module Svr {
  import opened Common
  import opened SmoBase

  /** Multipliers within this fraction of `C` of a bound are snapped onto the bound. */
  const SnapFraction: real := 1e-10
  /** A case updates the pair only when one of its multipliers moves by more than this. */
  const ChangeTolerance: real := 1e-12

  /** What the engine assumes of its inputs: an n×n symmetric kernel matrix and `C > 0`. */
  ghost predicate WellFormedInputs(y: seq<real>, K: seq<seq<real>>, C: real)
  {
    && |K| == |y|
    && (forall i :: 0 <= i < |K| ==> |K[i]| == |y|)
    && (forall i, j :: 0 <= i < |y| && 0 <= j < |y| ==> K[i][j] == K[j][i])
    && C > 0.0
  }

  // The four index sets, as conditions on the two multipliers of one example.

  /** I0: `0 < alpha_p < C` or `0 < alpha_n < C`. */
  predicate InI0(p: real, n: real, C: real) { 0.0 < p < C || 0.0 < n < C }
  /** I1: `alpha_p = 0, alpha_n = 0`. */
  predicate InI1(p: real, n: real) { p == 0.0 && n == 0.0 }
  /** I2: `alpha_p = 0, alpha_n = C`. */
  predicate InI2(p: real, n: real, C: real) { p == 0.0 && n == C }
  /** I3: `alpha_p = C, alpha_n = 0`. */
  predicate InI3(p: real, n: real, C: real) { p == C && n == 0.0 }

  /**
   * Two multipliers in the box of which at least one is zero put the example in exactly one
   * of the four sets.
   */
  lemma CategoriesPartition(p: real, n: real, C: real)
    requires C > 0.0 && 0.0 <= p <= C && 0.0 <= n <= C && (p == 0.0 || n == 0.0)
    ensures Indicator(InI0(p, n, C)) + Indicator(InI1(p, n)) + Indicator(InI2(p, n, C)) + Indicator(InI3(p, n, C)) == 1
  {
  }

  /** The four multipliers of a pair `(i1, i2)`. */
  datatype Multipliers = Multipliers(p1: real, n1: real, p2: real, n2: real)

  predicate InBox(m: Multipliers, C: real)
  {
    0.0 <= m.p1 <= C && 0.0 <= m.n1 <= C && 0.0 <= m.p2 <= C && 0.0 <= m.n2 <= C
  }

  /** At most one multiplier of each example is non-zero. */
  predicate Complementary(m: Multipliers)
  {
    (m.p1 == 0.0 || m.n1 == 0.0) && (m.p2 == 0.0 || m.n2 == 0.0)
  }

  /** `gamma`, the pair's share of the equality constraint `sum(alphas_p - alphas_n) = 0`. */
  function Gamma(m: Multipliers): real
  {
    m.p1 - m.n1 + m.p2 - m.n2
  }

  /**
   * The one-dimensional subproblem every case solves for the new second multiplier, with
   * `g` the case's gradient term: the Newton step `current + g/eta` clipped to `[L, H]`
   * when `eta > 0`, otherwise the endpoint whose objective (`L*g` against `H*g`) is larger,
   * `H` on a tie.
   */
  function NewValue(current: real, g: real, eta: real, L: real, H: real): (a: real)
    requires L <= H
    ensures L <= a <= H
    ensures eta > 0.0 && L <= current + g / eta <= H ==> a == current + g / eta
    ensures eta <= 0.0 && L < H ==> (a == L <==> L * g > H * g)
  {
    if eta > 0.0 then Clip(current + g / eta, L, H)
    else if L * g > H * g then L
    else H
  }

  /**
   * `NewValue` is the best point of `[L, H]` for the gain: for `eta > 0` the clipped Newton
   * step is the point of the interval nearest the top of the parabola, and for `eta = 0` the
   * gain is linear and the chosen endpoint is the larger one.
   */
  lemma {:induction false} NewValueMaximises(current: real, g: real, eta: real, L: real, H: real, x: real)
    requires eta >= 0.0 && L <= x <= H
    ensures Gain(x, current, g, eta) <= Gain(NewValue(current, g, eta, L, H), current, g, eta)
  {
    var a := NewValue(current, g, eta, L, H);
    if eta > 0.0 {
      var t := current + g / eta;
      assert (t <= a <= x) || (x <= a <= t) || a == t;
      NearerSquare(a, x, t);
      GainAroundTop(x, current, g, eta);
      GainAroundTop(a, current, g, eta);
    } else {
      assert Gain(x, current, g, eta) == g * (x - current);
      assert Gain(a, current, g, eta) == g * (a - current);
      if L < H {
        LinearBelowEndpoints(g, L, x, H);
      }
    }
  }

  /** On `[L, H]` a linear gain `g*x` is largest at one of the two endpoints. */
  lemma LinearBelowEndpoints(g: real, L: real, x: real, H: real)
    requires L <= x <= H
    ensures g * x <= Max(L * g, H * g)
  {
    if g >= 0.0 {
      assert g * (H - x) >= 0.0;
      assert g * (H - x) == H * g - g * x;
    } else {
      assert (-g) * (x - L) >= 0.0;
      assert (-g) * (x - L) == L * g - g * x;
    }
  }

  /** A case's proposal is taken only when one of the two multipliers moves by more than 1e-12. */
  predicate Moves(a1: real, old1: real, a2: real, old2: real)
  {
    Abs(a1 - old1) > ChangeTolerance || Abs(a2 - old2) > ChangeTolerance
  }

  /**
   * The four cases of the pair step, named by the multiplier of `i1` and the multiplier of
   * `i2` that they move: `PP` moves `alpha1_p, alpha2_p`, `PN` moves `alpha1_p, alpha2_n`,
   * `NP` moves `alpha1_n, alpha2_p`, `NN` moves `alpha1_n, alpha2_n`.
   */
  datatype Case = PP | PN | NP | NN

  /** The guard under which a case is tried, on the current multipliers and `delta_E`. */
  predicate Enters(c: Case, m: Multipliers, deltaE: real, epsilon: real)
  {
    match c
    case PP => (m.p1 > 0.0 || (m.n1 == 0.0 && deltaE > 0.0)) && (m.p2 > 0.0 || (m.n2 == 0.0 && deltaE < 0.0))
    case PN => (m.p1 > 0.0 || (m.n1 == 0.0 && deltaE > 2.0 * epsilon)) && (m.n2 > 0.0 || (m.p2 == 0.0 && deltaE > 2.0 * epsilon))
    case NP => (m.n1 > 0.0 || (m.p1 == 0.0 && deltaE < -2.0 * epsilon)) && (m.p2 > 0.0 || (m.n2 == 0.0 && deltaE < -2.0 * epsilon))
    case NN => (m.n1 > 0.0 || (m.p1 == 0.0 && deltaE < 0.0)) && (m.n2 > 0.0 || (m.p2 == 0.0 && deltaE > 0.0))
  }

  /** The two multipliers a case does not move are zero, so it can move the other two freely. */
  predicate Movable(c: Case, m: Multipliers)
  {
    match c
    case PP => m.n1 == 0.0 && m.n2 == 0.0
    case PN => m.n1 == 0.0 && m.p2 == 0.0
    case NP => m.p1 == 0.0 && m.n2 == 0.0
    case NN => m.p1 == 0.0 && m.p2 == 0.0
  }

  /** A case entered on complementary multipliers always has the other two at zero. */
  lemma EnteredCaseIsMovable(c: Case, m: Multipliers, deltaE: real, epsilon: real)
    requires Complementary(m) && Enters(c, m, deltaE, epsilon)
    ensures Movable(c, m)
  {
  }

  /** The first of the two multipliers a case moves (the one of `i1`). */
  function First(c: Case, m: Multipliers): real
  {
    if c == PP || c == PN then m.p1 else m.n1
  }

  /** The second of the two multipliers a case moves (the one of `i2`). */
  function Second(c: Case, m: Multipliers): real
  {
    if c == PP || c == NP then m.p2 else m.n2
  }

  /** The multipliers with the two a case moves replaced by `a1` and `a2`. */
  function With(c: Case, m: Multipliers, a1: real, a2: real): (r: Multipliers)
    ensures First(c, r) == a1 && Second(c, r) == a2
    ensures a1 == First(c, m) && a2 == Second(c, m) ==> r == m
  {
    match c
    case PP => m.(p1 := a1, p2 := a2)
    case PN => m.(p1 := a1, n2 := a2)
    case NP => m.(n1 := a1, p2 := a2)
    case NN => m.(n1 := a1, n2 := a2)
  }

  /**
   * The interval `[L, H]` that keeps both moved multipliers in `[0, C]` while `gamma` is
   * kept: the bounds of the source for each case.
   */
  function Lower(c: Case, gamma: real, C: real): real
  {
    match c
    case PP => Max(0.0, gamma - C)
    case PN => Max(0.0, -gamma)
    case NP => Max(0.0, gamma)
    case NN => Max(0.0, -gamma - C)
  }

  function Upper(c: Case, gamma: real, C: real): real
  {
    match c
    case PP => Min(C, gamma)
    case PN => Min(C, -gamma + C)
    case NP => Min(C, C + gamma)
    case NN => Min(C, -gamma)
  }

  /** The first multiplier that keeps `gamma` once the second is `a2`. */
  function Partner(c: Case, m: Multipliers, a2: real): real
  {
    match c
    case PP => m.p1 - (a2 - m.p2)
    case PN => m.p1 + (a2 - m.n2)
    case NP => m.n1 + (a2 - m.p2)
    case NN => m.n1 - (a2 - m.n2)
  }

  /** The case's gradient of the dual objective along its second multiplier, from `delta_E`. */
  function Gradient(c: Case, deltaE: real, epsilon: real): real
  {
    match c
    case PP => -deltaE
    case PN => deltaE - 2.0 * epsilon
    case NP => -(deltaE + 2.0 * epsilon)
    case NN => deltaE
  }

  /**
   * Moving the second multiplier anywhere in `[L, H]` and the first by the opposite amount
   * (the same amount for the mixed cases) keeps the box, complementarity and `gamma`.
   */
  lemma PartnerKeepsConstraints(c: Case, m: Multipliers, a2: real, C: real)
    requires C > 0.0 && InBox(m, C) && Movable(c, m)
    requires Lower(c, Gamma(m), C) <= a2 <= Upper(c, Gamma(m), C)
    ensures InBox(With(c, m, Partner(c, m, a2), a2), C)
    ensures Complementary(With(c, m, Partner(c, m, a2), a2))
    ensures Gamma(With(c, m, Partner(c, m, a2), a2)) == Gamma(m)
  {
    match c
    case PP =>
    case PN =>
    case NP =>
    case NN =>
  }

  /** What one pass of the loop leaves: the multipliers and the `changed` / `finished` flags it sets. */
  datatype Pass = Pass(m: Multipliers, changed: bool, finished: bool)

  /**
   * One case of the pair step: when `L < H` the second multiplier moves to the solution of the
   * one-dimensional subproblem, the first by the opposite amount, and both are taken only if
   * one moves by more than 1e-12; when `L >= H` the loop finishes. Either way the box,
   * complementarity and `gamma` are kept, and the two multipliers the case does not move
   * stay as they are.
   */
  function CaseStep(c: Case, m: Multipliers, g: real, eta: real, C: real): (r: Pass)
    requires C > 0.0 && InBox(m, C) && Complementary(m) && Movable(c, m)
    ensures InBox(r.m, C) && Complementary(r.m) && Gamma(r.m) == Gamma(m)
    ensures r.finished <==> Lower(c, Gamma(m), C) >= Upper(c, Gamma(m), C)
    ensures !r.changed ==> r.m == m
    ensures r.changed ==> !r.finished && Moves(First(c, r.m), First(c, m), Second(c, r.m), Second(c, m))
    ensures r.m == With(c, m, First(c, r.m), Second(c, r.m))
    ensures Lower(c, Gamma(m), C) <= Second(c, r.m) <= Upper(c, Gamma(m), C) || !r.changed
    ensures Lower(c, Gamma(m), C) < Upper(c, Gamma(m), C) ==>
      var a2 := NewValue(Second(c, m), g, eta, Lower(c, Gamma(m), C), Upper(c, Gamma(m), C));
      r.changed <==> Moves(Partner(c, m, a2), First(c, m), a2, Second(c, m))
    ensures r.changed ==>
      && Second(c, r.m) == NewValue(Second(c, m), g, eta, Lower(c, Gamma(m), C), Upper(c, Gamma(m), C))
      && First(c, r.m) == Partner(c, m, Second(c, r.m))
  {
    if Lower(c, Gamma(m), C) < Upper(c, Gamma(m), C) then Proposal(c, m, g, eta, C) else Pass(m, false, true)
  }

  /**
   * A case with `L < H`: the solution of the subproblem, paired with the first multiplier
   * that keeps `gamma`, taken only when one of the two moves by more than 1e-12.
   */
  function Proposal(c: Case, m: Multipliers, g: real, eta: real, C: real): (r: Pass)
    requires C > 0.0 && InBox(m, C) && Complementary(m) && Movable(c, m)
    requires Lower(c, Gamma(m), C) < Upper(c, Gamma(m), C)
    ensures InBox(r.m, C) && Complementary(r.m) && Gamma(r.m) == Gamma(m)
    ensures !r.finished && (r.changed || r.m == m)
    ensures r.changed ==> Moves(First(c, r.m), First(c, m), Second(c, r.m), Second(c, m))
    ensures r.m == With(c, m, First(c, r.m), Second(c, r.m))
    ensures r.changed ==> Lower(c, Gamma(m), C) <= Second(c, r.m) <= Upper(c, Gamma(m), C)
    ensures var a2 := NewValue(Second(c, m), g, eta, Lower(c, Gamma(m), C), Upper(c, Gamma(m), C));
      r.changed <==> Moves(Partner(c, m, a2), First(c, m), a2, Second(c, m))
    ensures r.changed ==>
      && Second(c, r.m) == NewValue(Second(c, m), g, eta, Lower(c, Gamma(m), C), Upper(c, Gamma(m), C))
      && First(c, r.m) == Partner(c, m, Second(c, r.m))
  {
    var L, H := Lower(c, Gamma(m), C), Upper(c, Gamma(m), C);
    var a2 := NewValue(Second(c, m), g, eta, L, H);
    var a1 := Partner(c, m, a2);
    PartnerKeepsConstraints(c, m, a2, C);
    if Moves(a1, First(c, m), a2, Second(c, m)) then Pass(With(c, m, a1, a2), true, false)
    else Pass(m, false, false)
  }

  /**
   * A case that moves the pair moves its second multiplier to the best point of `[L, H]`
   * for the gain of the dual objective along that multiplier (`eta` is never negative).
   */
  lemma CaseStepIsBest(c: Case, m: Multipliers, g: real, eta: real, C: real, x: real)
    requires C > 0.0 && InBox(m, C) && Complementary(m) && Movable(c, m) && eta >= 0.0
    requires CaseStep(c, m, g, eta, C).changed
    requires Lower(c, Gamma(m), C) <= x <= Upper(c, Gamma(m), C)
    ensures Gain(x, Second(c, m), g, eta) <= Gain(Second(c, CaseStep(c, m, g, eta, C).m), Second(c, m), g, eta)
  {
    NewValueMaximises(Second(c, m), g, eta, Lower(c, Gamma(m), C), Upper(c, Gamma(m), C), x);
  }

  /** Which of the four cases the loop has already tried (`case1` … `case4`). */
  datatype Tried = Tried(pp: bool, pn: bool, np: bool, nn: bool)
  {
    predicate Has(c: Case)
    {
      match c
      case PP => pp
      case PN => pn
      case NP => np
      case NN => nn
    }

    function Mark(c: Case): (t: Tried)
      ensures t.Has(c) && forall d :: d != c ==> (t.Has(d) <==> Has(d))
    {
      match c
      case PP => this.(pp := true)
      case PN => this.(pn := true)
      case NP => this.(np := true)
      case NN => this.(nn := true)
    }

    /** How many cases are still untried. */
    function Untried(): nat
    {
      Indicator(!pp) + Indicator(!pn) + Indicator(!np) + Indicator(!nn)
    }
  }

  /** The position of a case in the `if … elif …` chain of one pass. */
  function Rank(c: Case): nat
  {
    match c
    case PP => 0
    case PN => 1
    case NP => 2
    case NN => 3
  }

  /**
   * The `if … elif …` chain of one pass: the first untried case, in the order PP, PN, NP, NN,
   * whose guard holds, or none when no untried case is entered.
   */
  function Choose(t: Tried, m: Multipliers, deltaE: real, epsilon: real): (r: Option<Case>)
    ensures r.Some? ==> !t.Has(r.value) && Enters(r.value, m, deltaE, epsilon)
    ensures r.Some? ==> forall c :: Rank(c) < Rank(r.value) ==> t.Has(c) || !Enters(c, m, deltaE, epsilon)
    ensures r.None? <==> forall c :: !t.Has(c) ==> !Enters(c, m, deltaE, epsilon)
  {
    if !t.pp && Enters(PP, m, deltaE, epsilon) then Some(PP)
    else if !t.pn && Enters(PN, m, deltaE, epsilon) then Some(PN)
    else if !t.np && Enters(NP, m, deltaE, epsilon) then Some(NP)
    else if !t.nn && Enters(NN, m, deltaE, epsilon) then Some(NN)
    else None
  }

  /** Trying one more case leaves one fewer untried. */
  lemma MarkDecreases(t: Tried, c: Case)
    requires !t.Has(c)
    ensures t.Mark(c).Untried() < t.Untried()
  {
  }

  /** What one pass of the loop leaves: the multipliers, whether they moved, `finished`, and the cases tried. */
  datatype Round = Round(m: Multipliers, moved: bool, finished: bool, tried: Tried)

  /**
   * One pass of the loop of `_take_step`: the case `Choose` picks is tried by `CaseStep` with
   * its gradient and marked as tried; when no untried case is entered the loop finishes and
   * nothing moves. The box, complementarity and `gamma` are kept, and the number of untried
   * cases (plus one while not finished) goes down.
   */
  function RunPass(tried: Tried, m: Multipliers, deltaE: real, eta: real, C: real, epsilon: real): (r: Round)
    requires C > 0.0 && InBox(m, C) && Complementary(m)
    ensures InBox(r.m, C) && Complementary(r.m) && Gamma(r.m) == Gamma(m)
    ensures !r.moved ==> r.m == m
    ensures r.tried.Untried() + Indicator(!r.finished) < tried.Untried() + 1
    ensures Choose(tried, m, deltaE, epsilon).None? <==> r == Round(m, false, true, tried)
    ensures Choose(tried, m, deltaE, epsilon).Some? ==>
      var c := Choose(tried, m, deltaE, epsilon).value;
      && Movable(c, m) && r.tried == tried.Mark(c)
      && Pass(r.m, r.moved, r.finished) == CaseStep(c, m, Gradient(c, deltaE, epsilon), eta, C)
  {
    match Choose(tried, m, deltaE, epsilon)
    case None => Round(m, false, true, tried)
    case Some(c) =>
      EnteredCaseIsMovable(c, m, deltaE, epsilon);
      TryCase(tried, c, m, deltaE, eta, C, epsilon)
  }

  /** The pass that tries the untried case `c`: `CaseStep` with its gradient, and `c` marked as tried. */
  function TryCase(tried: Tried, c: Case, m: Multipliers, deltaE: real, eta: real, C: real, epsilon: real): (r: Round)
    requires C > 0.0 && InBox(m, C) && Complementary(m) && Movable(c, m) && !tried.Has(c)
    ensures InBox(r.m, C) && Complementary(r.m) && Gamma(r.m) == Gamma(m)
    ensures !r.moved ==> r.m == m
    ensures r.tried == tried.Mark(c) && r.tried.Untried() < tried.Untried()
    ensures Pass(r.m, r.moved, r.finished) == CaseStep(c, m, Gradient(c, deltaE, epsilon), eta, C)
  {
    MarkDecreases(tried, c);
    var s := CaseStep(c, m, Gradient(c, deltaE, epsilon), eta, C);
    Round(s.m, s.changed, s.finished, tried.Mark(c))
  }

  /** `delta_E` after a pass that left `m`: grown by `eta` times the change of `alpha2_p - alpha2_n` since `m0`. */
  function NextDeltaE(deltaE: real, eta: real, m: Multipliers, m0: Multipliers): real
  {
    deltaE + eta * ((m.p2 - m.n2) - (m0.p2 - m0.n2))
  }

  /**
   * The loop of `_take_step` from the current pass on: passes run until one finishes, `changed`
   * collects whether any pass moved the pair, and after every pass `delta_E` grows by `eta`
   * times the change of `alpha2_p - alpha2_n` since the start `m0`. The result is the final
   * multipliers and `changed`: in the box, complementary, with `gamma` kept, and the current
   * multipliers when nothing changed.
   */
  function PairLoop(tried: Tried, m: Multipliers, m0: Multipliers, changed: bool, deltaE: real, eta: real,
                    C: real, epsilon: real): (r: (Multipliers, bool))
    requires C > 0.0 && InBox(m, C) && Complementary(m)
    ensures InBox(r.0, C) && Complementary(r.0) && Gamma(r.0) == Gamma(m)
    ensures !r.1 ==> r.0 == m
    ensures changed ==> r.1
    decreases tried.Untried()
  {
    var p := RunPass(tried, m, deltaE, eta, C, epsilon);
    if p.finished then (p.m, changed || p.moved)
    else PairLoop(p.tried, p.m, m0, changed || p.moved, NextDeltaE(deltaE, eta, p.m, m0), eta, C, epsilon)
  }

  /**
   * The pair step of `_take_step` on the multipliers `m0` of the pair, their errors `E1`,
   * `E2` and the kernel entries: the loop starts with no case tried, `delta_E = E1 - E2`
   * and `eta = k11 + k22 - 2*k12`, clamped to zero when negative.
   */
  function PairSolve(m0: Multipliers, E1: real, E2: real, k11: real, k22: real, k12: real, C: real, epsilon: real)
    : (r: (Multipliers, bool))
    requires C > 0.0 && InBox(m0, C) && Complementary(m0)
    ensures InBox(r.0, C) && Complementary(r.0) && Gamma(r.0) == Gamma(m0)
    ensures !r.1 ==> r.0 == m0
  {
    PairLoop(Tried(false, false, false, false), m0, m0, false, E1 - E2, Max(k11 + k22 - 2.0 * k12, 0.0), C, epsilon)
  }

  /**
   * The loop of `_take_step`, pass by pass: its result is `PairSolve`, so every multiplier
   * stays in the box, each example keeps at most one non-zero multiplier, `gamma` is kept,
   * and when `changed` is false the multipliers are those passed in.
   */
  method SolvePair(m0: Multipliers, E1: real, E2: real, k11: real, k22: real, k12: real, C: real, epsilon: real)
    returns (m: Multipliers, changed: bool)
    requires C > 0.0 && InBox(m0, C) && Complementary(m0)
    ensures (m, changed) == PairSolve(m0, E1, E2, k11, k22, k12, C, epsilon)
    ensures InBox(m, C) && Complementary(m)
    ensures Gamma(m) == Gamma(m0)
    ensures !changed ==> m == m0
  {
    var eta := k11 + k22 - 2.0 * k12;
    if eta < 0.0 {
      eta := 0.0;
    }
    m := m0;
    var tried := Tried(false, false, false, false);
    var finished := false;
    changed := false;
    var deltaE := E1 - E2;
    ghost var goal := PairLoop(tried, m, m0, changed, deltaE, eta, C, epsilon);
    assert goal == PairSolve(m0, E1, E2, k11, k22, k12, C, epsilon);
    while !finished
      invariant InBox(m, C) && Complementary(m)
      invariant finished ==> (m, changed) == goal
      invariant !finished ==> PairLoop(tried, m, m0, changed, deltaE, eta, C, epsilon) == goal
      decreases tried.Untried() + Indicator(!finished)
    {
      var pass := RunPass(tried, m, deltaE, eta, C, epsilon);
      m, finished, tried := pass.m, pass.finished, pass.tried;
      changed := changed || pass.moved;
      deltaE := NextDeltaE(deltaE, eta, m, m0);
    }
  }

  /**
   * The precision guard: a multiplier above `C - 1e-10*C` becomes `C`, one at or below
   * `1e-10*C` becomes 0. A multiplier in the box stays in the box, moves by at most
   * `1e-10*C`, and a zero stays zero.
   */
  function Snap(a: real, C: real): (r: real)
    requires C > 0.0
    ensures 0.0 <= a <= C ==> 0.0 <= r <= C && Abs(r - a) <= SnapFraction * C
    ensures r == a || r == 0.0 || r == C
    ensures a == 0.0 ==> r == 0.0
    ensures a > C - SnapFraction * C ==> r == C
    ensures a <= SnapFraction * C && a <= C - SnapFraction * C ==> r == 0.0
    ensures SnapFraction * C < a <= C - SnapFraction * C ==> r == a
  {
    if a > C - SnapFraction * C then C
    else if a <= SnapFraction * C then 0.0
    else a
  }

  /** The four multipliers of a pair, each snapped. */
  function SnapAll(m: Multipliers, C: real): (s: Multipliers)
    requires C > 0.0
    ensures InBox(m, C) && Complementary(m) ==> InBox(s, C) && Complementary(s)
  {
    Multipliers(Snap(m.p1, C), Snap(m.n1, C), Snap(m.p2, C), Snap(m.n2, C))
  }

  /** `alphas_p - alphas_n`, entry by entry. */
  function Diff(p: seq<real>, q: seq<real>): (d: seq<real>)
    requires |p| == |q|
    ensures |d| == |p|
  {
    seq(|p|, j requires 0 <= j < |p| => p[j] - q[j])
  }

  /** The residual of example `i` recomputed from the multipliers: `y[i] - (alphas_p - alphas_n).dot(K[i])`. */
  function Residual(p: seq<real>, q: seq<real>, y: seq<real>, K: seq<seq<real>>, i: int): real
    requires |p| == |q| == |y| == |K| && 0 <= i < |K| && |K[i]| == |y|
  {
    y[i] - Dot(Diff(p, q), K[i])
  }

  /** The weight `(alpha_p - alpha_n) - (a_p - a_n)` with which the error cache applies a multiplier change. */
  function Decrease(alphaP: real, alphaN: real, aP: real, aN: real): real
  {
    (alphaP - alphaN) - (aP - aN)
  }

  lemma DiffAfterPair(p: seq<real>, q: seq<real>, i1: int, i2: int, m: Multipliers)
    requires |p| == |q| && 0 <= i1 < |p| && 0 <= i2 < |p| && i1 != i2
    ensures Diff(p[i1 := m.p1][i2 := m.p2], q[i1 := m.n1][i2 := m.n2]) == Diff(p, q)[i1 := m.p1 - m.n1][i2 := m.p2 - m.n2]
  {
    var w := Diff(p[i1 := m.p1][i2 := m.p2], q[i1 := m.n1][i2 := m.n2]);
    var v := Diff(p, q)[i1 := m.p1 - m.n1][i2 := m.p2 - m.n2];
    assert forall j :: 0 <= j < |w| ==> w[j] == v[j];
  }

  /**
   * When only the multipliers of `i1` and `i2` change, the residual of any example `i`
   * changes by the two decreases of `alpha_p - alpha_n` weighted by `K[i1][i]` and
   * `K[i2][i]`: exactly the increment the error cache applies.
   */
  lemma {:induction false} ResidualAfterPair(p: seq<real>, q: seq<real>, y: seq<real>, K: seq<seq<real>>,
                                             i1: int, i2: int, m: Multipliers, i: int)
    requires |p| == |q| == |y| == |K| && 0 <= i < |K| && |K[i]| == |y|
    requires 0 <= i1 < |y| && 0 <= i2 < |y| && i1 != i2
    requires |K[i1]| == |y| && |K[i2]| == |y| && K[i][i1] == K[i1][i] && K[i][i2] == K[i2][i]
    ensures Residual(p[i1 := m.p1][i2 := m.p2], q[i1 := m.n1][i2 := m.n2], y, K, i)
         == Residual(p, q, y, K, i) + Decrease(p[i1], q[i1], m.p1, m.n1) * K[i1][i] + Decrease(p[i2], q[i2], m.p2, m.n2) * K[i2][i]
  {
    var u, x1, x2 := Diff(p, q), m.p1 - m.n1, m.p2 - m.n2;
    DiffAfterPair(p, q, i1, i2, m);
    assert Residual(p[i1 := m.p1][i2 := m.p2], q[i1 := m.n1][i2 := m.n2], y, K, i) == y[i] - Dot(u[i1 := x1][i2 := x2], K[i]);
    ShiftedResidual(u, K[i], i1, i2, x1, x2,
                    Decrease(p[i1], q[i1], m.p1, m.n1), Decrease(p[i2], q[i2], m.p2, m.n2), K[i1][i], K[i2][i], y[i]);
  }

  /**
   * `yi - u.dot(v)` after writing two entries of `u`, each lowered by `d1`, `d2`, rises by
   * those decreases times the matching entries `k1`, `k2` of `v`.
   */
  lemma {:induction false} ShiftedResidual(u: seq<real>, v: seq<real>, i1: int, i2: int, x1: real, x2: real,
                                           d1: real, d2: real, k1: real, k2: real, yi: real)
    requires |u| == |v| && 0 <= i1 < |u| && 0 <= i2 < |u| && i1 != i2
    requires d1 == u[i1] - x1 && d2 == u[i2] - x2 && k1 == v[i1] && k2 == v[i2]
    ensures yi - Dot(u[i1 := x1][i2 := x2], v) == (yi - Dot(u, v)) + d1 * k1 + d2 * k2
  {
    DotAfterPair(u, v, i1, i2, x1, x2);
    ResidualShift(yi, Dot(u, v), Dot(u[i1 := x1][i2 := x2], v), d1, k1, d2, k2);
  }

  /** Subtracting a dot product that fell by `d1*k1 + d2*k2` raises the residual by as much. */
  lemma ResidualShift(yi: real, before: real, after: real, d1: real, k1: real, d2: real, k2: real)
    requires after == before + (-d1) * k1 + (-d2) * k2
    ensures yi - after == (yi - before) + d1 * k1 + d2 * k2
  {
    assert (-d1) * k1 == -(d1 * k1) && (-d2) * k2 == -(d2 * k2);
  }

  /**
   * A cache entry that held the exact residual before a step holds the exact residual of the
   * unsnapped multipliers after it: the incremental update agrees with recomputation.
   */
  lemma CacheAfterStepIsResidual(p: seq<real>, q: seq<real>, y: seq<real>, K: seq<seq<real>>, errors: seq<real>,
                                 free: set<int>, i1: int, i2: int, m: Multipliers, i: int)
    requires WellFormedInputs(y, K, 1.0) && |p| == |q| == |y| == |errors|
    requires 0 <= i1 < |y| && 0 <= i2 < |y| && i1 != i2 && 0 <= i < |y| && (i in free || i == i1 || i == i2)
    requires errors[i] == Residual(p, q, y, K, i)
    ensures CacheAfterStep(errors, K, free, i1, i2, Decrease(p[i1], q[i1], m.p1, m.n1), Decrease(p[i2], q[i2], m.p2, m.n2))[i]
         == Residual(p[i1 := m.p1][i2 := m.p2], q[i1 := m.n1][i2 := m.n2], y, K, i)
  {
    ResidualAfterPair(p, q, y, K, i1, i2, m, i);
  }

  function Ones(k: nat): seq<real>
  {
    seq(k, _ => 1.0)
  }

  /** The equality constraint's left-hand side `sum(alphas_p - alphas_n)`. */
  function Balance(p: seq<real>, q: seq<real>): real
    requires |p| == |q|
  {
    Dot(Diff(p, q), Ones(|p|))
  }

  /** Writing the multipliers `m` at `i1` and `i2` moves the balance by the two changes of `alpha_p - alpha_n`. */
  lemma {:induction false} BalanceAfterPair(p: seq<real>, q: seq<real>, i1: int, i2: int, m: Multipliers)
    requires |p| == |q| && 0 <= i1 < |p| && 0 <= i2 < |p| && i1 != i2
    ensures Balance(p[i1 := m.p1][i2 := m.p2], q[i1 := m.n1][i2 := m.n2])
         == Balance(p, q) + ((m.p1 - m.n1) - (p[i1] - q[i1])) + ((m.p2 - m.n2) - (p[i2] - q[i2]))
  {
    var ones := Ones(|p|);
    DiffAfterPair(p, q, i1, i2, m);
    DotAfterPair(Diff(p, q), ones, i1, i2, m.p1 - m.n1, m.p2 - m.n2);
    assert ones[i1] == 1.0 && ones[i2] == 1.0;
  }

  /** Snapping two complementary multipliers moves their difference by at most `1e-10*C`. */
  lemma SnapDifference(a: real, b: real, C: real)
    requires C > 0.0 && 0.0 <= a <= C && 0.0 <= b <= C && (a == 0.0 || b == 0.0)
    ensures Abs((Snap(a, C) - Snap(b, C)) - (a - b)) <= SnapFraction * C
  {
  }

  /**
   * Replacing the pair's multipliers by ones whose differences `alpha_p - alpha_n` are each
   * within `bound` of those of `m` moves the balance by at most `2*bound` from where `m` puts it.
   */
  lemma {:induction false} BalanceNear(p: seq<real>, q: seq<real>, i1: int, i2: int, m: Multipliers, s: Multipliers, bound: real)
    requires |p| == |q| && 0 <= i1 < |p| && 0 <= i2 < |p| && i1 != i2
    requires Abs((s.p1 - s.n1) - (m.p1 - m.n1)) <= bound && Abs((s.p2 - s.n2) - (m.p2 - m.n2)) <= bound
    ensures Abs(Balance(p[i1 := s.p1][i2 := s.p2], q[i1 := s.n1][i2 := s.n2])
              - Balance(p[i1 := m.p1][i2 := m.p2], q[i1 := m.n1][i2 := m.n2])) <= 2.0 * bound
  {
    BalanceAfterPair(p, q, i1, i2, m);
    BalanceAfterPair(p, q, i1, i2, s);
  }

  /**
   * The equality constraint `sum(alphas_p - alphas_n) = 0` across a step: a pair step that
   * keeps `gamma` leaves the sum unchanged before the precision snap, and since each example
   * has a zero multiplier that the snap keeps, the snap moves the sum by at most `2e-10*C`.
   */
  lemma {:induction false} EqualityConstraintDrift(p: seq<real>, q: seq<real>, i1: int, i2: int, m: Multipliers, C: real)
    requires |p| == |q| && 0 <= i1 < |p| && 0 <= i2 < |p| && i1 != i2 && C > 0.0
    requires InBox(m, C) && Complementary(m) && Gamma(m) == Gamma(Multipliers(p[i1], q[i1], p[i2], q[i2]))
    ensures Balance(p[i1 := m.p1][i2 := m.p2], q[i1 := m.n1][i2 := m.n2]) == Balance(p, q)
    ensures var s := SnapAll(m, C);
            Abs(Balance(p[i1 := s.p1][i2 := s.p2], q[i1 := s.n1][i2 := s.n2]) - Balance(p, q)) <= 2.0 * SnapFraction * C
  {
    BalanceAfterPair(p, q, i1, i2, m);
    SnapDifference(m.p1, m.n1, C);
    SnapDifference(m.p2, m.n2, C);
    BalanceNear(p, q, i1, i2, m, SnapAll(m, C), SnapFraction * C);
  }

  /**
   * The value an example with multiplier `alpha_p` and error `E` offers to `b_up` (and
   * tests against `b_low`): `E - epsilon` when `alpha_p > 0`, else `E + epsilon`.
   */
  function UpValue(alphaP: real, e: real, epsilon: real): real
  {
    if alphaP > 0.0 then e - epsilon else e + epsilon
  }

  /**
   * The value an example with multiplier `alpha_n` and error `E` offers to `b_low` (and
   * tests against `b_up`): `E + epsilon` when `alpha_n > 0`, else `E - epsilon`.
   */
  function LowValue(alphaN: real, e: real, epsilon: real): real
  {
    if alphaN > 0.0 then e + epsilon else e - epsilon
  }

  /** `UpValue` of every example. */
  function TubeUp(p: seq<real>, errors: seq<real>, epsilon: real): (r: seq<real>)
    requires |p| == |errors|
    ensures |r| == |errors|
  {
    seq(|errors|, i requires 0 <= i < |errors| => UpValue(p[i], errors[i], epsilon))
  }

  /** `LowValue` of every example. */
  function TubeLow(q: seq<real>, errors: seq<real>, epsilon: real): (r: seq<real>)
    requires |q| == |errors|
    ensures |r| == |errors|
  {
    seq(|errors|, i requires 0 <= i < |errors| => LowValue(q[i], errors[i], epsilon))
  }

  /**
   * The KKT test of `_examine_example` and the choice of the partner index. `inUp` says that
   * `i2` may be paired against `b_low` (it is in I0, I1 or I3) with its value `up`, and
   * `inLow` that it may be paired against `b_up` (I0, I1 or I2) with its value `low`. `None`
   * exactly when neither gap exceeds `2*tol`; otherwise one of the two threshold indices, the
   * one across the violated gap when `i2` sits on one side only, and for an index whose two
   * values agree (a free one) the index across the larger gap, `b_low`'s on a tie.
   */
  function SelectPartner(inUp: bool, inLow: bool, up: real, low: real, bUp: real, bLow: real,
                         bUpIdx: int, bLowIdx: int, tol: real): (r: Option<int>)
    ensures r.None? <==> !(inUp && bLow - up > 2.0 * tol) && !(inLow && low - bUp > 2.0 * tol)
    ensures r.Some? ==> r.value == bLowIdx || r.value == bUpIdx
    ensures r.Some? && !inLow ==> r.value == bLowIdx
    ensures r.Some? && !inUp ==> r.value == bUpIdx
    ensures r.Some? && inUp && inLow && up == low ==> r.value == if up - bUp > bLow - up then bUpIdx else bLowIdx
  {
    if inUp && bLow - up > 2.0 * tol then
      Some(if inLow && up - bUp > bLow - up then bUpIdx else bLowIdx)
    else if inLow && low - bUp > 2.0 * tol then
      Some(if inUp && bLow - low > low - bUp then bLowIdx else bUpIdx)
    else None
  }

  /** `set(range(k))`. */
  function AllIndices(k: nat): (s: set<int>)
    ensures forall i :: i in s <==> 0 <= i < k
  {
    if k == 0 then {} else AllIndices(k - 1) + {k - 1}
  }

  class SmoRegression {
    const n: nat
    const y: seq<real>
    const K: seq<seq<real>>
    const C: real
    const epsilon: real
    const tol: real

    /** The multipliers of the upper side of the tube, one per example. */
    const alphasP: array<real>
    /** The multipliers of the lower side of the tube, one per example. */
    const alphasN: array<real>
    /** The error cache, one entry per example. */
    const errors: array<real>

    /** `{i : 0 < alphas_p[i] < C or 0 < alphas_n[i] < C}` */
    var I0: set<int>
    /** `{i : alphas_p[i] = 0, alphas_n[i] = 0}` */
    var I1: set<int>
    /** `{i : alphas_p[i] = 0, alphas_n[i] = C}` */
    var I2: set<int>
    /** `{i : alphas_p[i] = C, alphas_n[i] = 0}` */
    var I3: set<int>

    var bUp: real
    var bLow: real
    var bUpIdx: int
    var bLowIdx: int
    /** The bias, set when the outer loop ends. */
    var b: real

    /** The inputs and the arrays: well-formed inputs, two multipliers and one cache entry per example. */
    ghost predicate Inputs()
    {
      && WellFormedInputs(y, K, C) && n == |y|
      && alphasP.Length == n && alphasN.Length == n && errors.Length == n
      && alphasP != alphasN && alphasP != errors && alphasN != errors
    }

    /** Every index set holds example indices only. */
    ghost predicate SetsInRange()
      reads this`I0, this`I1, this`I2, this`I3
    {
      forall i :: i in I0 || i in I1 || i in I2 || i in I3 ==> 0 <= i < n
    }

    /** The shape of the state: index sets within range, threshold indices valid. */
    ghost predicate Shape()
      reads this`I0, this`I1, this`I2, this`I3, this`bUpIdx, this`bLowIdx
    {
      Inputs() && SetsInRange() && 0 <= bUpIdx < n && 0 <= bLowIdx < n
    }

    /** Index `i` sits in exactly the sets its two multipliers call for. */
    ghost predicate Categorized(i: int)
      reads this`I0, this`I1, this`I2, this`I3, alphasP, alphasN
      requires 0 <= i < alphasP.Length && i < alphasN.Length
    {
      && (i in I0 <==> InI0(alphasP[i], alphasN[i], C))
      && (i in I1 <==> InI1(alphasP[i], alphasN[i]))
      && (i in I2 <==> InI2(alphasP[i], alphasN[i], C))
      && (i in I3 <==> InI3(alphasP[i], alphasN[i], C))
    }

    /** Every multiplier lies in the box `[0, C]` and each example has at most one non-zero multiplier. */
    ghost predicate Boxed()
      reads alphasP, alphasN
    {
      && Inputs()
      && (forall i :: 0 <= i < n ==> 0.0 <= alphasP[i] <= C && 0.0 <= alphasN[i] <= C)
      && (forall i :: 0 <= i < n ==> alphasP[i] == 0.0 || alphasN[i] == 0.0)
    }

    /** The multipliers are boxed and every index is categorized. */
    ghost predicate Consistent()
      reads this`I0, this`I1, this`I2, this`I3, alphasP, alphasN
    {
      Boxed() && forall i :: 0 <= i < n ==> Categorized(i)
    }

    /** The invariant kept between steps. */
    ghost predicate Valid()
      reads this`I0, this`I1, this`I2, this`I3, this`bUpIdx, this`bLowIdx, alphasP, alphasN
    {
      Shape() && Consistent()
    }

    /** The four multipliers of the pair `(i1, i2)`. */
    ghost function PairOf(i1: int, i2: int): Multipliers
      reads alphasP, alphasN
      requires Inputs() && 0 <= i1 < n && 0 <= i2 < n
    {
      Multipliers(alphasP[i1], alphasN[i1], alphasP[i2], alphasN[i2])
    }

    /** The pair step of `_take_step` on the current multipliers of `(i1, i2)` with errors `E1`, `E2`. */
    ghost function PairSolution(i1: int, i2: int, E1: real, E2: real): (Multipliers, bool)
      reads this, alphasP, alphasN
      requires Valid() && 0 <= i1 < n && 0 <= i2 < n
    {
      PairSolve(PairOf(i1, i2), E1, E2, K[i1][i1], K[i2][i2], K[i1][i2], C, epsilon)
    }

    /** `up`, attained at `idx`, is the smallest `b_up` value over `S` (or the sentinel with index -1). */
    ghost predicate UpThreshold(up: real, idx: int, S: set<int>)
      reads alphasP, errors
      requires Inputs() && forall j :: j in S ==> 0 <= j < n
    {
      IsMinOver(up, idx, S, TubeUp(alphasP[..], errors[..], epsilon))
    }

    /** `low`, attained at `idx`, is the largest `b_low` value over `S` (or the sentinel with index -1). */
    ghost predicate LowThreshold(low: real, idx: int, S: set<int>)
      reads alphasN, errors
      requires Inputs() && forall j :: j in S ==> 0 <= j < n
    {
      IsMaxOver(low, idx, S, TubeLow(alphasN[..], errors[..], epsilon))
    }

    /** Index `i` of a step joins the `b_low` candidates when it is outside I0 and in I1 or I2. */
    ghost function LowCandidate(i: int): set<int>
      reads this`I0, this`I1, this`I2
    {
      if i !in I0 && (i in I1 || i in I2) then {i} else {}
    }

    /** Index `i` of a step joins the `b_up` candidates when it is outside I0 and in I1 or I3. */
    ghost function UpCandidate(i: int): set<int>
      reads this`I0, this`I1, this`I3
    {
      if i !in I0 && (i in I1 || i in I3) then {i} else {}
    }

    /** The candidates for `b_low` after a step: I0, and `i1`, `i2` when they are in I1 or I2. */
    ghost function LowCandidates(i1: int, i2: int): set<int>
      reads this`I0, this`I1, this`I2
    {
      I0 + LowCandidate(i1) + LowCandidate(i2)
    }

    /** The candidates for `b_up` after a step: I0, and `i1`, `i2` when they are in I1 or I3. */
    ghost function UpCandidates(i1: int, i2: int): set<int>
      reads this`I0, this`I1, this`I3
    {
      I0 + UpCandidate(i1) + UpCandidate(i2)
    }

    /**
     * The initial state: all multipliers and the error cache zero, every example in I1,
     * both threshold indices 0 with `b_up = y[0] + epsilon` and `b_low = y[0] - epsilon`.
     */
    constructor (y: seq<real>, K: seq<seq<real>>, C: real, epsilon: real, tol: real)
      requires WellFormedInputs(y, K, C) && |y| >= 1
      ensures Valid() && fresh(alphasP) && fresh(alphasN) && fresh(errors)
      ensures this.y == y && this.K == K && this.C == C && this.epsilon == epsilon && this.tol == tol
      ensures alphasP[..] == seq(|y|, _ => 0.0) && alphasN[..] == seq(|y|, _ => 0.0)
      ensures errors[..] == seq(|y|, _ => 0.0)
      ensures I0 == {} && I2 == {} && I3 == {} && I1 == AllIndices(|y|)
      ensures bUpIdx == 0 && bLowIdx == 0 && bUp == y[0] + epsilon && bLow == y[0] - epsilon
    {
      n := |y|;
      this.y := y;
      this.K := K;
      this.C := C;
      this.epsilon := epsilon;
      this.tol := tol;
      alphasP := new real[|y|](_ => 0.0);
      alphasN := new real[|y|](_ => 0.0);
      errors := new real[|y|](_ => 0.0);
      I0, I2, I3 := {}, {}, {};
      I1 := AllIndices(|y|);
      bUpIdx, bLowIdx := 0, 0;
      bUp, bLow := y[0] + epsilon, y[0] - epsilon;
      b := 0.0;
    }

    /** The residual of example `i` recomputed from the multipliers and the kernel row `K[i]`. */
    method FreshError(i: int) returns (e: real)
      requires Inputs() && 0 <= i < n
      ensures e == Residual(alphasP[..], alphasN[..], y, K, i)
    {
      ghost var u := Diff(alphasP[..], alphasN[..]);
      var s := 0.0;
      var j := 0;
      while j < n
        invariant 0 <= j <= n
        invariant s == Dot(u[..j], K[i][..j])
      {
        DotPrefix(u, K[i], j);
        s := s + (alphasP[j] - alphasN[j]) * K[i][j];
        j := j + 1;
      }
      assert u[..n] == u && K[i][..n] == K[i];
      e := y[i] - s;
    }

    /**
     * The error cache after a step: every index of I0 other than `i1`, `i2`, and then `i1`
     * and `i2` themselves, receive the decreases `d1`, `d2` of `alpha_p - alpha_n` weighted
     * by their kernel entries; no other entry changes.
     */
    method UpdateErrorCache(i1: int, i2: int, d1: real, d2: real)
      requires Valid() && 0 <= i1 < n && 0 <= i2 < n && i1 != i2
      modifies errors
      ensures errors[..] == CacheAfterStep(old(errors[..]), K, I0, i1, i2, d1, d2)
    {
      ShiftFree(i1, i2, d1, d2);
      ghost var swept := errors[..];
      var shift1 := d1 * K[i1][i1] + d2 * K[i1][i2];
      var shift2 := d1 * K[i1][i2] + d2 * K[i2][i2];
      assert shift1 == Shift(K, i1, i2, d1, d2, i1) by {
        assert K[i2][i1] == K[i1][i2];
      }
      assert shift2 == Shift(K, i1, i2, d1, d2, i2);
      errors[i1] := errors[i1] + shift1;
      errors[i2] := errors[i2] + shift2;
      ghost var expected := CacheAfterStep(old(errors[..]), K, I0, i1, i2, d1, d2);
      forall i | 0 <= i < n
        ensures errors[i] == expected[i]
      {
        assert old(errors[..])[i] == old(errors[i]);
        if i == i1 {
          assert swept[i1] == old(errors[i1]);
        } else if i == i2 {
          assert swept[i2] == old(errors[i2]);
        } else {
          assert errors[i] == swept[i];
        }
      }
      assert errors[..] == expected;
    }

    /** The loop over I0 of the cache update: every free index other than `i1`, `i2` moves by its `Shift`. */
    method ShiftFree(i1: int, i2: int, d1: real, d2: real)
      requires Valid() && 0 <= i1 < n && 0 <= i2 < n
      modifies errors
      ensures forall i :: 0 <= i < n ==>
        errors[i] == old(errors[i]) + (if i in I0 && i != i1 && i != i2 then Shift(K, i1, i2, d1, d2, i) else 0.0)
    {
      var rest := I0;
      while rest != {}
        invariant rest <= I0
        invariant forall i :: 0 <= i < n ==>
          errors[i] == old(errors[i]) + (if i in I0 - rest && i != i1 && i != i2 then Shift(K, i1, i2, d1, d2, i) else 0.0)
        decreases rest
      {
        EmptyOrMember(rest);
        var i :| i in rest;
        if i != i1 && i != i2 {
          errors[i] := errors[i] + d1 * K[i1][i] + d2 * K[i2][i];
        }
        rest := rest - {i};
      }
      assert I0 - {} == I0;
    }

    /** Puts `i` into exactly the sets its new multipliers call for, and leaves every other index where it was. */
    method Recategorize(i: int)
      requires Shape() && 0 <= i < n
      modifies this`I0, this`I1, this`I2, this`I3
      ensures Shape() && Categorized(i)
      ensures forall j :: 0 <= j < n && j != i && old(Categorized(j)) ==> Categorized(j)
      ensures I0 == if InI0(alphasP[i], alphasN[i], C) then old(I0) + {i} else old(I0) - {i}
      ensures I1 == if InI1(alphasP[i], alphasN[i]) then old(I1) + {i} else old(I1) - {i}
      ensures I2 == if InI2(alphasP[i], alphasN[i], C) then old(I2) + {i} else old(I2) - {i}
      ensures I3 == if InI3(alphasP[i], alphasN[i], C) then old(I3) + {i} else old(I3) - {i}
    {
      var p, q := alphasP[i], alphasN[i];
      I0 := if 0.0 < p < C || 0.0 < q < C then I0 + {i} else I0 - {i};
      I1 := if p == 0.0 && q == 0.0 then I1 + {i} else I1 - {i};
      I2 := if p == 0.0 && q == C then I2 + {i} else I2 - {i};
      I3 := if p == C && q == 0.0 then I3 + {i} else I3 - {i};
    }

    /**
     * The scan of I0 behind both thresholds: the smallest `b_up` value and the largest
     * `b_low` value over I0, `E - epsilon` for a free `alpha_p` and `E + epsilon` for a free
     * `alpha_n`.
     */
    method ScanFree() returns (up: real, upIdx: int, low: real, lowIdx: int)
      requires Valid()
      ensures UpThreshold(up, upIdx, I0)
      ensures LowThreshold(low, lowIdx, I0)
    {
      ghost var ups, lows := TubeUp(alphasP[..], errors[..], epsilon), TubeLow(alphasN[..], errors[..], epsilon);
      upIdx, lowIdx := -1, -1;
      up, low := FloatMax, -FloatMax;
      var rest := I0;
      while rest != {}
        invariant rest <= I0
        invariant IsMinOver(up, upIdx, I0 - rest, ups)
        invariant IsMaxOver(low, lowIdx, I0 - rest, lows)
        decreases rest
      {
        EmptyOrMember(rest);
        var i :| i in rest;
        assert Categorized(i);
        assert ups[i] == lows[i] == if 0.0 < alphasP[i] < C then errors[i] - epsilon else errors[i] + epsilon;
        if 0.0 < alphasP[i] < C && errors[i] - epsilon > low {
          low, lowIdx := errors[i] - epsilon, i;
        } else if 0.0 < alphasN[i] < C && errors[i] + epsilon > low {
          low, lowIdx := errors[i] + epsilon, i;
        }
        if 0.0 < alphasP[i] < C && errors[i] - epsilon < up {
          up, upIdx := errors[i] - epsilon, i;
        } else if 0.0 < alphasN[i] < C && errors[i] + epsilon < up {
          up, upIdx := errors[i] + epsilon, i;
        }
        rest := rest - {i};
      }
      assert I0 - {} == I0;
    }

    /**
     * One of the two indices of a step: outside I0 it joins the `b_low` scan with
     * `E + epsilon` from I2 or `E - epsilon` from I1, and the `b_up` scan with `E - epsilon`
     * from I3 or `E + epsilon` from I1.
     */
    method ScanStepIndex(i: int, up: real, upIdx: int, low: real, lowIdx: int, ghost upSet: set<int>, ghost lowSet: set<int>)
      returns (up': real, upIdx': int, low': real, lowIdx': int)
      requires Valid() && 0 <= i < n
      requires (forall j :: j in upSet ==> 0 <= j < n) && (forall j :: j in lowSet ==> 0 <= j < n)
      requires UpThreshold(up, upIdx, upSet)
      requires LowThreshold(low, lowIdx, lowSet)
      ensures UpThreshold(up', upIdx', upSet + UpCandidate(i))
      ensures LowThreshold(low', lowIdx', lowSet + LowCandidate(i))
    {
      ghost var ups, lows := TubeUp(alphasP[..], errors[..], epsilon), TubeLow(alphasN[..], errors[..], epsilon);
      assert Categorized(i);
      up', upIdx', low', lowIdx' := up, upIdx, low, lowIdx;
      if i !in I0 {
        if i in I2 && errors[i] + epsilon > low {
          low', lowIdx' := errors[i] + epsilon, i;
        } else if i in I1 && errors[i] - epsilon > low {
          low', lowIdx' := errors[i] - epsilon, i;
        }
        if i in I3 && errors[i] - epsilon < up {
          up', upIdx' := errors[i] - epsilon, i;
        } else if i in I1 && errors[i] + epsilon < up {
          up', upIdx' := errors[i] + epsilon, i;
        }
      }
      assert upSet + {} == upSet && lowSet + {} == lowSet;
    }

    /**
     * The threshold rescan after a step (over I0, `i1` and `i2` only): `b_up` is the smallest
     * `b_up` value over its candidates and `b_low` the largest `b_low` value over its
     * candidates, each with an index attaining it, or -1 with the `sys.float_info.max`
     * sentinel when no candidate beats it.
     */
    method Thresholds(i1: int, i2: int) returns (up: real, upIdx: int, low: real, lowIdx: int)
      requires Valid() && 0 <= i1 < n && 0 <= i2 < n
      ensures UpThreshold(up, upIdx, UpCandidates(i1, i2))
      ensures LowThreshold(low, lowIdx, LowCandidates(i1, i2))
    {
      up, upIdx, low, lowIdx := ScanFree();
      up, upIdx, low, lowIdx := ScanStepIndex(i1, up, upIdx, low, lowIdx, I0, I0);
      up, upIdx, low, lowIdx := ScanStepIndex(i2, up, upIdx, low, lowIdx, I0 + UpCandidate(i1), I0 + LowCandidate(i1));
    }

    /**
     * Stores the rescanned thresholds, taken over the multipliers and the cache as they are.
     * `found` holds when both are found (neither index is -1), and both indices are then
     * example indices; otherwise the step raises "unexpected status".
     */
    method RescanThresholds(i1: int, i2: int) returns (found: bool)
      requires Valid() && 0 <= i1 < n && 0 <= i2 < n
      modifies this`bUp, this`bUpIdx, this`bLow, this`bLowIdx
      ensures IsMinOver(bUp, bUpIdx, old(UpCandidates(i1, i2)), old(TubeUp(alphasP[..], errors[..], epsilon)))
      ensures IsMaxOver(bLow, bLowIdx, old(LowCandidates(i1, i2)), old(TubeLow(alphasN[..], errors[..], epsilon)))
      ensures found <==> bUpIdx != -1 && bLowIdx != -1
      ensures found ==> 0 <= bUpIdx < n && 0 <= bLowIdx < n
    {
      bUp, bUpIdx, bLow, bLowIdx := Thresholds(i1, i2);
      found := bUpIdx != -1 && bLowIdx != -1;
    }

    /**
     * Writes the snapped multipliers of `i1` and `i2`: the box and complementarity hold
     * afterwards, and every other index is still categorized.
     */
    method WritePair(i1: int, i2: int, s: Multipliers)
      requires Valid() && 0 <= i1 < n && 0 <= i2 < n && i1 != i2
      requires InBox(s, C) && Complementary(s)
      modifies alphasP, alphasN
      ensures Shape() && Boxed()
      ensures alphasP[..] == old(alphasP[..])[i1 := s.p1][i2 := s.p2]
      ensures alphasN[..] == old(alphasN[..])[i1 := s.n1][i2 := s.n2]
      ensures forall j :: 0 <= j < n && j != i1 && j != i2 ==> Categorized(j)
    {
      alphasP[i1], alphasN[i1] := s.p1, s.n1;
      alphasP[i2], alphasN[i2] := s.p2, s.n2;
      forall j | 0 <= j < n && j != i1 && j != i2
        ensures Categorized(j)
      {
        assert old(Categorized(j));
      }
    }

    /**
     * Stores the snapped multipliers of `i1` and `i2` and recategorizes both; no other
     * multiplier and no other index's membership changes.
     */
    method StoreMultipliers(i1: int, i2: int, s: Multipliers)
      requires Valid() && 0 <= i1 < n && 0 <= i2 < n && i1 != i2
      requires InBox(s, C) && Complementary(s)
      modifies this`I0, this`I1, this`I2, this`I3, alphasP, alphasN
      ensures Valid()
      ensures alphasP[..] == old(alphasP[..])[i1 := s.p1][i2 := s.p2]
      ensures alphasN[..] == old(alphasN[..])[i1 := s.n1][i2 := s.n2]
      ensures I0 - {i1, i2} == old(I0) - {i1, i2} && I1 - {i1, i2} == old(I1) - {i1, i2}
      ensures I2 - {i1, i2} == old(I2) - {i1, i2} && I3 - {i1, i2} == old(I3) - {i1, i2}
    {
      WritePair(i1, i2, s);
      Recategorize(i1);
      Recategorize(i2);
    }

    /**
     * The cache update with the decreases of the unsnapped multipliers `m`, then the snapped
     * multipliers `s` with the recategorization of `i1` and `i2`.
     */
    method MovePair(i1: int, i2: int, m: Multipliers, s: Multipliers)
      requires Valid() && 0 <= i1 < n && 0 <= i2 < n && i1 != i2
      requires InBox(s, C) && Complementary(s)
      modifies this`I0, this`I1, this`I2, this`I3, alphasP, alphasN, errors
      ensures Valid()
      ensures alphasP[..] == old(alphasP[..])[i1 := s.p1][i2 := s.p2]
      ensures alphasN[..] == old(alphasN[..])[i1 := s.n1][i2 := s.n2]
      ensures errors[..] == CacheAfterStep(old(errors[..]), K, old(I0), i1, i2,
                              Decrease(old(alphasP[i1]), old(alphasN[i1]), m.p1, m.n1),
                              Decrease(old(alphasP[i2]), old(alphasN[i2]), m.p2, m.n2))
      ensures I0 - {i1, i2} == old(I0) - {i1, i2} && I1 - {i1, i2} == old(I1) - {i1, i2}
      ensures I2 - {i1, i2} == old(I2) - {i1, i2} && I3 - {i1, i2} == old(I3) - {i1, i2}
    {
      UpdateErrorCache(i1, i2, Decrease(alphasP[i1], alphasN[i1], m.p1, m.n1), Decrease(alphasP[i2], alphasN[i2], m.p2, m.n2));
      StoreMultipliers(i1, i2, s);
    }

    /**
     * Applies a step to the pair: the cache update with the decreases of the unsnapped
     * multipliers `m`, the snapped multipliers `s` with the recategorization, and the
     * threshold rescan.
     */
    method ApplyStep(i1: int, i2: int, m: Multipliers, s: Multipliers) returns (r: Result<bool>)
      requires Valid() && 0 <= i1 < n && 0 <= i2 < n && i1 != i2
      requires InBox(s, C) && Complementary(s)
      modifies this`I0, this`I1, this`I2, this`I3, this`bUp, this`bUpIdx, this`bLow, this`bLowIdx, alphasP, alphasN, errors
      ensures r.Success? ==> r.value
      ensures r.Success? <==> Valid()
      ensures r.Failure? <==> bUpIdx == -1 || bLowIdx == -1
      ensures alphasP[..] == old(alphasP[..])[i1 := s.p1][i2 := s.p2]
      ensures alphasN[..] == old(alphasN[..])[i1 := s.n1][i2 := s.n2]
      ensures errors[..] == CacheAfterStep(old(errors[..]), K, old(I0), i1, i2,
                              Decrease(old(alphasP[i1]), old(alphasN[i1]), m.p1, m.n1),
                              Decrease(old(alphasP[i2]), old(alphasN[i2]), m.p2, m.n2))
      ensures Consistent() && SetsInRange()
      ensures I0 - {i1, i2} == old(I0) - {i1, i2} && I1 - {i1, i2} == old(I1) - {i1, i2}
      ensures I2 - {i1, i2} == old(I2) - {i1, i2} && I3 - {i1, i2} == old(I3) - {i1, i2}
      ensures UpThreshold(bUp, bUpIdx, UpCandidates(i1, i2))
      ensures LowThreshold(bLow, bLowIdx, LowCandidates(i1, i2))
    {
      MovePair(i1, i2, m, s);
      var found := RescanThresholds(i1, i2);
      r := if found then Success(true) else Failure(UnexpectedStatus);
    }

    /** Stores `e` as the cached error of `i`. */
    method StoreError(i: int, e: real)
      requires Valid() && 0 <= i < n
      modifies errors
      ensures Valid() && errors[..] == old(errors[..])[i := e]
    {
      errors[i] := e;
    }

    /**
     * The error refresh of `_examine_example` for an index outside I0: the residual is
     * recomputed and stored, and may lower `b_up` (from I1 with `E + epsilon`, from I3 with
     * `E - epsilon`) or, when an I1 index did not lower `b_up`, or from I2, raise `b_low`
     * (with `E - epsilon`, `E + epsilon`). A threshold that moves takes `i2` as its index.
     */
    method RefreshError(i2: int) returns (e: real)
      requires Valid() && 0 <= i2 < n && i2 !in I0
      modifies errors, this`bUp, this`bUpIdx, this`bLow, this`bLowIdx
      ensures Valid()
      ensures e == old(Residual(alphasP[..], alphasN[..], y, K, i2))
      ensures errors[..] == old(errors[..])[i2 := e]
      ensures (bUp == old(bUp) && bUpIdx == old(bUpIdx)) || (bUp < old(bUp) && bUpIdx == i2 && bUp == UpValue(alphasP[i2], e, epsilon))
      ensures (bLow == old(bLow) && bLowIdx == old(bLowIdx)) || (bLow > old(bLow) && bLowIdx == i2 && bLow == LowValue(alphasN[i2], e, epsilon))
      ensures i2 in I1 || i2 in I3 ==> bUp <= UpValue(alphasP[i2], e, epsilon)
      ensures i2 in I2 || (i2 in I1 && old(bUp) <= UpValue(alphasP[i2], e, epsilon)) ==> bLow >= LowValue(alphasN[i2], e, epsilon)
      ensures i2 in I2 ==> bUp == old(bUp) && bUpIdx == old(bUpIdx)
      ensures i2 in I3 ==> bLow == old(bLow) && bLowIdx == old(bLowIdx)
      ensures i2 in I1 && bUp != old(bUp) ==> bLow == old(bLow) && bLowIdx == old(bLowIdx)
    {
      assert Categorized(i2);
      e := FreshError(i2);
      StoreError(i2, e);
      if i2 in I1 {
        if e + epsilon < bUp {
          SetUp(e + epsilon, i2);
        } else if e - epsilon > bLow {
          SetLow(e - epsilon, i2);
        }
      } else if i2 in I2 && e + epsilon > bLow {
        SetLow(e + epsilon, i2);
      } else if i2 in I3 && e - epsilon < bUp {
        SetUp(e - epsilon, i2);
      }
    }

    /** Moves `b_up` to `v`, attained at example `i`. */
    method SetUp(v: real, i: int)
      requires Valid() && 0 <= i < n
      modifies this`bUp, this`bUpIdx
      ensures Valid() && bUp == v && bUpIdx == i
    {
      bUp, bUpIdx := v, i;
    }

    /** Moves `b_low` to `v`, attained at example `i`. */
    method SetLow(v: real, i: int)
      requires Valid() && 0 <= i < n
      modifies this`bLow, this`bLowIdx
      ensures Valid() && bLow == v && bLowIdx == i
    {
      bLow, bLowIdx := v, i;
    }

    /** The pair step of `_take_step` on the current multipliers of `(i1, i2)` and their cached errors. */
    method SolveCurrentPair(i1: int, i2: int) returns (m: Multipliers, changed: bool)
      requires Valid() && 0 <= i1 < n && 0 <= i2 < n
      ensures (m, changed) == PairSolution(i1, i2, errors[i1], errors[i2])
      ensures InBox(m, C) && Complementary(m) && Gamma(m) == Gamma(PairOf(i1, i2))
      ensures !changed ==> m == PairOf(i1, i2)
    {
      var m0 := Multipliers(alphasP[i1], alphasN[i1], alphasP[i2], alphasN[i2]);
      m, changed := SolvePair(m0, errors[i1], errors[i2], K[i1][i1], K[i2][i2], K[i1][i2], C, epsilon);
    }

    /**
     * `_take_step`: jointly optimises the multipliers of `i1` and `i2`. It returns `false` and
     * changes nothing when `i1 == i2` or when no case changed the multipliers. Otherwise the
     * solved multipliers `m` are in the box, complementary and keep `gamma`; only positions
     * `i1` and `i2` of the multipliers are written, with the snapped `m`; the error cache
     * moves at I0, `i1` and `i2` by the decreases of the unsnapped `m`; `i1` and `i2` are
     * recategorized and no other index moves between sets; and the thresholds are rescanned.
     * A rescan that finds no index for either threshold raises "unexpected status".
     */
    method TakeStep(i1: int, i2: int) returns (r: Result<bool>, ghost m: Multipliers)
      requires Valid() && 0 <= i1 < n && 0 <= i2 < n
      modifies this, alphasP, alphasN, errors
      ensures r.Success? ==> Valid()
      ensures i1 == i2 ==> r == Success(false)
      ensures r == Success(false) ==> unchanged(this, alphasP, alphasN, errors)
      ensures r != Success(false) ==>
        && i1 != i2 && InBox(m, C) && Complementary(m) && Gamma(m) == old(Gamma(PairOf(i1, i2)))
        && alphasP[..] == old(alphasP[..])[i1 := SnapAll(m, C).p1][i2 := SnapAll(m, C).p2]
        && alphasN[..] == old(alphasN[..])[i1 := SnapAll(m, C).n1][i2 := SnapAll(m, C).n2]
        && errors[..] == CacheAfterStep(old(errors[..]), K, old(I0), i1, i2,
                           Decrease(old(alphasP[i1]), old(alphasN[i1]), m.p1, m.n1),
                           Decrease(old(alphasP[i2]), old(alphasN[i2]), m.p2, m.n2))
      ensures r != Success(false) ==>
        && Consistent() && SetsInRange()
        && I0 - {i1, i2} == old(I0) - {i1, i2} && I1 - {i1, i2} == old(I1) - {i1, i2}
        && I2 - {i1, i2} == old(I2) - {i1, i2} && I3 - {i1, i2} == old(I3) - {i1, i2}
        && UpThreshold(bUp, bUpIdx, UpCandidates(i1, i2))
        && LowThreshold(bLow, bLowIdx, LowCandidates(i1, i2))
      ensures r.Failure? <==> r != Success(false) && (bUpIdx == -1 || bLowIdx == -1)
      ensures i1 != i2 ==> m == old(PairSolution(i1, i2, errors[i1], errors[i2])).0
      ensures r == Success(false) <==> i1 == i2 || !old(PairSolution(i1, i2, errors[i1], errors[i2])).1
    {
      m := PairOf(i1, i2);
      if i1 == i2 {
        return Success(false), m;
      }
      var solved, changed := SolveCurrentPair(i1, i2);
      m := solved;
      if !changed {
        return Success(false), m;
      }
      r := ApplyStep(i1, i2, solved, SnapAll(solved, C));
    }

    /**
     * `_examine_example`: the error `e2` of `i2` is the cached one for a free index, else it
     * is recomputed, stored, and used to lower `b_up` or raise `b_low` by the rules for I1,
     * I2 and I3; `up`, `low` and their indices are the thresholds after that refresh. The
     * partner is exactly what `SelectPartner` picks from them and the tube-shifted values of
     * `e2`: none when `i2` satisfies the KKT test within `2*tol`, and then nothing else happens
     * and the result is `false` (a free `i2` leaves the whole state untouched). Otherwise the
     * step on the partner and `i2` is taken, and the result is `false` exactly when the partner
     * is `i2` itself or the pair step changes nothing.
     */
    method ExamineExample(i2: int) returns (r: Result<bool>, ghost e2: real, ghost partner: Option<int>,
                                           ghost up: real, ghost upIdx: int, ghost low: real, ghost lowIdx: int)
      requires Valid() && 0 <= i2 < n
      modifies this, alphasP, alphasN, errors
      ensures r.Success? ==> Valid()
      ensures e2 == if old(i2 in I0) then old(errors[i2]) else old(Residual(alphasP[..], alphasN[..], y, K, i2))
      ensures old(i2 in I0) ==> up == old(bUp) && upIdx == old(bUpIdx) && low == old(bLow) && lowIdx == old(bLowIdx)
      ensures (up == old(bUp) && upIdx == old(bUpIdx)) || (up < old(bUp) && upIdx == i2 && up == UpValue(old(alphasP[i2]), e2, epsilon))
      ensures (low == old(bLow) && lowIdx == old(bLowIdx)) || (low > old(bLow) && lowIdx == i2 && low == LowValue(old(alphasN[i2]), e2, epsilon))
      ensures old(i2 !in I0 && (i2 in I1 || i2 in I3)) ==> up <= UpValue(old(alphasP[i2]), e2, epsilon)
      ensures old(i2 !in I0 && i2 in I2) ==> low >= LowValue(old(alphasN[i2]), e2, epsilon) && up == old(bUp) && upIdx == old(bUpIdx)
      ensures old(i2 !in I0 && i2 in I3) ==> low == old(bLow) && lowIdx == old(bLowIdx)
      ensures old(i2 !in I0 && i2 in I1 && bUp <= UpValue(alphasP[i2], e2, epsilon)) ==> low >= LowValue(old(alphasN[i2]), e2, epsilon)
      ensures old(i2 !in I0 && i2 in I1) && up != old(bUp) ==> low == old(bLow) && lowIdx == old(bLowIdx)
      ensures partner == SelectPartner(old(i2 in I0 || i2 in I1 || i2 in I3), old(i2 in I0 || i2 in I1 || i2 in I2),
                                       UpValue(old(alphasP[i2]), e2, epsilon), LowValue(old(alphasN[i2]), e2, epsilon),
                                       up, low, upIdx, lowIdx, tol)
      ensures partner.Some? ==> 0 <= partner.value < n
      ensures partner.Some? ==>
        (r == Success(false) <==> partner.value == i2 || !old(PairSolution(partner.value, i2, errors[partner.value], e2)).1)
      ensures partner.None? ==>
        && r == Success(false) && alphasP[..] == old(alphasP[..]) && alphasN[..] == old(alphasN[..])
        && errors[..] == old(errors[..])[i2 := e2]
        && I0 == old(I0) && I1 == old(I1) && I2 == old(I2) && I3 == old(I3)
        && bUp == up && bUpIdx == upIdx && bLow == low && bLowIdx == lowIdx
        && bUp <= old(bUp) && bLow >= old(bLow)
        && !((i2 in I0 || i2 in I1 || i2 in I3) && bLow - UpValue(alphasP[i2], e2, epsilon) > 2.0 * tol)
        && !((i2 in I0 || i2 in I1 || i2 in I2) && LowValue(alphasN[i2], e2, epsilon) - bUp > 2.0 * tol)
      ensures partner.None? && old(i2 in I0) ==> unchanged(this, alphasP, alphasN, errors)
    {
      assert Categorized(i2);
      assert i2 in I0 || i2 in I1 || i2 in I2 || i2 in I3;
      var e: real;
      if i2 in I0 {
        e := errors[i2];
      } else {
        e := RefreshError(i2);
      }
      e2 := e;
      up, upIdx, low, lowIdx := bUp, bUpIdx, bLow, bLowIdx;
      assert alphasP[i2] == old(alphasP[i2]) && alphasN[i2] == old(alphasN[i2]);
      assert I0 == old(I0) && I1 == old(I1) && I2 == old(I2) && I3 == old(I3);
      var inUp := i2 in I0 || i2 in I1 || i2 in I3;
      var inLow := i2 in I0 || i2 in I1 || i2 in I2;
      var i1 := SelectPartner(inUp, inLow, UpValue(alphasP[i2], e, epsilon), LowValue(alphasN[i2], e, epsilon),
                              bUp, bLow, bUpIdx, bLowIdx, tol);
      partner := i1;
      if i1.None? {
        r := Success(false);
        return;
      }
      assert i1.value != i2 ==> errors[i1.value] == old(errors[i1.value]) && errors[i2] == e;
      ghost var m;
      r, m := TakeStep(i1.value, i2);
    }

    /** A sweep over every example; the result counts the steps that changed the multipliers. */
    method FullSweep() returns (r: Result<nat>)
      requires Valid()
      modifies this, alphasP, alphasN, errors
      ensures r.Success? ==> Valid() && r.value <= n
    {
      var changed: nat := 0;
      var i := 0;
      while i < n
        invariant 0 <= i <= n && changed <= i
        invariant Valid()
      {
        var outcome;
        ghost var e, partner, up, upIdx, low, lowIdx;
        outcome, e, partner, up, upIdx, low, lowIdx := ExamineExample(i);
        if outcome.Failure? {
          return Failure(outcome.error);
        }
        if outcome.value {
          changed := changed + 1;
        }
        i := i + 1;
      }
      return Success(changed);
    }

    /**
     * A sweep over the examples with a multiplier strictly inside the box. It stops early,
     * reporting no change, as soon as optimality on I0 is attained (`b_up > b_low - 2*tol`).
     */
    method ActiveSweep() returns (r: Result<nat>, ghost attained: bool)
      requires Valid()
      modifies this, alphasP, alphasN, errors
      ensures r.Success? ==> Valid() && r.value <= n
      ensures attained ==> r == Success(0) && bUp > bLow - 2.0 * tol
    {
      attained := false;
      var changed: nat := 0;
      var i := 0;
      while i < n
        invariant 0 <= i <= n && changed <= i
        invariant Valid()
        invariant !attained
      {
        if 0.0 < alphasP[i] < C || 0.0 < alphasN[i] < C {
          var outcome;
          ghost var e, partner, up, upIdx, low, lowIdx;
          outcome, e, partner, up, upIdx, low, lowIdx := ExamineExample(i);
          if outcome.Failure? {
            return Failure(outcome.error), false;
          }
          if outcome.value {
            changed := changed + 1;
          }
          if bUp > bLow - 2.0 * tol {
            attained := true;
            return Success(0), attained;
          }
        }
        i := i + 1;
      }
      return Success(changed), attained;
    }

    /**
     * `smo`: alternates full sweeps and active-set sweeps until a full sweep changes nothing,
     * then sets the bias to `(b_low + b_up) / 2`. At most `fuel` sweeps are run; the result
     * is `true` when the loop ended by convergence and `false` when the fuel ran out.
     */
    method Smo(fuel: nat) returns (r: Result<bool>, ghost lastFull: bool, ghost lastChanged: nat)
      requires Valid()
      modifies this, alphasP, alphasN, errors
      ensures r.Success? ==> Valid()
      ensures r == Success(true) ==> lastFull && lastChanged == 0 && b == (bLow + bUp) / 2.0
    {
      var changed: nat := 0;
      var examineAll := true;
      var sweeps: nat := 0;
      lastFull, lastChanged := true, 0;
      while SweepAgain(changed, examineAll)
        invariant Valid() && sweeps <= fuel
        invariant !SweepAgain(changed, examineAll) ==> lastFull && lastChanged == 0
        decreases fuel - sweeps
      {
        if sweeps == fuel {
          return Success(false), lastFull, lastChanged;
        }
        sweeps := sweeps + 1;
        var outcome: Result<nat>;
        if examineAll {
          outcome := FullSweep();
        } else {
          ghost var attained;
          outcome, attained := ActiveSweep();
        }
        if outcome.Failure? {
          return Failure(outcome.error), lastFull, lastChanged;
        }
        changed := outcome.value;
        lastFull, lastChanged := examineAll, changed;
        StopsOnlyAfterQuietFullSweep(examineAll, changed);
        examineAll := NextExamineAll(examineAll, changed);
      }
      b := (bLow + bUp) / 2.0;
      return Success(true), lastFull, lastChanged;
    }
  }
}
