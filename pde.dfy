// The Crank-Nicolson engine for European vanilla options: the pricing
// equation in log-moneyness `x = ln(S/K)` on [-1, 1], stepped back from
// maturity one tridiagonal solve at a time, read off at `ln(S0/K)` by
// linear interpolation, with delta and gamma from re-solves at bumped
// spots.
module Pde {
  import opened Core
  import opened Instruments
  import opened Pricing
  import opened Validation
  import opened Tridiagonal
  import opened EngineCommon

  const XMin: real := -1.0
  const XMax: real := 1.0

  /**
   * One solve: `spaceSteps` intervals of width `dx` over [XMin, XMax],
   * `timeSteps` steps of `dt` up to the maturity, the three coefficients
   * of the explicit half step, the three of the implicit half step, and
   * the data of the boundaries (for a call the upper boundary is
   * `edge - K * df`).
   */
  datatype Scheme = Scheme(
    spaceSteps: nat, timeSteps: nat, maturity: real, dt: real, dx: real, r: real,
    explicitLo: real, explicitMid: real, explicitHi: real,
    implicitLo: real, implicitMid: real, implicitHi: real,
    optionType: OptionType, strike: real, edge: real)

  /** The grid has at least one interior node and the spacing covers [XMin, XMax]. */
  predicate WellShaped(s: Scheme)
  {
    s.spaceSteps >= 2 && s.dx * s.spaceSteps as real == XMax - XMin
  }

  // ---- the coefficients ----

  function Diffusion(sigma: real): real { 0.5 * sigma * sigma }
  function Lambda(dt: real, dx: real): real requires dx != 0.0 { dt / (dx * dx) }
  function Mu(dt: real, dx: real): real requires dx != 0.0 { dt / (2.0 * dx) }

  /**
   * The scheme for volatility `sigma`, rates `r` and `q`, `M` space and
   * `N` time steps: `dt = T/N`, `dx = 2/M`, and with `alpha = sigma^2/2`,
   * `lambda = dt/dx^2`, `mu = dt/(2 dx)` the explicit row
   * `(alpha lambda - drift mu, 1 - 2 alpha lambda - r dt/2, alpha lambda + drift mu)`
   * and the implicit row `(-(alpha lambda - drift mu)/2, 1 + alpha lambda + r dt/2, -(alpha lambda + drift mu)/2)`.
   */
  function MakeScheme(sigma: real, r: real, q: real, maturity: real, spaceSteps: nat, timeSteps: nat,
                      optionType: OptionType, strike: real, edge: real): (s: Scheme)
    requires spaceSteps >= 2 && timeSteps >= 1
    ensures WellShaped(s) && s.spaceSteps == spaceSteps && s.timeSteps == timeSteps
    ensures s.dt * timeSteps as real == maturity && s.r == r
    ensures s.implicitLo + s.implicitHi == -(Diffusion(sigma) * Lambda(s.dt, s.dx))
    ensures s.implicitMid + s.implicitLo + s.implicitHi == 1.0 + 0.5 * r * s.dt
    ensures s.optionType == optionType && s.strike == strike && s.edge == edge && s.maturity == maturity
  {
    var dt := maturity / timeSteps as real;
    var dx := (XMax - XMin) / spaceSteps as real;
    var alpha := Diffusion(sigma);
    var drift := Drift(r, q, sigma);
    var lambda := Lambda(dt, dx);
    var mu := Mu(dt, dx);
    Scheme(spaceSteps, timeSteps, maturity, dt, dx, r,
           alpha * lambda - drift * mu, 1.0 - alpha * 2.0 * lambda - 0.5 * r * dt, alpha * lambda + drift * mu,
           -(alpha * lambda - drift * mu) * 0.5, 1.0 + alpha * 2.0 * lambda * 0.5 + 0.5 * r * dt,
           -(alpha * lambda + drift * mu) * 0.5,
           optionType, strike, edge)
  }

  /** The three diagonals of the implicit matrix, with unit boundary rows. */
  function Lower(s: Scheme): (a: seq<real>)
    ensures |a| == s.spaceSteps + 1
  {
    seq(s.spaceSteps + 1, j => if 1 <= j < s.spaceSteps then s.implicitLo else 0.0)
  }

  function Diagonal(s: Scheme): (b: seq<real>)
    ensures |b| == s.spaceSteps + 1
  {
    seq(s.spaceSteps + 1, j => if 1 <= j < s.spaceSteps then s.implicitMid else 1.0)
  }

  function Upper(s: Scheme): (c: seq<real>)
    ensures |c| == s.spaceSteps + 1
  {
    seq(s.spaceSteps + 1, j => if 1 <= j < s.spaceSteps then s.implicitHi else 0.0)
  }

  predicate Solvable(s: Scheme)
  {
    NonSingular(Lower(s), Diagonal(s), Upper(s))
  }

  // ---- one time step ----

  /** The discount factor to maturity from time step `n`: `exp(-r (T - n dt))`. */
  function StepDiscount(m: Math, s: Scheme, n: nat): real
  {
    Exp(m, -s.r * (s.maturity - n as real * s.dt))
  }

  /** The value at `x = XMin`: 0 for a call, `K df` for a put. */
  function LowerBoundary(m: Math, s: Scheme, n: nat): real
  {
    if s.optionType == Call then 0.0 else s.strike * StepDiscount(m, s, n)
  }

  /** The value at `x = XMax`: `edge - K df` for a call, 0 for a put. */
  function UpperBoundary(m: Math, s: Scheme, n: nat): real
  {
    if s.optionType == Call then s.edge - s.strike * StepDiscount(m, s, n) else 0.0
  }

  /** The explicit half step at an interior node, from the three neighbours of the previous level. */
  function Explicit(s: Scheme, lo: real, mid: real, hi: real): real
  {
    s.explicitLo * lo + s.explicitMid * mid + s.explicitHi * hi
  }

  /** The right-hand side of step `n`: boundary values at the ends, the explicit half step inside. */
  function Rhs(m: Math, s: Scheme, v: seq<real>, n: nat): (d: seq<real>)
    requires |v| == s.spaceSteps + 1
    ensures |d| == s.spaceSteps + 1
  {
    seq(s.spaceSteps + 1, j requires 0 <= j <= s.spaceSteps =>
      if j == 0 then LowerBoundary(m, s, n)
      else if j == s.spaceSteps then UpperBoundary(m, s, n)
      else Explicit(s, v[j - 1], v[j], v[j + 1]))
  }

  /** One Crank-Nicolson step: the implicit system solved for the explicit right-hand side. */
  function Step(m: Math, s: Scheme, v: seq<real>, n: nat): (w: seq<real>)
    requires |v| == s.spaceSteps + 1
    ensures |w| == s.spaceSteps + 1
  {
    Solution(Lower(s), Diagonal(s), Upper(s), Rhs(m, s, v, n))
  }

  /** The values at time step `n`, stepped back from `leaves` at maturity. */
  function Values(m: Math, s: Scheme, leaves: seq<real>, n: nat): (v: seq<real>)
    requires |leaves| == s.spaceSteps + 1 && n <= s.timeSteps
    ensures |v| == s.spaceSteps + 1
    decreases s.timeSteps - n
  {
    if n == s.timeSteps then leaves else Step(m, s, Values(m, s, leaves, n + 1), n)
  }

  // ---- the time stepping, as the engine runs it ----

  /** The right-hand side vector refilled from the previous level. */
  method FillRhs(m: Math, s: Scheme, v: array<real>, d: array<real>, n: nat)
    requires WellShaped(s) && v.Length == d.Length == s.spaceSteps + 1 && v != d
    modifies d
    ensures d[..] == Rhs(m, s, v[..], n)
  {
    var j := 1;
    while j < s.spaceSteps
      invariant 1 <= j <= s.spaceSteps
      invariant forall k :: 1 <= k < j ==> d[k] == Explicit(s, v[k - 1], v[k], v[k + 1])
    {
      d[j] := Explicit(s, v[j - 1], v[j], v[j + 1]);
      j := j + 1;
    }
    d[0] := LowerBoundary(m, s, n);
    d[s.spaceSteps] := UpperBoundary(m, s, n);
    assert forall k :: 0 <= k <= s.spaceSteps ==> d[k] == Rhs(m, s, v[..], n)[k];
  }

  /** The implicit matrix refilled: interior rows, then the unit boundary rows. */
  method FillMatrix(s: Scheme, a: array<real>, b: array<real>, c: array<real>)
    requires WellShaped(s) && a.Length == b.Length == c.Length == s.spaceSteps + 1
    requires a != b && b != c && a != c
    requires a[0] == 0.0 && c[s.spaceSteps] == 0.0
    modifies a, b, c
    ensures a[..] == Lower(s) && b[..] == Diagonal(s) && c[..] == Upper(s)
  {
    var j := 1;
    while j < s.spaceSteps
      invariant 1 <= j <= s.spaceSteps
      invariant a[0] == 0.0 && c[s.spaceSteps] == 0.0
      invariant forall k :: 1 <= k < j ==> a[k] == s.implicitLo && b[k] == s.implicitMid && c[k] == s.implicitHi
    {
      a[j] := s.implicitLo;
      b[j] := s.implicitMid;
      c[j] := s.implicitHi;
      j := j + 1;
    }
    b[0] := 1.0;
    c[0] := 0.0;
    a[s.spaceSteps] := 0.0;
    b[s.spaceSteps] := 1.0;
    assert forall k :: 0 <= k <= s.spaceSteps ==>
      a[k] == Lower(s)[k] && b[k] == Diagonal(s)[k] && c[k] == Upper(s)[k];
  }

  /**
   * The backward loop: the leaves copied into `V`, then for every step
   * from `N - 1` down to 0 the right-hand side and the matrix refilled,
   * the system solved into a new vector, and that vector made `V`.
   */
  method Backward(m: Math, s: Scheme, leaves: seq<real>) returns (v: seq<real>)
    requires WellShaped(s) && Solvable(s) && |leaves| == s.spaceSteps + 1
    ensures v == Values(m, s, leaves, 0)
  {
    var size := s.spaceSteps + 1;
    var values := Load(leaves);
    var a := new real[size];
    var b := new real[size];
    var c := new real[size];
    var d := new real[size];
    a[0], c[s.spaceSteps] := 0.0, 0.0;
    var n: int := s.timeSteps - 1;
    while n >= 0
      invariant -1 <= n < s.timeSteps
      invariant values.Length == size && values[..] == Values(m, s, leaves, n + 1)
      invariant values != a && values != b && values != c && values != d
      invariant a != b && b != c && a != c && a != d && b != d && c != d
      invariant a.Length == b.Length == c.Length == d.Length == size
      invariant a[0] == 0.0 && c[s.spaceSteps] == 0.0
      invariant fresh(a) && fresh(b) && fresh(c) && fresh(d)
    {
      ValuesStep(m, s, leaves, n);
      values := StepOnce(m, s, values, a, b, c, d, n);
      n := n - 1;
    }
    v := values[..];
  }

  lemma ValuesStep(m: Math, s: Scheme, leaves: seq<real>, n: nat)
    requires |leaves| == s.spaceSteps + 1 && n < s.timeSteps
    ensures Values(m, s, leaves, n) == Step(m, s, Values(m, s, leaves, n + 1), n)
  {
  }

  /** The terminal condition: the leaves copied into a new vector. */
  method Load(leaves: seq<real>) returns (values: array<real>)
    ensures fresh(values) && values[..] == leaves
  {
    values := new real[|leaves|];
    var j := 0;
    while j < |leaves|
      invariant 0 <= j <= |leaves|
      invariant forall k :: 0 <= k < j ==> values[k] == leaves[k]
    {
      values[j] := leaves[j];
      j := j + 1;
    }
  }

  /** One step of the loop: refill, solve, and hand back the new level. */
  method StepOnce(m: Math, s: Scheme, values: array<real>, a: array<real>, b: array<real>,
                  c: array<real>, d: array<real>, n: nat) returns (next: array<real>)
    requires WellShaped(s) && Solvable(s)
    requires values.Length == a.Length == b.Length == c.Length == d.Length == s.spaceSteps + 1
    requires values != a && values != b && values != c && values != d
    requires a != b && b != c && a != c && a != d && b != d && c != d
    requires a[0] == 0.0 && c[s.spaceSteps] == 0.0
    modifies a, b, c, d
    ensures fresh(next) && next.Length == s.spaceSteps + 1
    ensures next[..] == Step(m, s, old(values[..]), n)
    ensures a[0] == 0.0 && c[s.spaceSteps] == 0.0
  {
    FillRhs(m, s, values, d, n);
    FillMatrix(s, a, b, c);
    next := Solve(a, b, c, d);
  }

  // ---- reading the value at the spot ----

  /** The grid node at or left of `x0`, for `x0` strictly inside the grid. */
  function LeftNode(s: Scheme, x0: real): (j: nat)
    requires WellShaped(s) && XMin < x0 < XMax
    ensures j < s.spaceSteps
    ensures XMin + j as real * s.dx <= x0 < XMin + (j + 1) as real * s.dx
  {
    var q := (x0 - XMin) / s.dx;
    assert q * s.dx == x0 - XMin;
    assert 0.0 < q < s.spaceSteps as real by {
      assert s.dx > 0.0;
      assert (x0 - XMin) < s.dx * s.spaceSteps as real;
    }
    var j := Truncate(q);
    assert j as real <= q < j as real + 1.0;
    assert j as real * s.dx <= q * s.dx;
    assert q * s.dx < (j as real + 1.0) * s.dx;
    j
  }

  /** The interpolation weight of the right neighbour. */
  function Weight(s: Scheme, x0: real): (w: real)
    requires WellShaped(s) && XMin < x0 < XMax
    ensures 0.0 <= w < 1.0
  {
    var j := LeftNode(s, x0);
    var xLeft := XMin + j as real * s.dx;
    var xRight := XMin + (j + 1) as real * s.dx;
    assert xRight - xLeft == s.dx > 0.0;
    (x0 - xLeft) / (xRight - xLeft)
  }

  /**
   * The value at `x0`: the end value outside [XMin, XMax], and inside
   * the linear interpolation between the two nodes around `x0`.
   */
  function Interpolate(s: Scheme, v: seq<real>, x0: real): real
    requires WellShaped(s) && |v| == s.spaceSteps + 1
  {
    if x0 <= XMin then v[0]
    else if x0 >= XMax then v[s.spaceSteps]
    else
      var j := LeftNode(s, x0);
      var w := Weight(s, x0);
      (1.0 - w) * v[j] + w * v[j + 1]
  }

  /** Inside the grid the interpolated value lies between the two neighbours. */
  lemma InterpolationBetweenNeighbours(s: Scheme, v: seq<real>, x0: real)
    requires WellShaped(s) && |v| == s.spaceSteps + 1 && XMin < x0 < XMax
    ensures var j := LeftNode(s, x0);
            Min(v[j], v[j + 1]) <= Interpolate(s, v, x0) <= Max(v[j], v[j + 1])
  {
    var j := LeftNode(s, x0);
    var w := Weight(s, x0);
    assert Interpolate(s, v, x0) == v[j] + w * (v[j + 1] - v[j]);
    if v[j] <= v[j + 1] {
      assert 0.0 <= w * (v[j + 1] - v[j]) <= v[j + 1] - v[j];
    } else {
      assert v[j + 1] - v[j] <= w * (v[j + 1] - v[j]) <= 0.0;
    }
  }

  /** Outside the grid the value is clamped to the nearer end. */
  lemma InterpolationClamps(s: Scheme, v: seq<real>, x0: real)
    requires WellShaped(s) && |v| == s.spaceSteps + 1
    ensures x0 <= XMin ==> Interpolate(s, v, x0) == v[0]
    ensures x0 >= XMax ==> Interpolate(s, v, x0) == v[s.spaceSteps]
    ensures Min(v[0], v[s.spaceSteps]) <= Interpolate(s, v, x0) || XMin < x0 < XMax
  {
  }

  /** At a grid node the interpolation returns that node's value. */
  lemma InterpolationAtNode(s: Scheme, v: seq<real>, j: nat)
    requires WellShaped(s) && |v| == s.spaceSteps + 1 && 0 < j < s.spaceSteps
    ensures Interpolate(s, v, XMin + j as real * s.dx) == v[j]
  {
    var x0 := XMin + j as real * s.dx;
    assert s.dx > 0.0;
    assert XMin < x0 < XMax by {
      assert j as real * s.dx < s.spaceSteps as real * s.dx;
    }
    var k := LeftNode(s, x0);
    assert k == j;
    assert Weight(s, x0) == 0.0;
  }

  // ---- when the implicit system can be solved ----

  /** With `lo * hi <= 0` the next pivot is at least the diagonal. */
  lemma PivotOppositeSigns(mid: real, lo: real, hi: real, p: real)
    requires lo * hi <= 0.0 && p > 0.0
    ensures MinusProduct(mid, lo, Quotient(hi, p)) >= mid
  {
    assert lo * (hi / p) == (lo * hi) / p;
  }

  /** With both off-diagonals negative the next pivot stays above `mid + lo`. */
  lemma PivotBothNegative(mid: real, lo: real, hi: real, p: real)
    requires lo < 0.0 && hi < 0.0 && mid + lo + hi > 0.0 && p >= mid + lo
    ensures MinusProduct(mid, lo, Quotient(hi, p)) >= mid + lo
  {
    assert p > -hi > 0.0;
    assert hi / p >= -1.0 by {
      assert (hi / p) * p == hi;
    }
    assert lo * (hi / p) <= -lo;
  }

  /**
   * The pivots of the interior rows: positive, at least the diagonal
   * when the off-diagonals have opposite signs (or one is zero), and at
   * least `mid + lo` when both are negative.
   */
  lemma {:induction false} InteriorPivot(s: Scheme, i: nat)
    requires WellShaped(s) && 1 <= i < s.spaceSteps
    requires s.implicitLo + s.implicitHi <= 0.0 && s.implicitMid + s.implicitLo + s.implicitHi > 0.0
    ensures s.implicitLo * s.implicitHi <= 0.0 ==> Pivot(Lower(s), Diagonal(s), Upper(s), i) >= s.implicitMid
    ensures s.implicitLo * s.implicitHi > 0.0 ==>
              Pivot(Lower(s), Diagonal(s), Upper(s), i) >= s.implicitMid + s.implicitLo
    ensures Pivot(Lower(s), Diagonal(s), Upper(s), i) > 0.0
  {
    var a, b, c := Lower(s), Diagonal(s), Upper(s);
    var mid, lo, hi := s.implicitMid, s.implicitLo, s.implicitHi;
    assert a[i] == lo && b[i] == mid;
    if lo * hi > 0.0 {
      assert lo < 0.0 && hi < 0.0;
    }
    if i == 1 {
      assert Pivot(a, b, c, 0) == 1.0 && c[0] == 0.0;
      assert CStar(a, b, c, 0) == 0.0;
      assert Pivot(a, b, c, 1) == mid;
    } else {
      InteriorPivot(s, i - 1);
      var p := Pivot(a, b, c, i - 1);
      assert c[i - 1] == hi;
      assert CStar(a, b, c, i - 1) == Quotient(hi, p);
      assert Pivot(a, b, c, i) == MinusProduct(mid, lo, Quotient(hi, p));
      if lo * hi <= 0.0 {
        PivotOppositeSigns(mid, lo, hi, p);
      } else {
        PivotBothNegative(mid, lo, hi, p);
      }
    }
  }

  /**
   * The implicit matrix is non-singular whenever `r dt > -2`: its
   * off-diagonals sum to `-alpha lambda <= 0` and a row sums to
   * `1 + r dt / 2`.
   */
  lemma CrankNicolsonSolvable(s: Scheme)
    requires WellShaped(s)
    requires s.implicitLo + s.implicitHi <= 0.0 && s.implicitMid + s.implicitLo + s.implicitHi > 0.0
    ensures Solvable(s)
  {
    var a, b, c := Lower(s), Diagonal(s), Upper(s);
    forall i | 0 <= i < |b|
      ensures Pivot(a, b, c, i) != 0.0
    {
      if i == 0 {
        assert Pivot(a, b, c, 0) == 1.0;
      } else if i < s.spaceSteps {
        InteriorPivot(s, i);
      } else {
        assert a[i] == 0.0 && b[i] == 1.0;
        assert Pivot(a, b, c, i) == MinusProduct(1.0, 0.0, CStar(a, b, c, i - 1));
      }
    }
  }

  /** Every step pins the ends of the new level to the boundary values. */
  lemma StepBoundaries(m: Math, s: Scheme, v: seq<real>, n: nat)
    requires WellShaped(s) && Solvable(s) && |v| == s.spaceSteps + 1
    ensures Step(m, s, v, n)[0] == LowerBoundary(m, s, n)
    ensures Step(m, s, v, n)[s.spaceSteps] == UpperBoundary(m, s, n)
  {
    var a, b, c := Lower(s), Diagonal(s), Upper(s);
    assert b[0] == 1.0 && c[0] == 0.0 && a[s.spaceSteps] == 0.0 && b[s.spaceSteps] == 1.0;
    UnitEndRows(a, b, c, Rhs(m, s, v, n));
  }

  /** Every level before maturity carries the boundary values at its ends. */
  lemma ValuesBoundaries(m: Math, s: Scheme, leaves: seq<real>, n: nat)
    requires WellShaped(s) && Solvable(s) && |leaves| == s.spaceSteps + 1 && n < s.timeSteps
    ensures Values(m, s, leaves, n)[0] == LowerBoundary(m, s, n)
    ensures Values(m, s, leaves, n)[s.spaceSteps] == UpperBoundary(m, s, n)
  {
    StepBoundaries(m, s, Values(m, s, leaves, n + 1), n);
  }

  /** Each level solves the implicit system for the right-hand side built from the level after it. */
  lemma ValuesSolveSystem(m: Math, s: Scheme, leaves: seq<real>, n: nat)
    requires WellShaped(s) && Solvable(s) && |leaves| == s.spaceSteps + 1 && n < s.timeSteps
    ensures Solves(Lower(s), Diagonal(s), Upper(s), Rhs(m, s, Values(m, s, leaves, n + 1), n),
                   Values(m, s, leaves, n))
  {
    ThomasSolves(Lower(s), Diagonal(s), Upper(s), Rhs(m, s, Values(m, s, leaves, n + 1), n));
  }

  // ---- the engine ----

  const PdeRules: VanillaRules :=
    VanillaRules(Some("PDE engine is designed for European exercise only"),
                 "EuropeanExercise must contain exactly one date (maturity)")

  /** The PDE engine's checks: European exercise only, then the common ones. */
  function Validate(opt: VanillaOption): (o: Outcome)
    ensures o.Pass? <==> VanillaValid(opt, true)
    ensures o.Fail? && o.error.UnsupportedInstrument? <==>
              opt.payoff.Some? && opt.exercise.Some? && opt.exercise.value.kind != European
  {
    ValidateVanilla(opt, PdeRules)
  }

  /** The log-moneyness of node `j`: `XMin + j dx`. */
  function GridX(s: Scheme, j: int): real
  {
    XMin + j as real * s.dx
  }

  /** The payoff on the strike-centred grid `S_j = K e^(x_j)`. */
  function Leaves(m: Math, s: Scheme, payoff: Payoff): (v: seq<real>)
    ensures |v| == s.spaceSteps + 1
  {
    seq(s.spaceSteps + 1, j => payoff.Apply(s.strike * Exp(m, GridX(s, j))))
  }

  /** The payoff of a bumped re-solve: node `j` at `spot * e^(x_j - ln S0)`. */
  function BumpedLeaves(m: Math, s: Scheme, payoff: Payoff, s0: real, spot: real): (v: seq<real>)
    ensures |v| == s.spaceSteps + 1
  {
    seq(s.spaceSteps + 1, j => payoff.Apply(spot * Exp(m, GridX(s, j) - Log(m, s0))))
  }

  /** The scheme of the main solve; the call's upper boundary uses `S_M = K e^(x_M)`. */
  function MainScheme(m: Math, bs: Model, opt: VanillaOption, spaceSteps: nat, timeSteps: nat): (s: Scheme)
    requires bs.BlackScholesModel? && opt.payoff.Some? && opt.exercise.Some? && |opt.exercise.value.dates| == 1
    requires spaceSteps >= 2 && timeSteps >= 1
    ensures WellShaped(s) && s.spaceSteps == spaceSteps && s.timeSteps == timeSteps
    ensures s.strike == opt.payoff.value.strike && s.optionType == opt.payoff.value.optionType
    ensures s.implicitLo + s.implicitHi == -(Diffusion(bs.sigma) * Lambda(s.dt, s.dx))
    ensures s.implicitMid + s.implicitLo + s.implicitHi == 1.0 + 0.5 * bs.r * s.dt
    ensures s.dt * timeSteps as real == opt.exercise.value.dates[0]
  {
    var k := opt.payoff.value.strike;
    var base := MakeScheme(bs.sigma, bs.r, bs.q, opt.exercise.value.dates[0], spaceSteps, timeSteps,
                           opt.payoff.value.optionType, k, 0.0);
    base.(edge := k * Exp(m, GridX(base, spaceSteps)))
  }

  /** A bumped re-solve moves the call's upper boundary to `S_M * spot / S0`. */
  function BumpedScheme(s: Scheme, s0: real, spot: real): (b: Scheme)
    requires s0 != 0.0
    ensures b == s.(edge := s.edge * spot / s0)
  {
    s.(edge := s.edge * spot / s0)
  }

  /** The boundary data do not enter the implicit matrix. */
  lemma EdgeKeepsMatrix(s: Scheme, e: real)
    ensures Lower(s.(edge := e)) == Lower(s) && Diagonal(s.(edge := e)) == Diagonal(s)
    ensures Upper(s.(edge := e)) == Upper(s)
    ensures Solvable(s.(edge := e)) == Solvable(s)
  {
  }

  /**
   * The vanilla visit up to the grid: the checks, the model interface and
   * the scheme. A singular implicit matrix (see `CrankNicolsonSolvable`)
   * is reported as invalid input.
   */
  function Setup(m: Math, ctx: PricingContext, opt: VanillaOption): (res: Result<Scheme>)
    requires ctx.model.Some? && ctx.settings.pdeSpaceSteps >= 2 && ctx.settings.pdeTimeSteps >= 1
    ensures res.Ok? ==> VanillaValid(opt, true) && ctx.model.value.BlackScholesModel?
    ensures res.Ok? ==> WellShaped(res.value) && Solvable(res.value) && res.value.strike > 0.0
    ensures res.Ok? ==> res.value == MainScheme(m, ctx.model.value, opt, ctx.settings.pdeSpaceSteps,
                                                ctx.settings.pdeTimeSteps)
    ensures res.Err? && res.error.UnsupportedInstrument? <==>
              opt.payoff.Some? && opt.exercise.Some? && opt.exercise.value.kind != European
  {
    var valid := Validate(opt);
    if valid.Fail? then Err(valid.error)
    else
      var model := RequireModel(ctx, LocalVol, "PDEEuropeanVanillaEngine");
      if model.Err? then Err(model.error)
      else
        var s := MainScheme(m, model.value, opt, ctx.settings.pdeSpaceSteps, ctx.settings.pdeTimeSteps);
        if !Solvable(s) then Err(InvalidInput("Crank-Nicolson system is singular"))
        else Ok(s)
  }

  /** The value at spot `spot` of a bumped re-solve. */
  function BumpedValue(m: Math, s: Scheme, payoff: Payoff, s0: real, spot: real): real
    requires WellShaped(s) && s0 != 0.0 && s.strike != 0.0
  {
    var b := BumpedScheme(s, s0, spot);
    Interpolate(b, Values(m, b, BumpedLeaves(m, s, payoff, s0, spot), 0), Log(m, spot / s.strike))
  }

  /**
   * Delta and gamma from re-solves at `S0 +- 1%`; vega, theta and rho
   * are not computed. With `S0 = 0` the bump is zero and both are absent.
   */
  function Sensitivities(m: Math, bs: Model, opt: VanillaOption, s: Scheme, center: real): Greeks
    requires bs.BlackScholesModel? && opt.payoff.Some? && WellShaped(s) && s.strike != 0.0
  {
    var dS := bs.s0 * SpotBump;
    if bs.s0 == 0.0 then TreeGreeks(bs.s0, opt.notional, center, 0.0, 0.0, None, None)
    else
      TreeGreeks(bs.s0, opt.notional, center,
                 BumpedValue(m, s, opt.payoff.value, bs.s0, bs.s0 + dS),
                 BumpedValue(m, s, opt.payoff.value, bs.s0, bs.s0 - dS), None, None)
  }

  /** The value at the spot of the main solve, before the notional. */
  function Center(m: Math, bs: Model, opt: VanillaOption, s: Scheme): real
    requires bs.BlackScholesModel? && opt.payoff.Some? && WellShaped(s) && s.strike != 0.0
  {
    Interpolate(s, Values(m, s, Leaves(m, s, opt.payoff.value), 0), Log(m, bs.s0 / s.strike))
  }

  function PriceVanilla(m: Math, ctx: PricingContext, opt: VanillaOption): (res: Result<PricingResult>)
    requires ctx.model.Some? && ctx.settings.pdeSpaceSteps >= 2 && ctx.settings.pdeTimeSteps >= 1
  {
    var setup := Setup(m, ctx, opt);
    if setup.Err? then Err(setup.error)
    else
      var center := Center(m, ctx.model.value, opt, setup.value);
      Ok(PricingResult(Scaled(opt.notional, center),
                       Sensitivities(m, ctx.model.value, opt, setup.value, center), 0.0))
  }

  /**
   * The engine as a whole: the model check, the grid-size checks of the
   * constructor, then the vanilla visit; every other instrument is
   * unsupported.
   */
  function Price(m: Math, ctx: PricingContext, inst: Instrument): (res: Result<PricingResult>)
  {
    if ctx.model.None? then Err(InvalidInput("PricingContext.model is null"))
    else if ctx.settings.pdeSpaceSteps < 2 then Err(InvalidInput("PDE requires space_steps >= 2"))
    else if ctx.settings.pdeTimeSteps < 1 then Err(InvalidInput("PDE requires time_steps >= 1"))
    else match inst
      case Vanilla(opt) => PriceVanilla(m, ctx, opt)
      case Asian(_) => Err(UnsupportedInstrument("PDEEuropeanVanillaEngine does not support Asian options."))
      case Future(_) => Err(UnsupportedInstrument("PDEEuropeanVanillaEngine does not support equity futures."))
      case ZeroCoupon(_) => Err(UnsupportedInstrument("PDEEuropeanVanillaEngine does not support bonds."))
      case FixedRate(_) => Err(UnsupportedInstrument("PDEEuropeanVanillaEngine does not support bonds."))
  }

  /** One re-solve at a bumped spot, run through the time-stepping loop. */
  method RunBumped(m: Math, s: Scheme, payoff: Payoff, s0: real, spot: real) returns (value: real)
    requires WellShaped(s) && Solvable(s) && s0 != 0.0 && s.strike != 0.0
    ensures value == BumpedValue(m, s, payoff, s0, spot)
  {
    var b := BumpedScheme(s, s0, spot);
    EdgeKeepsMatrix(s, b.edge);
    var v := Backward(m, b, BumpedLeaves(m, s, payoff, s0, spot));
    value := Interpolate(b, v, Log(m, spot / s.strike));
  }

  /** Delta and gamma of the vanilla visit, each bumped grid solved step by step. */
  method RunSensitivities(m: Math, bs: Model, opt: VanillaOption, s: Scheme, center: real) returns (g: Greeks)
    requires bs.BlackScholesModel? && opt.payoff.Some? && WellShaped(s) && Solvable(s) && s.strike != 0.0
    ensures g == Sensitivities(m, bs, opt, s, center)
  {
    var dS := bs.s0 * SpotBump;
    if bs.s0 == 0.0 {
      g := TreeGreeks(bs.s0, opt.notional, center, 0.0, 0.0, None, None);
    } else {
      var up := RunBumped(m, s, opt.payoff.value, bs.s0, bs.s0 + dS);
      var down := RunBumped(m, s, opt.payoff.value, bs.s0, bs.s0 - dS);
      g := TreeGreeks(bs.s0, opt.notional, center, up, down, None, None);
    }
  }

  /** A successful setup fixes the vanilla result. */
  lemma VanillaOfSetup(m: Math, ctx: PricingContext, opt: VanillaOption, s: Scheme)
    requires ctx.model.Some? && ctx.settings.pdeSpaceSteps >= 2 && ctx.settings.pdeTimeSteps >= 1
    requires Setup(m, ctx, opt) == Ok(s)
    ensures WellShaped(s) && s.strike > 0.0 && opt.payoff.Some? && ctx.model.value.BlackScholesModel?
    ensures PriceVanilla(m, ctx, opt) ==
              Ok(PricingResult(Scaled(opt.notional, Center(m, ctx.model.value, opt, s)),
                               Sensitivities(m, ctx.model.value, opt, s, Center(m, ctx.model.value, opt, s)), 0.0))
  {
  }

  /** The engine run: the same checks, the main solve and the two re-solves. */
  method Run(m: Math, ctx: PricingContext, inst: Instrument) returns (res: Result<PricingResult>)
    ensures res == Price(m, ctx, inst)
  {
    if ctx.model.None? || ctx.settings.pdeSpaceSteps < 2 || ctx.settings.pdeTimeSteps < 1 || !inst.Vanilla? {
      return Price(m, ctx, inst);
    }
    var opt := inst.vanilla;
    var s :- Setup(m, ctx, opt);
    VanillaOfSetup(m, ctx, opt, s);
    var bs := ctx.model.value;
    var v := Backward(m, s, Leaves(m, s, opt.payoff.value));
    var center := Interpolate(s, v, Log(m, bs.s0 / s.strike));
    var g := RunSensitivities(m, bs, opt, s, center);
    res := Ok(PricingResult(Scaled(opt.notional, center), g, 0.0));
  }

  // ---- properties of the engine ----

  /** The errors of the engine and the cases that raise them. */
  lemma PriceErrors(m: Math, ctx: PricingContext, inst: Instrument)
    ensures ctx.model.None? ==> IsInvalid(Price(m, ctx, inst))
    ensures ctx.model.Some? && (ctx.settings.pdeSpaceSteps < 2 || ctx.settings.pdeTimeSteps < 1) ==>
              IsInvalid(Price(m, ctx, inst))
    ensures (ctx.model.Some? && ctx.settings.pdeSpaceSteps >= 2 && ctx.settings.pdeTimeSteps >= 1 &&
             !inst.Vanilla?) ==> IsUnsupported(Price(m, ctx, inst))
    ensures (ctx.model.Some? && ctx.settings.pdeSpaceSteps >= 2 && ctx.settings.pdeTimeSteps >= 1 &&
             inst.Vanilla?) ==>
              (IsUnsupported(Price(m, ctx, inst)) <==>
                 inst.vanilla.payoff.Some? && inst.vanilla.exercise.Some? &&
                 inst.vanilla.exercise.value.kind == American)
    ensures inst.Vanilla? && Price(m, ctx, inst).Ok? ==>
              VanillaValid(inst.vanilla, true) && ctx.model.value.BlackScholesModel?
  {
  }

  /** Only delta and gamma are set, and only when the spot bump is non-zero. */
  lemma PriceShape(m: Math, ctx: PricingContext, opt: VanillaOption)
    requires Price(m, ctx, Vanilla(opt)).Ok?
    ensures var r := Price(m, ctx, Vanilla(opt)).value;
            r.greeks.vega.None? && r.greeks.theta.None? && r.greeks.rho.None? &&
            r.greeks.deltaStdError.None? && r.greeks.vegaStdError.None? && r.mcStdError == 0.0 &&
            (r.greeks.delta.Some? <==> ctx.model.value.s0 != 0.0) &&
            (r.greeks.gamma.Some? <==> ctx.model.value.s0 != 0.0)
  {
    assert Price(m, ctx, Vanilla(opt)) == PriceVanilla(m, ctx, opt);
    var s := Setup(m, ctx, opt).value;
    VanillaOfSetup(m, ctx, opt, s);
    var center := Center(m, ctx.model.value, opt, s);
    var g := Sensitivities(m, ctx.model.value, opt, s, center);
    assert g.vega.None? && g.theta.None?;
  }

  /**
   * With a non-negative rate the implicit matrix is never singular, so
   * the singular-system error cannot arise.
   */
  lemma NonNegativeRateSolvable(m: Math, ctx: PricingContext, opt: VanillaOption)
    requires ctx.model.Some? && ctx.model.value.BlackScholesModel? && ctx.model.value.r >= 0.0
    requires ctx.settings.pdeSpaceSteps >= 2 && ctx.settings.pdeTimeSteps >= 1
    requires VanillaValid(opt, true)
    ensures Setup(m, ctx, opt).Ok?
  {
    var bs := ctx.model.value;
    var s := MainScheme(m, bs, opt, ctx.settings.pdeSpaceSteps, ctx.settings.pdeTimeSteps);
    assert s.dt > 0.0 by {
      assert s.dt * ctx.settings.pdeTimeSteps as real == opt.exercise.value.dates[0] > 0.0;
    }
    assert s.dx > 0.0;
    assert Lambda(s.dt, s.dx) >= 0.0;
    assert Diffusion(bs.sigma) >= 0.0;
    assert Diffusion(bs.sigma) * Lambda(s.dt, s.dx) >= 0.0;
    assert 0.5 * bs.r * s.dt >= 0.0;
    CrankNicolsonSolvable(s);
  }
}
