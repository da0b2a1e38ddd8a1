// The Thomas algorithm for a tridiagonal system `A x = d`: a forward
// sweep that eliminates the sub-diagonal, then back substitution. `a` is
// the sub-diagonal (`a[0]` unused), `b` the diagonal, `c` the
// super-diagonal (`c[n-1]` unused).
module Tridiagonal {

  predicate SameLength(a: seq<real>, b: seq<real>, c: seq<real>)
  {
    |a| == |b| == |c|
  }

  /** `x - y * z`, the shape of every elimination and substitution step. */
  function MinusProduct(x: real, y: real, z: real): real
  {
    x - y * z
  }

  /** A quotient by a pivot; the sweep only takes it for non-zero pivots. */
  function Quotient(x: real, p: real): real
  {
    if p == 0.0 then 0.0 else x / p
  }

  /** The pivot of row `i` after elimination: `b[i] - a[i] * c*[i-1]`. */
  function Pivot(a: seq<real>, b: seq<real>, c: seq<real>, i: nat): real
    requires SameLength(a, b, c) && i < |b|
    decreases i, 1
  {
    if i == 0 then b[0] else MinusProduct(b[i], a[i], CStar(a, b, c, i - 1))
  }

  /** The eliminated super-diagonal `c*[i] = c[i] / pivot`. */
  function CStar(a: seq<real>, b: seq<real>, c: seq<real>, i: nat): real
    requires SameLength(a, b, c) && i < |b|
    decreases i, 2
  {
    Quotient(c[i], Pivot(a, b, c, i))
  }

  /** The eliminated right-hand side `d*[i] = (d[i] - a[i] * d*[i-1]) / pivot`. */
  function DStar(a: seq<real>, b: seq<real>, c: seq<real>, d: seq<real>, i: nat): real
    requires SameLength(a, b, c) && |d| == |b| && i < |b|
  {
    var num := if i == 0 then d[0] else MinusProduct(d[i], a[i], DStar(a, b, c, d, i - 1));
    Quotient(num, Pivot(a, b, c, i))
  }

  /** Every pivot is non-zero: the sweep never divides by zero. */
  predicate NonSingular(a: seq<real>, b: seq<real>, c: seq<real>)
    requires SameLength(a, b, c)
  {
    forall i :: 0 <= i < |b| ==> Pivot(a, b, c, i) != 0.0
  }

  /** Back substitution: `x[n-1] = d*[n-1]`, `x[i] = d*[i] - c*[i] * x[i+1]`. */
  function Back(a: seq<real>, b: seq<real>, c: seq<real>, d: seq<real>, i: nat): real
    requires SameLength(a, b, c) && |d| == |b| && i < |b|
    decreases |b| - i
  {
    if i == |b| - 1 then DStar(a, b, c, d, i)
    else MinusProduct(DStar(a, b, c, d, i), CStar(a, b, c, i), Back(a, b, c, d, i + 1))
  }

  function Solution(a: seq<real>, b: seq<real>, c: seq<real>, d: seq<real>): (x: seq<real>)
    requires SameLength(a, b, c) && |d| == |b|
    ensures |x| == |b|
  {
    seq(|b|, i requires 0 <= i < |b| => Back(a, b, c, d, i))
  }

  /** Row `i` of the tridiagonal product `A x`. */
  function Row(a: seq<real>, b: seq<real>, c: seq<real>, x: seq<real>, i: nat): real
    requires SameLength(a, b, c) && |x| == |b| && i < |b|
  {
    (if i > 0 then a[i] * x[i - 1] else 0.0) + b[i] * x[i] +
    (if i + 1 < |x| then c[i] * x[i + 1] else 0.0)
  }

  /** `x` satisfies every equation of the system. */
  predicate Solves(a: seq<real>, b: seq<real>, c: seq<real>, d: seq<real>, x: seq<real>)
    requires SameLength(a, b, c) && |d| == |b|
  {
    |x| == |b| && forall i :: 0 <= i < |b| ==> Row(a, b, c, x, i) == d[i]
  }

  /**
   * `solve_tridiagonal`: the forward sweep into `c*` and `d*`, then back
   * substitution into a vector of the system's size.
   */
  method Solve(a: array<real>, b: array<real>, c: array<real>, d: array<real>) returns (x: array<real>)
    requires a.Length == b.Length == c.Length == d.Length > 0
    requires NonSingular(a[..], b[..], c[..])
    ensures fresh(x)
    ensures x[..] == Solution(a[..], b[..], c[..], d[..])
  {
    var cStar, dStar := ForwardSweep(a, b, c, d);
    x := BackSubstitute(a, b, c, d, cStar, dStar);
  }

  /** The forward sweep: `c*` and `d*` for every row. */
  method ForwardSweep(a: array<real>, b: array<real>, c: array<real>, d: array<real>)
    returns (cStar: array<real>, dStar: array<real>)
    requires a.Length == b.Length == c.Length == d.Length > 0
    requires NonSingular(a[..], b[..], c[..])
    ensures fresh(cStar) && fresh(dStar) && cStar.Length == dStar.Length == b.Length
    ensures forall k :: 0 <= k < b.Length ==>
              cStar[k] == CStar(a[..], b[..], c[..], k) && dStar[k] == DStar(a[..], b[..], c[..], d[..], k)
  {
    ghost var A, B, C, D := a[..], b[..], c[..], d[..];
    var n := b.Length;
    cStar := new real[n];
    dStar := new real[n];
    assert Pivot(A, B, C, 0) == b[0];
    cStar[0] := c[0] / b[0];
    dStar[0] := d[0] / b[0];
    var i := 1;
    while i < n
      invariant 1 <= i <= n
      invariant forall k :: 0 <= k < i ==> cStar[k] == CStar(A, B, C, k) && dStar[k] == DStar(A, B, C, D, k)
    {
      var denom := MinusProduct(b[i], a[i], cStar[i - 1]);
      assert denom == Pivot(A, B, C, i);
      cStar[i] := c[i] / denom;
      dStar[i] := MinusProduct(d[i], a[i], dStar[i - 1]) / denom;
      i := i + 1;
    }
  }

  /** Back substitution from the last row up. */
  method BackSubstitute(a: array<real>, b: array<real>, c: array<real>, d: array<real>,
                        cStar: array<real>, dStar: array<real>) returns (x: array<real>)
    requires a.Length == b.Length == c.Length == d.Length == cStar.Length == dStar.Length > 0
    requires forall k :: 0 <= k < b.Length ==>
               cStar[k] == CStar(a[..], b[..], c[..], k) && dStar[k] == DStar(a[..], b[..], c[..], d[..], k)
    ensures fresh(x)
    ensures x[..] == Solution(a[..], b[..], c[..], d[..])
  {
    ghost var A, B, C, D := a[..], b[..], c[..], d[..];
    var n := b.Length;
    x := new real[n];
    x[n - 1] := dStar[n - 1];
    var j := n - 2;
    while j >= 0
      invariant -1 <= j <= n - 2
      invariant forall k :: j < k < n ==> x[k] == Back(A, B, C, D, k)
    {
      x[j] := MinusProduct(dStar[j], cStar[j], x[j + 1]);
      j := j - 1;
    }
    assert forall k :: 0 <= k < n ==> x[k] == Solution(A, B, C, D)[k];
  }

  // ---- the solution solves the system ----

  /** One interior row: elimination and back substitution cancel out. */
  lemma InteriorRow(ai: real, bi: real, ci: real, di: real, p: real, cs: real, ds: real,
                    csPrev: real, dsPrev: real, xPrev: real, xi: real, xNext: real)
    requires p == bi - ai * csPrev && p * cs == ci && p * ds == di - ai * dsPrev
    requires xPrev == dsPrev - csPrev * xi && xi == ds - cs * xNext
    ensures ai * xPrev + bi * xi + ci * xNext == di
  {
    assert ai * xPrev == ai * dsPrev - ai * csPrev * xi;
    assert ai * xPrev + bi * xi == ai * dsPrev + p * xi;
    assert p * xi == p * ds - p * cs * xNext;
  }

  /** The last row, which has no super-diagonal term. */
  lemma LastRow(ai: real, bi: real, di: real, p: real, ds: real,
                csPrev: real, dsPrev: real, xPrev: real, xi: real)
    requires p == bi - ai * csPrev && p * ds == di - ai * dsPrev
    requires xPrev == dsPrev - csPrev * xi && xi == ds
    ensures ai * xPrev + bi * xi == di
  {
    assert ai * xPrev == ai * dsPrev - ai * csPrev * xi;
  }

  /** The first row, which has no sub-diagonal term. */
  lemma FirstRow(bi: real, ci: real, di: real, cs: real, ds: real, xi: real, xNext: real)
    requires bi * cs == ci && bi * ds == di && xi == ds - cs * xNext
    ensures bi * xi + ci * xNext == di
  {
    assert bi * xi == bi * ds - bi * cs * xNext;
  }

  lemma PivotFacts(a: seq<real>, b: seq<real>, c: seq<real>, d: seq<real>, i: nat)
    requires SameLength(a, b, c) && |d| == |b| && i < |b| && Pivot(a, b, c, i) != 0.0
    ensures Pivot(a, b, c, i) * CStar(a, b, c, i) == c[i]
    ensures i == 0 ==> Pivot(a, b, c, i) * DStar(a, b, c, d, i) == d[0]
    ensures i > 0 ==> Pivot(a, b, c, i) * DStar(a, b, c, d, i) == d[i] - a[i] * DStar(a, b, c, d, i - 1)
  {
    var p := Pivot(a, b, c, i);
    var num := if i == 0 then d[0] else d[i] - a[i] * DStar(a, b, c, d, i - 1);
    assert DStar(a, b, c, d, i) == num / p;
    assert CStar(a, b, c, i) == c[i] / p;
  }

  /** With every pivot non-zero, the Thomas solution satisfies every row. */
  lemma ThomasSolves(a: seq<real>, b: seq<real>, c: seq<real>, d: seq<real>)
    requires SameLength(a, b, c) && |d| == |b| && |b| > 0
    requires NonSingular(a, b, c)
    ensures Solves(a, b, c, d, Solution(a, b, c, d))
  {
    var x := Solution(a, b, c, d);
    var n := |b|;
    forall i | 0 <= i < n
      ensures Row(a, b, c, x, i) == d[i]
    {
      PivotFacts(a, b, c, d, i);
      var p, cs, ds := Pivot(a, b, c, i), CStar(a, b, c, i), DStar(a, b, c, d, i);
      if i == 0 {
        assert p == b[0];
        if n == 1 {
          assert x[0] == ds;
        } else {
          assert x[0] == ds - cs * x[1];
          FirstRow(b[0], c[0], d[0], cs, ds, x[0], x[1]);
        }
      } else {
        var csPrev, dsPrev := CStar(a, b, c, i - 1), DStar(a, b, c, d, i - 1);
        assert p == b[i] - a[i] * csPrev;
        assert x[i - 1] == dsPrev - csPrev * x[i];
        if i == n - 1 {
          assert x[i] == ds;
          LastRow(a[i], b[i], d[i], p, ds, csPrev, dsPrev, x[i - 1], x[i]);
        } else {
          assert x[i] == ds - cs * x[i + 1];
          InteriorRow(a[i], b[i], c[i], d[i], p, cs, ds, csPrev, dsPrev, x[i - 1], x[i], x[i + 1]);
        }
      }
    }
  }

  /**
   * A unit first row with nothing above the diagonal, and a unit last
   * row with nothing below it, pin the solution's end points to the
   * right-hand side.
   */
  lemma UnitEndRows(a: seq<real>, b: seq<real>, c: seq<real>, d: seq<real>)
    requires SameLength(a, b, c) && |d| == |b| && |b| > 1
    requires NonSingular(a, b, c)
    requires b[0] == 1.0 && c[0] == 0.0 && a[|b| - 1] == 0.0 && b[|b| - 1] == 1.0
    ensures Solution(a, b, c, d)[0] == d[0]
    ensures Solution(a, b, c, d)[|b| - 1] == d[|b| - 1]
  {
    ThomasSolves(a, b, c, d);
    var x := Solution(a, b, c, d);
    assert Row(a, b, c, x, 0) == d[0];
    assert Row(a, b, c, x, |b| - 1) == d[|b| - 1];
  }
}
