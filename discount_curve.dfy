// A discount curve: either a flat continuously-compounded rate, or a
// validated list of (time, discount factor) pillars interpolated
// log-linearly, with the discount factor held flat outside the pillars.
module DiscountCurves {
  import opened Core

  datatype DiscountCurve = DiscountCurve(
    times: seq<real>, dfs: seq<real>, flatRate: real, useFlatRate: bool)

  /** What `validate_curve` accepts, stated as a property of the lists. */
  ghost predicate WellFormed(times: seq<real>, dfs: seq<real>)
  {
    && |times| > 0 && |times| == |dfs|
    && times[0] > 0.0
    && (forall i :: 0 <= i < |dfs| ==> dfs[i] > 0.0)
    && (forall i :: 0 < i < |times| ==> Rising(times, i))
  }

  /** Pillar `i` comes strictly after pillar `i - 1`. */
  ghost predicate Rising(times: seq<real>, i: int)
  {
    0 < i < |times| && times[i - 1] < times[i]
  }

  /**
   * The outcome of `validate_curve`, check by check in the source's order:
   * shape, first time, first factor, then pillar by pillar from index 1
   * (increasing time, then positive factor).
   */
  function CurveCheck(times: seq<real>, dfs: seq<real>): Outcome
  {
    if |times| == 0 || |dfs| == 0 || |times| != |dfs| then
      Fail(InvalidInput("DiscountCurve requires matching non-empty times and discount factors"))
    else if !(times[0] > 0.0) then Fail(InvalidInput("DiscountCurve times must be > 0"))
    else if !(dfs[0] > 0.0) then Fail(InvalidInput("DiscountCurve discount factors must be > 0"))
    else PillarCheck(times, dfs, 1)
  }

  function PillarCheck(times: seq<real>, dfs: seq<real>, i: nat): Outcome
    requires 1 <= i <= |times| == |dfs|
    decreases |times| - i
  {
    if i == |times| then Pass
    else if !(times[i] > times[i - 1]) then
      Fail(InvalidInput("DiscountCurve times must be strictly increasing"))
    else if !(dfs[i] > 0.0) then Fail(InvalidInput("DiscountCurve discount factors must be > 0"))
    else PillarCheck(times, dfs, i + 1)
  }

  lemma {:induction false} PillarCheckPasses(times: seq<real>, dfs: seq<real>, i: nat)
    requires 1 <= i <= |times| == |dfs|
    ensures PillarCheck(times, dfs, i).Pass? <==>
      (forall k :: i <= k < |times| ==> Rising(times, k) && dfs[k] > 0.0)
    ensures PillarCheck(times, dfs, i).Fail? ==> PillarCheck(times, dfs, i).error.InvalidInput?
    decreases |times| - i
  {
    if i < |times| {
      PillarCheckPasses(times, dfs, i + 1);
    }
  }

  /** The checks accept exactly the well-formed curves, and reject with InvalidInput. */
  lemma CurveCheckIsWellFormed(times: seq<real>, dfs: seq<real>)
    ensures CurveCheck(times, dfs).Pass? <==> WellFormed(times, dfs)
    ensures CurveCheck(times, dfs).Fail? ==> CurveCheck(times, dfs).error.InvalidInput?
  {
    if |times| > 0 && |times| == |dfs| && times[0] > 0.0 && dfs[0] > 0.0 {
      PillarCheckPasses(times, dfs, 1);
      if PillarCheck(times, dfs, 1).Pass? {
        forall i | 0 <= i < |dfs| ensures dfs[i] > 0.0 {
          if i > 0 {
            assert Rising(times, i) && dfs[i] > 0.0;
          }
        }
      }
    }
  }

  /** `validate_curve`: the loop over the pillars carrying the previous time. */
  method ValidateCurve(times: seq<real>, dfs: seq<real>) returns (outcome: Outcome)
    ensures outcome == CurveCheck(times, dfs)
  {
    if |times| == 0 || |dfs| == 0 || |times| != |dfs| {
      return Fail(InvalidInput("DiscountCurve requires matching non-empty times and discount factors"));
    }
    var prev := times[0];
    if !(prev > 0.0) {
      return Fail(InvalidInput("DiscountCurve times must be > 0"));
    }
    if !(dfs[0] > 0.0) {
      return Fail(InvalidInput("DiscountCurve discount factors must be > 0"));
    }
    var i := 1;
    while i < |times|
      invariant 1 <= i <= |times|
      invariant prev == times[i - 1]
      invariant CurveCheck(times, dfs) == PillarCheck(times, dfs, i)
      decreases |times| - i
    {
      var t := times[i];
      var df := dfs[i];
      if !(t > prev) {
        return Fail(InvalidInput("DiscountCurve times must be strictly increasing"));
      }
      if !(df > 0.0) {
        return Fail(InvalidInput("DiscountCurve discount factors must be > 0"));
      }
      prev := t;
      i := i + 1;
    }
    return Pass;
  }

  /** The flat-rate constructor: never validated. */
  function FlatCurve(rate: real): (c: DiscountCurve)
    ensures c.useFlatRate && c.flatRate == rate && c.times == [] && c.dfs == []
  {
    DiscountCurve([], [], rate, true)
  }

  /** The pillar constructor: always validated; the flat rate keeps its default 0. */
  method PillarCurve(times: seq<real>, dfs: seq<real>) returns (r: Result<DiscountCurve>)
    ensures r.Ok? <==> WellFormed(times, dfs)
    ensures r.Ok? ==> r.value == DiscountCurve(times, dfs, 0.0, false)
    ensures r.Err? ==> r.error.InvalidInput?
  {
    var outcome := ValidateCurve(times, dfs);
    CurveCheckIsWellFormed(times, dfs);
    if outcome.Fail? {
      return Err(outcome.error);
    }
    return Ok(DiscountCurve(times, dfs, 0.0, false));
  }

  /** `std::upper_bound`: the first index whose time exceeds `t`. */
  function UpperBound(times: seq<real>, t: real): (idx: nat)
    ensures idx <= |times|
    ensures forall k :: 0 <= k < idx ==> times[k] <= t
    ensures idx < |times| ==> times[idx] > t
  {
    if |times| == 0 then 0
    else if times[0] > t then 0
    else 1 + UpperBound(times[1..], t)
  }

  /** `discount(t)`. */
  function Discount(m: Math, c: DiscountCurve, t: real): (df: real)
    requires c.useFlatRate || |c.times| == 0 || |c.times| == |c.dfs|
  {
    if t <= 0.0 then 1.0
    else if c.useFlatRate || |c.times| == 0 then FlatDiscount(m, c.flatRate, t)
    else if t <= c.times[0] then c.dfs[0]
    else if t >= c.times[|c.times| - 1] then c.dfs[|c.dfs| - 1]
    else
      var idx := UpperBound(c.times, t);
      LogLinear(m, c.dfs[idx - 1], c.dfs[idx], Weight(c.times[idx - 1], c.times[idx], t))
  }

  /** `exp(-r t)`. */
  function FlatDiscount(m: Math, rate: real, t: real): real
  {
    Exp(m, -rate * t)
  }

  /** How far `t` has moved from `t1` toward `t2`. */
  function Weight(t1: real, t2: real, t: real): real
    requires t1 < t2
  {
    (t - t1) / (t2 - t1)
  }

  /** Linear interpolation of the logarithms of two discount factors. */
  function LogLinear(m: Math, df1: real, df2: real, w: real): real
  {
    Exp(m, Mix(Log(m, df1), Log(m, df2), w))
  }

  /** `(1 - w) * a + w * b`. */
  function Mix(a: real, b: real, w: real): real
  {
    (1.0 - w) * a + w * b
  }

  /** Inside the pillars the search brackets `t`: `times[idx-1] <= t < times[idx]`. */
  lemma BracketInside(c: DiscountCurve, t: real)
    requires WellFormed(c.times, c.dfs)
    requires c.times[0] < t < c.times[|c.times| - 1]
    ensures 1 <= UpperBound(c.times, t) < |c.times|
    ensures c.times[UpperBound(c.times, t) - 1] <= t < c.times[UpperBound(c.times, t)]
  {
  }

  /** The weight of the right pillar is in [0, 1). */
  lemma WeightInUnitInterval(t1: real, t2: real, t: real)
    requires t1 <= t < t2
    ensures 0.0 <= Weight(t1, t2, t) < 1.0
  {
    DivBounds(t - t1, t2 - t1);
  }

  lemma DivBounds(a: real, d: real)
    requires 0.0 <= a < d
    ensures 0.0 <= a / d < 1.0
  {
    var q := a / d;
    assert q * d == a;
  }

  lemma DivCancel(a: real, d: real)
    requires d != 0.0
    ensures (a * d) / d == a
  {
  }

  lemma MixIsShiftUp(a: real, b: real, w: real)
    ensures Mix(a, b, w) == a + w * (b - a)
  {
  }

  lemma MixIsShiftDown(a: real, b: real, w: real)
    ensures Mix(a, b, w) == b + (1.0 - w) * (a - b)
  {
  }

  lemma MulUnit(w: real, c: real)
    requires 0.0 <= w <= 1.0 && c >= 0.0
    ensures 0.0 <= w * c <= c
  {
  }

  /** A convex combination of two reals lies between them. */
  lemma MixUp(a: real, b: real, w: real)
    requires 0.0 <= w <= 1.0 && a <= b
    ensures a <= Mix(a, b, w) <= b
  {
    MixIsShiftUp(a, b, w);
    MulUnit(w, b - a);
  }

  lemma MixDown(a: real, b: real, w: real)
    requires 0.0 <= w <= 1.0 && b <= a
    ensures b <= Mix(a, b, w) <= a
  {
    MixIsShiftDown(a, b, w);
    MulUnit(1.0 - w, a - b);
  }

  /** The cases of `discount`: 1 at or before today, exp(-r t) when flat, flat outside the pillars. */
  lemma DiscountCases(m: Math, c: DiscountCurve, t: real)
    requires c.useFlatRate || |c.times| == 0 || |c.times| == |c.dfs|
    ensures t <= 0.0 ==> Discount(m, c, t) == 1.0
    ensures t > 0.0 && (c.useFlatRate || |c.times| == 0) ==> Discount(m, c, t) == FlatDiscount(m, c.flatRate, t)
    ensures t > 0.0 && !c.useFlatRate && |c.times| > 0 && t <= c.times[0] ==> Discount(m, c, t) == c.dfs[0]
    ensures t > 0.0 && !c.useFlatRate && |c.times| > 0 && c.times[0] < t && t >= c.times[|c.times| - 1] ==>
      Discount(m, c, t) == c.dfs[|c.dfs| - 1]
  {
  }

  /** exp of a convex combination of two logs lies between the two values. */
  lemma LogLinearBetween(m: Math, df1: real, df2: real, w: real)
    requires ExpMonotone(m) && ExpOfLog(m)
    requires df1 > 0.0 && df2 > 0.0 && 0.0 <= w <= 1.0
    ensures df1 <= df2 ==> df1 <= LogLinear(m, df1, df2, w) <= df2
    ensures df2 <= df1 ==> df2 <= LogLinear(m, df1, df2, w) <= df1
  {
    var l1, l2 := Log(m, df1), Log(m, df2);
    var x := Mix(l1, l2, w);
    assert Exp(m, l1) == df1 && Exp(m, l2) == df2;
    if l1 <= l2 {
      MixUp(l1, l2, w);
      ExpLe(m, l1, x);
      ExpLe(m, x, l2);
      ExpLe(m, l1, l2);
    } else {
      MixDown(l1, l2, w);
      ExpLe(m, l2, x);
      ExpLe(m, x, l1);
      ExpLe(m, l2, l1);
    }
  }

  /** An interpolated discount factor lies between its two bracketing pillar factors. */
  lemma InterpolatedBetweenPillars(m: Math, c: DiscountCurve, t: real)
    requires ExpMonotone(m) && ExpOfLog(m)
    requires WellFormed(c.times, c.dfs) && !c.useFlatRate
    requires c.times[0] < t < c.times[|c.times| - 1]
    ensures var idx := UpperBound(c.times, t);
      1 <= idx < |c.times| &&
      (c.dfs[idx - 1] <= c.dfs[idx] ==> c.dfs[idx - 1] <= Discount(m, c, t) <= c.dfs[idx]) &&
      (c.dfs[idx] <= c.dfs[idx - 1] ==> c.dfs[idx] <= Discount(m, c, t) <= c.dfs[idx - 1])
  {
    var idx := UpperBound(c.times, t);
    BracketInside(c, t);
    var w := Weight(c.times[idx - 1], c.times[idx], t);
    WeightInUnitInterval(c.times[idx - 1], c.times[idx], t);
    LogLinearBetween(m, c.dfs[idx - 1], c.dfs[idx], w);
  }

  /** Strictly inside the pillars, with upper bound `i`, `discount` interpolates pillars i-1 and i. */
  lemma DiscountInside(m: Math, c: DiscountCurve, t: real, i: nat)
    requires WellFormed(c.times, c.dfs) && !c.useFlatRate
    requires c.times[0] < t < c.times[|c.times| - 1] && 0 < i < |c.times| && UpperBound(c.times, t) == i
    ensures Rising(c.times, i)
    ensures Discount(m, c, t) == LogLinear(m, c.dfs[i - 1], c.dfs[i], Weight(c.times[i - 1], c.times[i], t))
  {
  }

  /** The search for the midpoint of pillars i-1 and i lands on i. */
  lemma MidpointBracket(c: DiscountCurve, i: nat)
    requires WellFormed(c.times, c.dfs)
    requires 0 < i < |c.times|
    ensures var t := (c.times[i - 1] + c.times[i]) / 2.0;
      c.times[0] < t < c.times[|c.times| - 1] && UpperBound(c.times, t) == i
  {
    var t := (c.times[i - 1] + c.times[i]) / 2.0;
    assert Rising(c.times, i);
    SortedLe(c.times, 0, i - 1);
    SortedLe(c.times, i, |c.times| - 1);
    BetweenPillars(c.times, i, t);
  }

  /** A time in [times[i-1], times[i]) has upper bound i. */
  lemma BetweenPillars(times: seq<real>, i: nat, t: real)
    requires forall k :: 0 < k < |times| ==> Rising(times, k)
    requires 0 < i < |times| && times[i - 1] <= t < times[i]
    ensures UpperBound(times, t) == i
  {
    var idx := UpperBound(times, t);
    if idx < i {
      SortedLe(times, idx, i - 1);
    }
  }

  lemma MidpointWeight(t1: real, t2: real)
    requires t1 < t2
    ensures Weight(t1, t2, (t1 + t2) / 2.0) == 0.5
  {
    assert (t1 + t2) / 2.0 - t1 == 0.5 * (t2 - t1);
    DivCancel(0.5, t2 - t1);
  }

  lemma SquareOfHalfSum(m: Math, df1: real, df2: real)
    requires ExpAdditive(m) && ExpOfLog(m) && df1 > 0.0 && df2 > 0.0
    ensures LogLinear(m, df1, df2, 0.5) * LogLinear(m, df1, df2, 0.5) == df1 * df2
  {
    var l1, l2 := Log(m, df1), Log(m, df2);
    var x := Mix(l1, l2, 0.5);
    ExpAdd(m, x, x);
    ExpAdd(m, l1, l2);
    assert x + x == l1 + l2;
    assert Exp(m, l1) == df1 && Exp(m, l2) == df2;
  }

  /** At the midpoint of two pillars the discount factor is their geometric mean. */
  lemma MidpointIsGeometricMean(m: Math, c: DiscountCurve, i: nat)
    requires ExpAdditive(m) && ExpOfLog(m)
    requires WellFormed(c.times, c.dfs) && !c.useFlatRate
    requires 0 < i < |c.times|
    ensures var v := Discount(m, c, (c.times[i - 1] + c.times[i]) / 2.0);
      v * v == c.dfs[i - 1] * c.dfs[i]
  {
    var t := (c.times[i - 1] + c.times[i]) / 2.0;
    MidpointBracket(c, i);
    assert Rising(c.times, i);
    DiscountInside(m, c, t, i);
    MidpointWeight(c.times[i - 1], c.times[i]);
    SquareOfHalfSum(m, c.dfs[i - 1], c.dfs[i]);
  }

  lemma {:induction false} SortedStrict(times: seq<real>, i: nat, j: nat)
    requires forall k :: 0 < k < |times| ==> Rising(times, k)
    requires i < j < |times|
    ensures times[i] < times[j]
    decreases j - i
  {
    assert Rising(times, j);
    if i + 1 < j {
      SortedStrict(times, i, j - 1);
    }
  }

  lemma SortedLe(times: seq<real>, i: nat, j: nat)
    requires forall k :: 0 < k < |times| ==> Rising(times, k)
    requires i <= j < |times|
    ensures times[i] <= times[j]
  {
    if i < j {
      SortedStrict(times, i, j);
    }
  }
}
