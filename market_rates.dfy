// The rate-curve helpers of the pricing service: rounding of the fixed
// period, linear interpolation of a zero curve given as (tenor, rate)
// points, and the curve of forward rates over a fixed period built from it.
// Fetching the points is not part of this model: the helpers take them as
// a sequence. Python's `sorted` (a stable sort by tenor) and
// `sorted(set(...))` are functions here, proved to sort and to keep the
// same elements.
module MarketRates {
  import opened Core

  /** A curve point: tenor `x` in years, rate `y`. */
  datatype Point = Point(x: real, y: real)

  // ---- rounding the fixed period ----

  /**
   * Rounding to the nearest integer with ties to even, as Python's `round`
   * does.
   */
  function RoundHalfEven(v: real): (r: int)
    ensures -0.5 <= v - r as real <= 0.5
    ensures v - r as real == 0.5 || r as real - v == 0.5 ==> r % 2 == 0
  {
    var f := v.Floor;
    var frac := v - f as real;
    if frac < 0.5 then f
    else if frac > 0.5 then f + 1
    else if f % 2 == 0 then f
    else f + 1
  }

  const Scale: real := 1000000.0

  /** `round(value, 6)`: the nearest multiple of one millionth, ties to even. */
  function NormalizePeriod(value: real): real
  {
    RoundHalfEven(value * Scale) as real / Scale
  }

  /**
   * The rounded period is a whole number of millionths within half a
   * millionth of the input.
   */
  lemma NormalizeClose(value: real)
    ensures var r := NormalizePeriod(value);
      (r * Scale).Floor as real == r * Scale && -0.0000005 <= value - r <= 0.0000005
  {
    var k := RoundHalfEven(value * Scale);
    var r := NormalizePeriod(value);
    assert r * Scale == k as real;
    assert value - r == (value * Scale - k as real) / Scale;
  }

  /** Rounding an integer gives it back. */
  lemma RoundWhole(k: int)
    ensures RoundHalfEven(k as real) == k
  {
  }

  /** Rounding twice is rounding once. */
  lemma NormalizeIdempotent(value: real)
    ensures NormalizePeriod(NormalizePeriod(value)) == NormalizePeriod(value)
  {
    var k := RoundHalfEven(value * Scale);
    assert NormalizePeriod(value) * Scale == k as real;
    RoundWhole(k);
  }

  // ---- sorting by tenor ----

  ghost predicate SortedByX(s: seq<Point>)
  {
    forall i, j :: 0 <= i < j < |s| ==> s[i].x <= s[j].x
  }

  /** Inserting before the first point with a tenor at or above `p`'s. */
  function Insert(p: Point, t: seq<Point>): (r: seq<Point>)
    ensures |r| == |t| + 1
    ensures forall v :: v in r <==> v == p || v in t
    ensures multiset(r) == multiset(t) + multiset{p}
  {
    if |t| == 0 || p.x <= t[0].x then [p] + t
    else
      assert t == [t[0]] + t[1..];
      [t[0]] + Insert(p, t[1..])
  }

  /**
   * `sorted(points, key=lambda p: p["x"])`: insertion sort from the back,
   * which keeps points with equal tenors in their input order.
   */
  function SortByX(s: seq<Point>): (r: seq<Point>)
    ensures |r| == |s|
    ensures forall v :: v in r <==> v in s
  {
    if |s| == 0 then []
    else
      assert s == [s[0]] + s[1..];
      Insert(s[0], SortByX(s[1..]))
  }

  lemma {:induction false} InsertSorted(p: Point, t: seq<Point>)
    requires SortedByX(t)
    ensures SortedByX(Insert(p, t))
  {
    if |t| > 0 && p.x > t[0].x {
      InsertSorted(p, t[1..]);
      var u := Insert(p, t[1..]);
      forall j | 0 <= j < |u|
        ensures t[0].x <= u[j].x
      {
        assert u[j] in u;
      }
      assert Insert(p, t) == [t[0]] + u;
    }
  }

  /** The sort orders by tenor. */
  lemma {:induction false} SortByXSpec(s: seq<Point>)
    ensures SortedByX(SortByX(s))
  {
    if |s| > 0 {
      SortByXSpec(s[1..]);
      InsertSorted(s[0], SortByX(s[1..]));
    }
  }

  /** The sort keeps every point, each as often as given. */
  lemma {:induction false} SortByXPermutes(s: seq<Point>)
    ensures multiset(SortByX(s)) == multiset(s)
  {
    if |s| > 0 {
      SortByXPermutes(s[1..]);
      var t := SortByX(s[1..]);
      assert SortByX(s) == Insert(s[0], t);
      MultisetCons(s);
    }
  }

  lemma MultisetCons<T>(s: seq<T>)
    requires |s| > 0
    ensures multiset(s) == multiset{s[0]} + multiset(s[1..])
  {
    assert s == [s[0]] + s[1..];
  }

  /** The points of `s` whose tenor is `x`, in their order in `s`. */
  function AtTenor(s: seq<Point>, x: real): seq<Point>
  {
    if |s| == 0 then []
    else AtTenorOne(s[0], x) + AtTenor(s[1..], x)
  }

  /** The points of tenor `x` among `q` alone: `q` itself or nothing. */
  function AtTenorOne(q: Point, x: real): seq<Point>
  {
    if q.x == x then [q] else []
  }

  lemma AtTenorCons(q: Point, rest: seq<Point>, x: real)
    ensures AtTenor([q] + rest, x) == AtTenorOne(q, x) + AtTenor(rest, x)
  {
    assert ([q] + rest)[1..] == rest;
  }

  /** Putting a point of a smaller tenor in front of `p`'s insertion keeps `p` after the points of its tenor. */
  lemma InsertStableStep(p: Point, q: Point, rest: seq<Point>, u: seq<Point>, x: real)
    requires q.x < p.x && AtTenor(u, x) == AtTenorOne(p, x) + AtTenor(rest, x)
    ensures AtTenor([q] + u, x) == AtTenorOne(p, x) + AtTenor([q] + rest, x)
  {
    AtTenorCons(q, u, x);
    AtTenorCons(q, rest, x);
    if p.x == x {
      assert AtTenorOne(q, x) == [];
    } else {
      assert AtTenorOne(p, x) == [];
    }
  }

  /** Inserting a point puts it after every point of its tenor already there, and keeps their order. */
  lemma {:induction false} InsertStable(p: Point, t: seq<Point>, x: real)
    ensures AtTenor(Insert(p, t), x) == AtTenorOne(p, x) + AtTenor(t, x)
  {
    if |t| == 0 || p.x <= t[0].x {
      assert Insert(p, t) == [p] + t;
      AtTenorCons(p, t, x);
    } else {
      InsertStable(p, t[1..], x);
      assert Insert(p, t) == [t[0]] + Insert(p, t[1..]);
      assert t == [t[0]] + t[1..];
      InsertStableStep(p, t[0], t[1..], Insert(p, t[1..]), x);
    }
  }

  /** The sort is stable: the points of each tenor keep their input order. */
  lemma {:induction false} SortByXStable(s: seq<Point>, x: real)
    ensures AtTenor(SortByX(s), x) == AtTenor(s, x)
  {
    if |s| > 0 {
      SortByXStable(s[1..], x);
      InsertStable(s[0], SortByX(s[1..]), x);
      assert SortByX(s) == Insert(s[0], SortByX(s[1..]));
    }
  }

  /** Points already in tenor order are left as they are. */
  lemma {:induction false} SortSorted(s: seq<Point>)
    requires SortedByX(s)
    ensures SortByX(s) == s
  {
    if |s| > 0 {
      SortSorted(s[1..]);
      assert s == [s[0]] + s[1..];
    }
  }

  // ---- linear interpolation ----

  /** How far `x` lies from `l` towards `r`, as a fraction of the gap. */
  function Weight(l: Point, r: Point, x: real): real
    requires r.x != l.x
  {
    (x - l.x) / (r.x - l.x)
  }

  /** The linear blend of `l` and `r` at `x`. */
  function Blend(l: Point, r: Point, x: real): real
    requires r.x != l.x
  {
    l.y + Weight(l, r, x) * (r.y - l.y)
  }

  /**
   * The scan over adjacent pairs from index `idx`: the first pair whose
   * tenors bracket `x` gives the blend (the left rate when the tenors are
   * equal); with no such pair, the last rate.
   */
  function Segment(sp: seq<Point>, x: real, idx: nat): real
    requires 1 <= idx && |sp| > 0
    decreases |sp| - idx
  {
    if idx >= |sp| then sp[|sp| - 1].y
    else
      var left := sp[idx - 1];
      var right := sp[idx];
      if left.x <= x <= right.x then
        if right.x == left.x then left.y else Blend(left, right, x)
      else Segment(sp, x, idx + 1)
  }

  /** Interpolation on points sorted by tenor, clamped at both ends. */
  function InterpolateSorted(sp: seq<Point>, x: real): real
    requires |sp| > 0
  {
    if x <= sp[0].x then sp[0].y
    else if x >= sp[|sp| - 1].x then sp[|sp| - 1].y
    else Segment(sp, x, 1)
  }

  /** `_interpolate_linear`: `None` stands for the ValueError on no points. */
  function Interpolated(points: seq<Point>, x: real): (r: Option<real>)
    ensures r.None? <==> |points| == 0
  {
    if |points| == 0 then None
    else Some(InterpolateSorted(SortByX(points), x))
  }

  /** The interpolation as a scan over the sorted points. */
  method Interpolate(points: seq<Point>, x: real) returns (r: Option<real>)
    ensures r == Interpolated(points, x)
  {
    if |points| == 0 {
      return None;
    }
    var sp := SortByX(points);
    if x <= sp[0].x {
      return Some(sp[0].y);
    }
    if x >= sp[|sp| - 1].x {
      return Some(sp[|sp| - 1].y);
    }
    var idx := 1;
    while idx < |sp|
      invariant 1 <= idx <= |sp|
      invariant Segment(sp, x, idx) == Segment(sp, x, 1)
      decreases |sp| - idx
    {
      var left := sp[idx - 1];
      var right := sp[idx];
      if left.x <= x <= right.x {
        if right.x == left.x {
          return Some(left.y);
        }
        return Some(Blend(left, right, x));
      }
      idx := idx + 1;
    }
    return Some(sp[|sp| - 1].y);
  }

  /** A blend with weight in [0, 1] stays between the two rates. */
  lemma ConvexBlend(a: real, b: real, w: real)
    requires 0.0 <= w <= 1.0
    ensures Min(a, b) <= a + w * (b - a) <= Max(a, b)
  {
    var m := w * (b - a);
    SpanScale(a, b, w, m);
    if a <= b {
      assert Min(a, b) == a && Max(a, b) == b;
    } else {
      assert Min(a, b) == b && Max(a, b) == a;
    }
  }

  /** A weight in [0, 1] scales the span from `a` to `b` to within it. */
  lemma SpanScale(a: real, b: real, w: real, m: real)
    requires 0.0 <= w <= 1.0 && m == w * (b - a)
    ensures a <= b ==> 0.0 <= m <= b - a
    ensures b < a ==> b - a <= m <= 0.0
  {
    if a <= b {
      UnitWeight(b - a, w, m);
    } else {
      NegFactor(a, b, w);
      UnitWeight(a - b, w, -m);
    }
  }

  /** A weight in [0, 1] scales a non-negative span `d` to `p` within it. */
  lemma UnitWeight(d: real, w: real, p: real)
    requires d >= 0.0 && 0.0 <= w <= 1.0 && p == w * d
    ensures 0.0 <= p <= d
  {
    ScaleMonotone(d, 0.0, w);
    ScaleMonotone(d, w, 1.0);
  }

  lemma NegFactor(a: real, b: real, w: real)
    ensures w * (a - b) == -(w * (b - a))
  {
  }

  /** A quotient of a part by the whole lies in [0, 1]. */
  lemma UnitQuotient(n: real, d: real)
    requires 0.0 <= n <= d && d > 0.0
    ensures 0.0 <= n / d <= 1.0
  {
    var q := n / d;
    assert q * d == n;
  }

  /** The blend lies between the two rates for `x` between the tenors. */
  lemma BlendBetween(l: Point, r: Point, x: real)
    requires l.x <= x <= r.x && l.x != r.x
    ensures Min(l.y, r.y) <= Blend(l, r, x) <= Max(l.y, r.y)
  {
    UnitQuotient(x - l.x, r.x - l.x);
    ConvexBlend(l.y, r.y, Weight(l, r, x));
  }

  /**
   * Strictly inside the range the scan stops at a bracketing pair, and the
   * result lies between that pair's rates.
   */
  lemma {:induction false} SegmentBracket(sp: seq<Point>, x: real, idx: nat) returns (k: nat)
    requires SortedByX(sp) && 1 <= idx < |sp|
    requires sp[idx - 1].x <= x < sp[|sp| - 1].x
    ensures idx <= k < |sp| && sp[k - 1].x <= x <= sp[k].x
    ensures Min(sp[k - 1].y, sp[k].y) <= Segment(sp, x, idx) <= Max(sp[k - 1].y, sp[k].y)
    decreases |sp| - idx
  {
    var left := sp[idx - 1];
    var right := sp[idx];
    if left.x <= x <= right.x {
      k := idx;
      if right.x != left.x {
        BlendBetween(left, right, x);
      }
    } else {
      assert x > right.x;
      k := SegmentBracket(sp, x, idx + 1);
    }
  }

  /**
   * Inside the range of tenors the interpolation lies between the rates of
   * two adjacent sorted points whose tenors bracket `x`.
   */
  lemma InterpolatedInside(points: seq<Point>, x: real) returns (k: nat)
    requires |points| > 0
    requires var sp := SortByX(points); |sp| > 0 && sp[0].x < x < sp[|sp| - 1].x
    ensures var sp := SortByX(points);
      1 <= k < |sp| && sp[k - 1].x <= x <= sp[k].x &&
      Min(sp[k - 1].y, sp[k].y) <= Interpolated(points, x).value <= Max(sp[k - 1].y, sp[k].y)
  {
    var sp := SortByX(points);
    SortByXSpec(points);
    assert InterpolateSorted(sp, x) == Segment(sp, x, 1);
    k := SegmentBracket(sp, x, 1);
  }

  /** At or below every tenor the result is the rate of the first sorted point, one of the inputs with the least tenor. */
  lemma InterpolatedBelow(points: seq<Point>, x: real)
    requires |points| > 0 && forall p | p in points :: x <= p.x
    ensures var sp := SortByX(points);
      Interpolated(points, x) == Some(sp[0].y) &&
      sp[0] in points && forall p | p in points :: sp[0].x <= p.x
  {
    SortByXSpec(points);
    var sp := SortByX(points);
    assert sp[0] in sp;
    forall p | p in points
      ensures sp[0].x <= p.x
    {
      assert p in sp;
    }
  }

  /**
   * At or above every tenor, and above some, the result is the rate of the
   * last sorted point, one of the inputs with the greatest tenor.
   */
  lemma InterpolatedAbove(points: seq<Point>, x: real)
    requires forall p | p in points :: p.x <= x
    requires exists p :: p in points && p.x < x
    ensures var sp := SortByX(points);
      |sp| > 0 && Interpolated(points, x) == Some(sp[|sp| - 1].y) &&
      sp[|sp| - 1] in points && forall p | p in points :: p.x <= sp[|sp| - 1].x
  {
    SortByXSpec(points);
    var sp := SortByX(points);
    var q :| q in points && q.x < x;
    assert q in sp;
    LeastTenor(sp, q);
    var last := sp[|sp| - 1];
    assert last in sp;
    assert last in points && last.x <= x;
    assert InterpolateSorted(sp, x) == last.y;
    GreatestTenor(sp);
  }

  lemma GreatestTenor(sp: seq<Point>)
    requires SortedByX(sp) && |sp| > 0
    ensures forall p | p in sp :: p.x <= sp[|sp| - 1].x
  {
    forall p | p in sp
      ensures p.x <= sp[|sp| - 1].x
    {
      var i :| 0 <= i < |sp| && sp[i] == p;
    }
  }

  /** Interpolation never leaves the range of the given rates. */
  lemma InterpolatedWithin(points: seq<Point>, x: real, lo: real, hi: real)
    requires |points| > 0 && forall p | p in points :: lo <= p.y <= hi
    ensures lo <= Interpolated(points, x).value <= hi
  {
    var sp := SortByX(points);
    forall i | 0 <= i < |sp|
      ensures lo <= sp[i].y <= hi
    {
      assert sp[i] in sp;
    }
    if sp[0].x < x < sp[|sp| - 1].x {
      var k := InterpolatedInside(points, x);
    }
  }

  /** Points with strictly increasing tenors are reproduced at their tenors. */
  lemma InterpolatesNodes(points: seq<Point>, i: nat)
    requires forall a, b :: 0 <= a < b < |points| ==> points[a].x < points[b].x
    requires i < |points|
    ensures Interpolated(points, points[i].x) == Some(points[i].y)
  {
    SortSorted(points);
    if 0 < i < |points| - 1 {
      SegmentAtNode(points, i, 1);
      assert points[i - 1].x < points[i].x;
      WeightAtRight(points[i - 1], points[i]);
    } else if i > 0 {
      assert points[0].x < points[i].x;
    }
  }

  lemma WeightAtRight(l: Point, r: Point)
    requires l.x < r.x
    ensures Blend(l, r, r.x) == r.y
  {
    var d := r.x - l.x;
    assert Weight(l, r, r.x) == d / d;
    assert d / d == 1.0;
  }

  lemma {:induction false} SegmentAtNode(sp: seq<Point>, i: nat, idx: nat)
    requires forall a, b :: 0 <= a < b < |sp| ==> sp[a].x < sp[b].x
    requires 1 <= idx <= i < |sp|
    ensures Segment(sp, sp[i].x, idx) == Blend(sp[i - 1], sp[i], sp[i].x)
    decreases i - idx
  {
    if idx < i {
      SegmentAtNode(sp, i, idx + 1);
    }
  }

  // ---- the forward curve ----

  /** `[p.x for p in s if p.x <= cutoff]`. */
  function TenorsUpTo(s: seq<Point>, cutoff: real): seq<real>
  {
    if |s| == 0 then []
    else
      var last := s[|s| - 1];
      TenorsUpTo(s[..|s| - 1], cutoff) + if last.x <= cutoff then [last.x] else []
  }

  /** The comprehension keeps exactly the tenors at or below the cutoff. */
  lemma {:induction false} TenorsUpToSpec(s: seq<Point>, cutoff: real)
    ensures forall t | t in TenorsUpTo(s, cutoff) :: t <= cutoff && exists p :: p in s && p.x == t
    ensures forall p | p in s && p.x <= cutoff :: p.x in TenorsUpTo(s, cutoff)
  {
    if |s| > 0 {
      var init := s[..|s| - 1];
      TenorsUpToSpec(init, cutoff);
      assert s == init + [s[|s| - 1]];
      forall t | t in TenorsUpTo(s, cutoff)
        ensures t <= cutoff && exists p :: p in s && p.x == t
      {
        if t in TenorsUpTo(init, cutoff) {
          var p :| p in init && p.x == t;
          assert p in s;
        } else {
          assert s[|s| - 1] in s;
        }
      }
    }
  }

  /** `any(abs(t - cutoff) < 1e-10 for t in ts)`. */
  predicate AnyNear(ts: seq<real>, cutoff: real)
  {
    exists t :: t in ts && Abs(t - cutoff) < 0.0000000001
  }

  ghost predicate StrictlyIncreasing(ts: seq<real>)
  {
    forall i, j :: 0 <= i < j < |ts| ==> ts[i] < ts[j]
  }

  /** Inserting into a strictly increasing sequence, skipping a value already present. */
  function InsertDistinct(t: real, u: seq<real>): seq<real>
  {
    if |u| == 0 || t < u[0] then [t] + u
    else if t == u[0] then u
    else [u[0]] + InsertDistinct(t, u[1..])
  }

  /** `sorted(set(ts))`. */
  function SortedSet(ts: seq<real>): seq<real>
  {
    if |ts| == 0 then [] else InsertDistinct(ts[0], SortedSet(ts[1..]))
  }

  lemma {:induction false} InsertDistinctSpec(t: real, u: seq<real>)
    requires StrictlyIncreasing(u)
    ensures StrictlyIncreasing(InsertDistinct(t, u))
    ensures forall v :: v in InsertDistinct(t, u) <==> v == t || v in u
  {
    if |u| == 0 || t < u[0] {
    } else if t == u[0] {
    } else {
      InsertDistinctSpec(t, u[1..]);
      assert u == [u[0]] + u[1..];
      var w := InsertDistinct(t, u[1..]);
      forall j | 0 <= j < |w|
        ensures u[0] < w[j]
      {
        assert w[j] in w;
      }
    }
  }

  /** The result is strictly increasing and holds exactly the given values. */
  lemma {:induction false} SortedSetSpec(ts: seq<real>)
    ensures StrictlyIncreasing(SortedSet(ts))
    ensures forall v :: v in SortedSet(ts) <==> v in ts
  {
    if |ts| > 0 {
      SortedSetSpec(ts[1..]);
      InsertDistinctSpec(ts[0], SortedSet(ts[1..]));
      assert ts == [ts[0]] + ts[1..];
    }
  }

  /** The start tenors: the tenors up to the cutoff, with the cutoff unless one is within 1e-10 of it. */
  function StartTenors(sz: seq<Point>, cutoff: real): seq<real>
  {
    var ts := TenorsUpTo(sz, cutoff);
    SortedSet(if AnyNear(ts, cutoff) then ts else ts + [cutoff])
  }

  /** The interpolated zero rate; `rates` is never empty where it is used. */
  function ZeroAt(rates: seq<Point>, t: real): real
    requires |rates| > 0
  {
    Interpolated(rates, t).value
  }

  /** The forward rate over `[t, t + period]` from the zero rates at both ends. */
  function ForwardRate(zStart: real, zEnd: real, t: real, period: real): real
    requires period != 0.0
  {
    (zEnd * (t + period) - zStart * t) / period
  }

  /** The forward rate over `[t, t + period]` implied by the zero curve. */
  function ForwardAt(sz: seq<Point>, period: real, t: real): real
    requires |sz| > 0 && period != 0.0
  {
    ForwardRate(ZeroAt(sz, t), ZeroAt(sz, t + period), t, period)
  }

  /** The forward points at the given start tenors. */
  function ForwardsAt(sz: seq<Point>, period: real, starts: seq<real>): (f: seq<Point>)
    requires |sz| > 0 && period != 0.0
    ensures |f| == |starts|
    ensures forall i :: 0 <= i < |f| ==> f[i] == Point(starts[i], ForwardAt(sz, period, starts[i]))
  {
    if |starts| == 0 then [] else ForwardsAt(sz, period, starts[..|starts| - 1]) + [Point(starts[|starts| - 1], ForwardAt(sz, period, starts[|starts| - 1]))]
  }

  /** The cutoff: the greatest tenor less the period. */
  function Cutoff(sz: seq<Point>, period: real): real
    requires |sz| > 0
  {
    sz[|sz| - 1].x - period
  }

  /** `_compute_forward_curve`: the forward curve, or no points at all. */
  function ForwardCurveOf(zeroPoints: seq<Point>, period: real): seq<Point>
  {
    if |zeroPoints| < 2 || period <= 0.0 then []
    else
      var sz := SortByX(zeroPoints);
      if |sz| == 0 then []
      else
        var cutoff := Cutoff(sz, period);
        if cutoff <= sz[0].x then []
        else ForwardsAt(sz, period, StartTenors(sz, cutoff))
  }

  /** The curve built with the source's loops: the start tenors are collected, then each gives one point. */
  method ForwardCurve(zeroPoints: seq<Point>, period: real) returns (forwards: seq<Point>)
    ensures forwards == ForwardCurveOf(zeroPoints, period)
  {
    if |zeroPoints| < 2 || period <= 0.0 {
      return [];
    }
    var sz := SortByX(zeroPoints);
    var cutoff := sz[|sz| - 1].x - period;
    if cutoff <= sz[0].x {
      return [];
    }
    assert cutoff == Cutoff(sz, period);
    var ts := CollectTenors(sz, cutoff);
    var starts := ts;
    if !AnyNear(ts, cutoff) {
      starts := ts + [cutoff];
    }
    starts := SortedSet(starts);
    assert starts == StartTenors(sz, cutoff);
    forwards := ForwardPoints(sz, period, starts);
    assert ForwardCurveOf(zeroPoints, period) == ForwardsAt(sz, period, StartTenors(sz, cutoff));
  }

  /** The loop over the start tenors: two interpolations and one forward rate each. */
  method ForwardPoints(sz: seq<Point>, period: real, starts: seq<real>) returns (forwards: seq<Point>)
    requires |sz| > 0 && period != 0.0
    ensures forwards == ForwardsAt(sz, period, starts)
  {
    forwards := [];
    var i := 0;
    while i < |starts|
      invariant 0 <= i <= |starts|
      invariant forwards == ForwardsAt(sz, period, starts[..i])
    {
      var t := starts[i];
      var zStart := Interpolate(sz, t);
      var zEnd := Interpolate(sz, t + period);
      var fwd := ForwardRate(zStart.value, zEnd.value, t, period);
      assert starts[..i + 1] == starts[..i] + [t];
      forwards := forwards + [Point(t, fwd)];
      i := i + 1;
    }
    assert starts[..i] == starts;
  }

  /** The list comprehension over the sorted points. */
  method CollectTenors(sz: seq<Point>, cutoff: real) returns (ts: seq<real>)
    ensures ts == TenorsUpTo(sz, cutoff)
  {
    ts := [];
    for i := 0 to |sz|
      invariant ts == TenorsUpTo(sz[..i], cutoff)
    {
      assert sz[..i + 1][..i] == sz[..i];
      if sz[i].x <= cutoff {
        ts := ts + [sz[i].x];
      }
    }
    assert sz[..|sz|] == sz;
  }

  // ---- properties of the forward curve ----

  /** The start tenors are never empty, strictly increasing, and run from the tenors up to the cutoff to (nearly) the cutoff. */
  lemma StartTenorsSpec(sz: seq<Point>, cutoff: real)
    ensures var starts := StartTenors(sz, cutoff);
      |starts| > 0 && StrictlyIncreasing(starts) &&
      (forall p | p in sz && p.x <= cutoff :: p.x in starts) &&
      (forall t | t in starts :: t <= cutoff && (t == cutoff || exists p :: p in sz && p.x == t)) &&
      (exists t :: t in starts && Abs(t - cutoff) < 0.0000000001)
  {
    var ts := TenorsUpTo(sz, cutoff);
    TenorsUpToSpec(sz, cutoff);
    var all := if AnyNear(ts, cutoff) then ts else ts + [cutoff];
    SortedSetSpec(all);
    var starts := SortedSet(all);
    if AnyNear(ts, cutoff) {
      var t :| t in ts && Abs(t - cutoff) < 0.0000000001;
      assert t in starts;
    } else {
      assert cutoff in all;
      assert cutoff in starts;
      assert Abs(cutoff - cutoff) < 0.0000000001;
    }
  }

  /**
   * The curve is empty exactly when there are fewer than two points, the
   * period is not positive, or the cutoff is at or below the least tenor.
   */
  lemma ForwardCurveEmpty(zeroPoints: seq<Point>, period: real)
    ensures var sz := SortByX(zeroPoints);
      ForwardCurveOf(zeroPoints, period) == [] <==>
        |zeroPoints| < 2 || period <= 0.0 || Cutoff(sz, period) <= sz[0].x
  {
    var sz := SortByX(zeroPoints);
    if |zeroPoints| >= 2 && period > 0.0 && Cutoff(sz, period) > sz[0].x {
      StartTenorsSpec(sz, Cutoff(sz, period));
    }
  }

  /**
   * Every point of the curve starts at or below the cutoff and no earlier
   * than the least tenor, in strictly increasing order, and every tenor up
   * to the cutoff starts a point.
   */
  lemma ForwardCurveTenors(zeroPoints: seq<Point>, period: real)
    requires |zeroPoints| >= 2 && period > 0.0
    ensures var sz := SortByX(zeroPoints); var f := ForwardCurveOf(zeroPoints, period);
      forall i :: 0 <= i < |f| ==> sz[0].x <= f[i].x <= Cutoff(sz, period)
    ensures var f := ForwardCurveOf(zeroPoints, period);
      forall i, j :: 0 <= i < j < |f| ==> f[i].x < f[j].x
    ensures var sz := SortByX(zeroPoints); var f := ForwardCurveOf(zeroPoints, period);
      |f| > 0 ==> forall p | p in zeroPoints && p.x <= Cutoff(sz, period) :: exists i :: 0 <= i < |f| && f[i].x == p.x
  {
    var sz := SortByX(zeroPoints);
    var cutoff := Cutoff(sz, period);
    if cutoff > sz[0].x {
      ForwardCurveStarts(zeroPoints, period);
      var f := ForwardsAt(sz, period, StartTenors(sz, cutoff));
      forall p | p in zeroPoints && p.x <= cutoff
        ensures exists i :: 0 <= i < |f| && f[i].x == p.x
      {
        assert p in sz;
        assert p.x in StartTenors(sz, cutoff);
      }
    } else {
      assert ForwardCurveOf(zeroPoints, period) == [];
    }
  }

  /** Above the least tenor, the curve is the points at the start tenors, which it covers in order. */
  lemma ForwardCurveStarts(zeroPoints: seq<Point>, period: real)
    requires |zeroPoints| >= 2 && period > 0.0
    requires Cutoff(SortByX(zeroPoints), period) > SortByX(zeroPoints)[0].x
    ensures var sz := SortByX(zeroPoints);
      ForwardCurveOf(zeroPoints, period) == ForwardsAt(sz, period, StartTenors(sz, Cutoff(sz, period)))
    ensures var sz := SortByX(zeroPoints); var f := ForwardCurveOf(zeroPoints, period);
      forall i :: 0 <= i < |f| ==> sz[0].x <= f[i].x <= Cutoff(sz, period)
    ensures var f := ForwardCurveOf(zeroPoints, period);
      forall i, j :: 0 <= i < j < |f| ==> f[i].x < f[j].x
    ensures var sz := SortByX(zeroPoints); var f := ForwardCurveOf(zeroPoints, period);
      forall t | t in StartTenors(sz, Cutoff(sz, period)) :: exists i :: 0 <= i < |f| && f[i].x == t
    ensures var sz := SortByX(zeroPoints);
      forall p | p in sz && p.x <= Cutoff(sz, period) :: p.x in StartTenors(sz, Cutoff(sz, period))
  {
    var sz := SortByX(zeroPoints);
    var cutoff := Cutoff(sz, period);
    var starts := StartTenors(sz, cutoff);
    assert ForwardCurveOf(zeroPoints, period) == ForwardsAt(sz, period, starts);
    SortByXSpec(zeroPoints);
    StartTenorsBounds(sz, cutoff);
    ForwardsAtTenors(sz, period, starts, sz[0].x, cutoff);
  }

  /** Above the least tenor, the start tenors lie between it and the cutoff. */
  lemma StartTenorsBounds(sz: seq<Point>, cutoff: real)
    requires SortedByX(sz) && |sz| > 0 && sz[0].x < cutoff
    ensures StrictlyIncreasing(StartTenors(sz, cutoff))
    ensures forall t | t in StartTenors(sz, cutoff) :: sz[0].x <= t <= cutoff
    ensures forall p | p in sz && p.x <= cutoff :: p.x in StartTenors(sz, cutoff)
  {
    StartTenorsSpec(sz, cutoff);
    var starts := StartTenors(sz, cutoff);
    forall t | t in starts
      ensures sz[0].x <= t <= cutoff
    {
      if t != cutoff {
        var p :| p in sz && p.x == t;
        LeastTenor(sz, p);
      }
    }
  }

  lemma LeastTenor(sz: seq<Point>, p: Point)
    requires SortedByX(sz) && p in sz
    ensures sz[0].x <= p.x
  {
  }

  /**
   * The points at strictly increasing start tenors within `[lo, hi]` have
   * those tenors, in that order.
   */
  lemma ForwardsAtTenors(sz: seq<Point>, period: real, starts: seq<real>, lo: real, hi: real)
    requires |sz| > 0 && period != 0.0 && StrictlyIncreasing(starts)
    requires forall t | t in starts :: lo <= t <= hi
    ensures var f := ForwardsAt(sz, period, starts);
      (forall i :: 0 <= i < |f| ==> lo <= f[i].x <= hi) &&
      (forall i, j :: 0 <= i < j < |f| ==> f[i].x < f[j].x) &&
      (forall t | t in starts :: exists i :: 0 <= i < |f| && f[i].x == t)
  {
    var f := ForwardsAt(sz, period, starts);
    forall i | 0 <= i < |f|
      ensures lo <= f[i].x <= hi
    {
      assert starts[i] in starts;
    }
    forall t | t in starts
      ensures exists i :: 0 <= i < |f| && f[i].x == t
    {
      var i :| 0 <= i < |starts| && starts[i] == t;
      assert f[i].x == t;
    }
  }

  /** A flat zero curve gives the same flat forward curve. */
  lemma FlatForwards(zeroPoints: seq<Point>, period: real, c: real)
    requires forall p | p in zeroPoints :: p.y == c
    ensures forall q | q in ForwardCurveOf(zeroPoints, period) :: q.y == c
  {
    if |zeroPoints| >= 2 && period > 0.0 {
      var sz := SortByX(zeroPoints);
      var cutoff := Cutoff(sz, period);
      if cutoff > sz[0].x {
        FlatForwardsAt(sz, period, StartTenors(sz, cutoff), c);
      }
    }
  }

  /** At every start tenor, a flat zero curve gives its own rate as the forward. */
  lemma FlatForwardsAt(sz: seq<Point>, period: real, starts: seq<real>, c: real)
    requires |sz| > 0 && period > 0.0
    requires forall p | p in sz :: p.y == c
    ensures forall q | q in ForwardsAt(sz, period, starts) :: q.y == c
  {
    var f := ForwardsAt(sz, period, starts);
    forall q | q in f
      ensures q.y == c
    {
      var i :| 0 <= i < |f| && f[i] == q;
      var t := starts[i];
      InterpolatedWithin(sz, t, c, c);
      InterpolatedWithin(sz, t + period, c, c);
      FlatRatio(c, t, period);
    }
  }

  lemma FlatRatio(c: real, t: real, p: real)
    requires p > 0.0
    ensures ForwardRate(c, c, t, p) == c
  {
    assert c * (t + p) - c * t == c * p;
  }
}
