// `compute_mc_greeks`: central finite differences of a pricing function
// of (spot, volatility, rate, maturity), and the default bump sizes the
// Monte Carlo engines share.
module FdGreeks {
  import opened Core

  /** `GreeksBumps`: relative spot and volatility bumps, absolute rate and time bumps. */
  datatype Bumps = Bumps(delta: real, vega: real, rho: real, theta: real)

  const DefaultBumps: Bumps := Bumps(0.01, 0.001, 0.0001, 1.0 / 365.0)

  /** The shortest maturity a bumped-down evaluation may use. */
  const MinMaturity: real := 0.00000001

  /** The arguments of one call of the pricing function. */
  datatype Point = Point(s0: real, vol: real, r: real, t: real)

  function ShorterMaturity(t: real, b: Bumps): (tDown: real)
    ensures tDown >= MinMaturity && tDown >= t - b.theta
  {
    Max(MinMaturity, t - b.theta)
  }

  /**
   * The nine points the pricing function is evaluated at, in the order of
   * the library: base, spot up and down, volatility up and down, rate up
   * and down, maturity down (clamped) and up.
   */
  function EvaluationPoints(p: Point, b: Bumps): (pts: seq<Point>)
    ensures |pts| == 9 && pts[0] == p
  {
    [p,
     p.(s0 := p.s0 * (1.0 + b.delta)), p.(s0 := p.s0 * (1.0 - b.delta)),
     p.(vol := p.vol * (1.0 + b.vega)), p.(vol := p.vol * (1.0 - b.vega)),
     p.(r := p.r + b.rho), p.(r := p.r - b.rho),
     p.(t := ShorterMaturity(p.t, b)), p.(t := p.t + b.theta)]
  }

  /**
   * The Greeks from the nine prices. Delta and gamma share the two spot
   * evaluations; theta always divides by twice the time bump, even when
   * the lower maturity was clamped. A zero divisor (spot, volatility or
   * a bump of 0) gives no value.
   */
  function FromPrices(p: Point, b: Bumps, f: seq<real>): Greeks
    requires |f| == 9
  {
    Greeks(
      Ratio(f[1] - f[2], p.s0 * 2.0 * b.delta),
      Ratio(f[1] - 2.0 * f[0] + f[2], GammaDivisor(p, b)),
      Ratio(f[3] - f[4], p.vol * 2.0 * b.vega),
      Ratio(f[7] - f[8], 2.0 * b.theta),
      Ratio(f[5] - f[6], 2.0 * b.rho),
      None, None, None, None, None)
  }

  /** `(S0 h)^2`, the square of the one-sided spot bump. */
  function GammaDivisor(p: Point, b: Bumps): (d: real)
    ensures d == 0.0 <==> p.s0 == 0.0 || b.delta == 0.0
  {
    ProductNonZero(p.s0, b.delta);
    ProductNonZero(p.s0 * b.delta, p.s0 * b.delta);
    (p.s0 * b.delta) * (p.s0 * b.delta)
  }

  /** The prices at the nine points. */
  function Prices(price: Point -> real, p: Point, b: Bumps): (f: seq<real>)
    ensures |f| == 9
    ensures forall i :: 0 <= i < 9 ==> f[i] == price(EvaluationPoints(p, b)[i])
  {
    var pts := EvaluationPoints(p, b);
    seq(9, i requires 0 <= i < 9 => price(pts[i]))
  }

  function ComputeMcGreeks(price: Point -> real, p: Point, b: Bumps): Greeks
  {
    FromPrices(p, b, Prices(price, p, b))
  }

  // ---- properties ----

  /**
   * The pricing function is called at the nine points and nowhere else:
   * two functions that agree there give the same Greeks.
   */
  lemma NineEvaluations(f: Point -> real, g: Point -> real, p: Point, b: Bumps)
    requires forall i :: 0 <= i < 9 ==> f(EvaluationPoints(p, b)[i]) == g(EvaluationPoints(p, b)[i])
    ensures ComputeMcGreeks(f, p, b) == ComputeMcGreeks(g, p, b)
  {
    assert Prices(f, p, b) == Prices(g, p, b);
  }

  /**
   * A constant price has no sensitivities: with the default bumps, rho and
   * theta are 0, and delta, gamma and vega are 0 wherever the spot or the
   * volatility they divide by is non-zero.
   */
  lemma ConstantPriceZeroGreeks(c: real, p: Point)
    ensures var g := ComputeMcGreeks(_ => c, p, DefaultBumps);
            g.rho == Some(0.0) && g.theta == Some(0.0) &&
            (g.delta == if p.s0 == 0.0 then None else Some(0.0)) &&
            (g.gamma == if p.s0 == 0.0 then None else Some(0.0)) &&
            (g.vega == if p.vol == 0.0 then None else Some(0.0))
  {
    var f := Prices(_ => c, p, DefaultBumps);
    assert f[1] - f[2] == 0.0 && f[1] - 2.0 * f[0] + f[2] == 0.0;
    assert f[3] - f[4] == 0.0 && f[5] - f[6] == 0.0 && f[7] - f[8] == 0.0;
    var dS := p.s0 * DefaultBumps.delta;
    assert p.s0 != 0.0 ==> dS * dS != 0.0;
  }

  /** A price linear in each argument. */
  function LinearPrice(a: real, v: real, k: real, d: real, e: real): Point -> real
  {
    (q: Point) => a * q.s0 + v * q.vol + k * q.r + d * q.t + e
  }

  function SquaredSpot(): Point -> real
  {
    (q: Point) => q.s0 * q.s0
  }

  /** The central differences are exact on a price linear in each argument. */
  lemma LinearPriceExact(a: real, v: real, k: real, d: real, e: real, p: Point)
    requires p.s0 != 0.0 && p.vol != 0.0 && p.t - DefaultBumps.theta >= MinMaturity
    ensures var g := ComputeMcGreeks(LinearPrice(a, v, k, d, e), p, DefaultBumps);
            g.delta == Some(a) && g.gamma == Some(0.0) && g.vega == Some(v) &&
            g.rho == Some(k) && g.theta == Some(-d)
  {
    LinearSpotExact(a, v, k, d, e, p);
    LinearVegaExact(a, v, k, d, e, p);
    LinearRhoThetaExact(a, v, k, d, e, p);
  }

  /** Delta and gamma of a linear price. */
  lemma LinearSpotExact(a: real, v: real, k: real, d: real, e: real, p: Point)
    requires p.s0 != 0.0
    ensures var g := ComputeMcGreeks(LinearPrice(a, v, k, d, e), p, DefaultBumps);
            g.delta == Some(a) && g.gamma == Some(0.0)
  {
    var price := LinearPrice(a, v, k, d, e);
    var b := DefaultBumps;
    var f := Prices(price, p, b);
    var pts := EvaluationPoints(p, b);
    assert f[0] == price(pts[0]) && f[1] == price(pts[1]) && f[2] == price(pts[2]);
    assert f[1] - f[2] == a * (p.s0 * 2.0 * b.delta);
    RatioOfProduct(f[1] - f[2], a, p.s0 * 2.0 * b.delta);
    var second, dd := f[1] - 2.0 * f[0] + f[2], GammaDivisor(p, b);
    assert second == 0.0 * dd;
    RatioOfProduct(second, 0.0, dd);
  }

  /** Vega of a linear price. */
  lemma LinearVegaExact(a: real, v: real, k: real, d: real, e: real, p: Point)
    requires p.vol != 0.0
    ensures ComputeMcGreeks(LinearPrice(a, v, k, d, e), p, DefaultBumps).vega == Some(v)
  {
    var price := LinearPrice(a, v, k, d, e);
    var b := DefaultBumps;
    var f := Prices(price, p, b);
    var pts := EvaluationPoints(p, b);
    assert f[3] == price(pts[3]) && f[4] == price(pts[4]);
    assert f[3] - f[4] == v * (p.vol * 2.0 * b.vega);
    RatioOfProduct(f[3] - f[4], v, p.vol * 2.0 * b.vega);
  }

  /** Rho and theta of a linear price, away from the maturity clamp. */
  lemma LinearRhoThetaExact(a: real, v: real, k: real, d: real, e: real, p: Point)
    requires p.t - DefaultBumps.theta >= MinMaturity
    ensures var g := ComputeMcGreeks(LinearPrice(a, v, k, d, e), p, DefaultBumps);
            g.rho == Some(k) && g.theta == Some(-d)
  {
    var price := LinearPrice(a, v, k, d, e);
    var b := DefaultBumps;
    var f := Prices(price, p, b);
    var pts := EvaluationPoints(p, b);
    assert f[5] == price(pts[5]) && f[6] == price(pts[6]);
    assert f[5] - f[6] == k * (2.0 * b.rho);
    RatioOfProduct(f[5] - f[6], k, 2.0 * b.rho);
    assert ShorterMaturity(p.t, b) == p.t - b.theta;
    assert f[7] == price(pts[7]) && f[8] == price(pts[8]);
    assert f[7] - f[8] == -d * (2.0 * b.theta);
    RatioOfProduct(f[7] - f[8], -d, 2.0 * b.theta);
  }

  /** The spot bump of gamma: a quadratic price has gamma 2 and delta `2 S0` exactly. */
  lemma QuadraticSpotExact(p: Point)
    requires p.s0 != 0.0
    ensures var g := ComputeMcGreeks(SquaredSpot(), p, DefaultBumps);
            g.delta == Some(2.0 * p.s0) && g.gamma == Some(2.0)
  {
    var price := SquaredSpot();
    var b := DefaultBumps;
    var f := Prices(price, p, b);
    var pts := EvaluationPoints(p, b);
    var s, h := p.s0, b.delta;
    assert f[0] == s * s && f[1] == (s * (1.0 + h)) * (s * (1.0 + h)) && f[2] == (s * (1.0 - h)) * (s * (1.0 - h)) by {
      assert f[0] == price(pts[0]) && f[1] == price(pts[1]) && f[2] == price(pts[2]);
    }
    assert f[1] - f[2] == (2.0 * s) * (s * 2.0 * h);
    assert f[1] - 2.0 * f[0] + f[2] == 2.0 * ((s * h) * (s * h));
    assert (s * h) * (s * h) != 0.0;
    RatioOfProduct(f[1] - f[2], 2.0 * s, s * 2.0 * h);
    var second, dd := f[1] - 2.0 * f[0] + f[2], GammaDivisor(p, b);
    assert second == 2.0 * dd && dd != 0.0;
    RatioOfProduct(second, 2.0, dd);
  }

  /**
   * When the lower maturity is clamped, theta still divides by twice the
   * time bump: it is the difference of the prices at the clamp and at
   * `T + bump`, over `2 bump`.
   */
  lemma ThetaClampedDivisor(price: Point -> real, p: Point)
    requires p.t - DefaultBumps.theta < MinMaturity
    ensures ComputeMcGreeks(price, p, DefaultBumps).theta ==
            Some((price(p.(t := MinMaturity)) - price(p.(t := p.t + DefaultBumps.theta))) / (2.0 * DefaultBumps.theta))
  {
    var f := Prices(price, p, DefaultBumps);
    assert f[7] == price(p.(t := MinMaturity));
    assert f[8] == price(p.(t := p.t + DefaultBumps.theta));
  }
}
