// The flat-rate bond engine: a zero-coupon bond is its notional discounted
// to maturity; a fixed-rate bond adds equal coupons paid on a regular grid
// of `n = max(1, round(T * frequency))` dates ending at maturity. Discount
// factors come from the market's curve when one is present and from the
// model's flat rate otherwise.
module Bonds {
  import opened Core
  import opened Instruments
  import opened DiscountCurves
  import opened Pricing

  /** Every curve the two curve constructors build can be looked up. */
  predicate CurveShaped(curve: Option<DiscountCurve>)
  {
    curve.None? || curve.value.useFlatRate || |curve.value.times| == 0 ||
    |curve.value.times| == |curve.value.dfs|
  }

  /** The discount factor at `t`: the curve's when present, `exp(-r t)` otherwise. */
  function BondDiscount(m: Math, curve: Option<DiscountCurve>, r: real, t: real): real
    requires CurveShaped(curve)
  {
    if curve.Some? then Discount(m, curve.value, t) else FlatDiscount(m, r, t)
  }

  // ---- validation ----

  /** The zero-coupon checks, in order: maturity, then notional. */
  function ValidateZero(b: ZeroCouponBond): (o: Outcome)
    ensures o.Pass? <==> b.maturity > 0.0 && b.notional != 0.0
    ensures o.Fail? ==> o.error.InvalidInput?
    ensures !(b.maturity > 0.0) ==> o == Fail(InvalidInput("ZeroCouponBond maturity must be > 0"))
  {
    if !(b.maturity > 0.0) then Fail(InvalidInput("ZeroCouponBond maturity must be > 0"))
    else if !(b.notional != 0.0) then Fail(InvalidInput("ZeroCouponBond notional must be non-zero"))
    else Pass
  }

  /**
   * The fixed-rate checks, in order: maturity, notional, coupon rate,
   * frequency. A negative notional passes.
   */
  function ValidateFixed(b: FixedRateBond): (o: Outcome)
    ensures o.Pass? <==> b.maturity > 0.0 && b.notional != 0.0 && b.couponRate >= 0.0 && b.couponFrequency >= 1
    ensures o.Fail? ==> o.error.InvalidInput?
    ensures !(b.maturity > 0.0) ==> o == Fail(InvalidInput("FixedRateBond maturity must be > 0"))
  {
    if !(b.maturity > 0.0) then Fail(InvalidInput("FixedRateBond maturity must be > 0"))
    else if !(b.notional != 0.0) then Fail(InvalidInput("FixedRateBond notional must be non-zero"))
    else if !(b.couponRate >= 0.0) then Fail(InvalidInput("FixedRateBond coupon rate must be >= 0"))
    else if b.couponFrequency < 1 then Fail(InvalidInput("FixedRateBond coupon frequency must be >= 1"))
    else Pass
  }

  // ---- the coupon schedule ----

  /** `max(1, round(T * frequency))`: at least one coupon, the rounded count otherwise. */
  function CouponCount(maturity: real, frequency: int): (n: int)
    ensures n >= 1
    ensures n == 1 || n == Round(maturity * frequency as real)
    ensures Round(maturity * frequency as real) >= 1 ==> n == Round(maturity * frequency as real)
  {
    MaxInt(1, Round(maturity * frequency as real))
  }

  /** The spacing of the coupon dates. */
  function Period(maturity: real, n: int): real
    requires n >= 1
  {
    maturity / n as real
  }

  /** One coupon: `notional * c * dt`. */
  function CouponAmount(b: FixedRateBond): real
  {
    b.notional * b.couponRate * Period(b.maturity, CouponCount(b.maturity, b.couponFrequency))
  }

  /** The present value of the first `k` coupons, paid at `dt, 2 dt, ..., k dt`. */
  function CouponsPv(m: Math, curve: Option<DiscountCurve>, r: real, coupon: real, dt: real, k: nat): real
    requires CurveShaped(curve)
  {
    if k == 0 then 0.0
    else CouponsPv(m, curve, r, coupon, dt, k - 1) + coupon * BondDiscount(m, curve, r, dt * k as real)
  }

  function ZeroCouponNpv(m: Math, curve: Option<DiscountCurve>, r: real, b: ZeroCouponBond): real
    requires CurveShaped(curve)
  {
    b.notional * BondDiscount(m, curve, r, b.maturity)
  }

  /** All `n` coupons of `notional * c * dt` plus the principal discounted from maturity. */
  function FixedRateNpv(m: Math, curve: Option<DiscountCurve>, r: real, b: FixedRateBond): real
    requires CurveShaped(curve)
  {
    var n := CouponCount(b.maturity, b.couponFrequency);
    var dt := Period(b.maturity, n);
    CouponsPv(m, curve, r, CouponAmount(b), dt, n) + b.notional * BondDiscount(m, curve, r, b.maturity)
  }

  // ---- the engine ----

  const EngineName: string := "FlatRateBondAnalyticEngine"

  /**
   * The engine: the model must be present; a bond is validated, then the
   * model must be a flat-rate one; equity instruments are refused.
   */
  function Price(m: Math, ctx: PricingContext, inst: Instrument): (res: Result<PricingResult>)
    requires CurveShaped(ctx.market.discount)
  {
    if ctx.model.None? then Err(InvalidInput("PricingContext.model is null"))
    else match inst
      case ZeroCoupon(b) =>
        var valid := ValidateZero(b);
        if valid.Fail? then Err(valid.error)
        else
          var model := RequireModel(ctx, FlatRate, EngineName);
          if model.Err? then Err(model.error)
          else Ok(NpvOnly(ZeroCouponNpv(m, ctx.market.discount, model.value.rate, b)))
      case FixedRate(b) =>
        var valid := ValidateFixed(b);
        if valid.Fail? then Err(valid.error)
        else
          var model := RequireModel(ctx, FlatRate, EngineName);
          if model.Err? then Err(model.error)
          else Ok(NpvOnly(FixedRateNpv(m, ctx.market.discount, model.value.rate, b)))
      case Vanilla(_) => Err(UnsupportedInstrument("FlatRateBondAnalyticEngine does not support vanilla options."))
      case Asian(_) => Err(UnsupportedInstrument("FlatRateBondAnalyticEngine does not support Asian options."))
      case Future(_) => Err(UnsupportedInstrument("FlatRateBondAnalyticEngine does not support equity futures."))
  }

  /** The fixed-rate visit accumulates the coupons one date at a time. */
  method Run(m: Math, ctx: PricingContext, inst: Instrument) returns (res: Result<PricingResult>)
    requires CurveShaped(ctx.market.discount)
    ensures res == Price(m, ctx, inst)
  {
    if ctx.model.None? || !inst.FixedRate? {
      return Price(m, ctx, inst);
    }
    var bond := inst.bond;
    :- ValidateFixed(bond);
    var model :- RequireModel(ctx, FlatRate, EngineName);
    var npv := RunFixedRate(m, ctx.market.discount, model.rate, bond);
    res := Ok(NpvOnly(npv));
  }

  /** The fixed-rate bond's value: the coupon loop, then the principal. */
  method RunFixedRate(m: Math, curve: Option<DiscountCurve>, r: real, bond: FixedRateBond) returns (npv: real)
    requires CurveShaped(curve)
    ensures npv == FixedRateNpv(m, curve, r, bond)
  {
    var n := CouponCount(bond.maturity, bond.couponFrequency);
    var dt := Period(bond.maturity, n);
    var pvCoupons := SumCoupons(m, curve, r, CouponAmount(bond), dt, n);
    var pvPrincipal := bond.notional * BondDiscount(m, curve, r, bond.maturity);
    npv := pvCoupons + pvPrincipal;
  }

  /** The coupon loop: `n` coupons discounted from `dt, 2 dt, ..., n dt`. */
  method SumCoupons(m: Math, curve: Option<DiscountCurve>, r: real, coupon: real, dt: real, n: nat)
    returns (pvCoupons: real)
    requires CurveShaped(curve)
    ensures pvCoupons == CouponsPv(m, curve, r, coupon, dt, n)
  {
    pvCoupons := 0.0;
    var i := 1;
    while i <= n
      invariant 1 <= i <= n + 1
      invariant pvCoupons == CouponsPv(m, curve, r, coupon, dt, i - 1)
    {
      var t := dt * i as real;
      assert CouponsPv(m, curve, r, coupon, dt, i) == CouponsPv(m, curve, r, coupon, dt, i - 1) + coupon * BondDiscount(m, curve, r, t);
      pvCoupons := pvCoupons + coupon * BondDiscount(m, curve, r, t);
      i := i + 1;
    }
  }

  // ---- properties ----

  /** Both curve constructors build curves the engine can look up. */
  lemma ConstructedCurvesShaped(rate: real, times: seq<real>, dfs: seq<real>)
    ensures CurveShaped(Some(FlatCurve(rate)))
    ensures WellFormed(times, dfs) ==> CurveShaped(Some(DiscountCurve(times, dfs, 0.0, false)))
  {
  }

  /** The engine's errors and the cases that raise them. */
  lemma PriceErrors(m: Math, ctx: PricingContext, inst: Instrument)
    requires CurveShaped(ctx.market.discount)
    ensures ctx.model.None? ==> Price(m, ctx, inst) == Err(InvalidInput("PricingContext.model is null"))
    ensures ctx.model.Some? && !inst.ZeroCoupon? && !inst.FixedRate? ==> IsUnsupported(Price(m, ctx, inst))
    ensures (inst.ZeroCoupon? || inst.FixedRate?) && Price(m, ctx, inst).Err? ==> IsInvalid(Price(m, ctx, inst))
  {
  }

  /** A bond is priced exactly when it passes its checks under a flat-rate model. */
  lemma PriceAccepts(m: Math, ctx: PricingContext, inst: Instrument)
    requires CurveShaped(ctx.market.discount)
    ensures inst.ZeroCoupon? ==>
      (Price(m, ctx, inst).Ok? <==> ctx.model.Some? && ctx.model.value.FlatRateModel? && ValidateZero(inst.zero).Pass?)
    ensures inst.FixedRate? ==>
      (Price(m, ctx, inst).Ok? <==> ctx.model.Some? && ctx.model.value.FlatRateModel? && ValidateFixed(inst.bond).Pass?)
    ensures Price(m, ctx, inst).Ok? ==> Price(m, ctx, inst).value.greeks == NoGreeks
  {
  }

  /**
   * Without a curve the zero-coupon price is `notional * exp(-r T)`; with a
   * curve it is the notional times the curve's factor at maturity.
   */
  lemma ZeroCouponPrice(m: Math, ctx: PricingContext, b: ZeroCouponBond)
    requires CurveShaped(ctx.market.discount)
    requires Price(m, ctx, ZeroCoupon(b)).Ok?
    ensures ctx.model.Some? && ctx.model.value.FlatRateModel?
    ensures ctx.market.discount.None? ==>
      Price(m, ctx, ZeroCoupon(b)).value.npv == b.notional * FlatDiscount(m, ctx.model.value.rate, b.maturity)
    ensures ctx.market.discount.Some? ==>
      Price(m, ctx, ZeroCoupon(b)).value.npv == b.notional * Discount(m, ctx.market.discount.value, b.maturity)
  {
  }

  /** The grid ends at maturity: the last coupon is paid at `T`. */
  lemma LastCouponAtMaturity(maturity: real, frequency: int)
    ensures var n := CouponCount(maturity, frequency);
      Period(maturity, n) * n as real == maturity
  {
    var k := CouponCount(maturity, frequency) as real;
    var p := Period(maturity, CouponCount(maturity, frequency));
    assert p == maturity / k;
    assert p * k == maturity;
  }

  /** A zero coupon pays nothing on any number of dates. */
  lemma {:induction false} NoCoupons(m: Math, curve: Option<DiscountCurve>, r: real, dt: real, k: nat)
    requires CurveShaped(curve)
    ensures CouponsPv(m, curve, r, 0.0, dt, k) == 0.0
  {
    if k > 0 {
      NoCoupons(m, curve, r, dt, k - 1);
    }
  }

  /** With a zero coupon rate the fixed-rate bond is worth the zero-coupon bond. */
  lemma ZeroRateIsZeroCoupon(m: Math, curve: Option<DiscountCurve>, r: real, b: FixedRateBond)
    requires CurveShaped(curve) && b.couponRate == 0.0
    ensures FixedRateNpv(m, curve, r, b) == ZeroCouponNpv(m, curve, r, ZeroCouponBond(b.maturity, b.notional))
  {
    var n := CouponCount(b.maturity, b.couponFrequency);
    assert CouponAmount(b) == 0.0;
    NoCoupons(m, curve, r, Period(b.maturity, n), n);
  }

  /** With a single period the bond pays `(notional c T + notional) df(T)`. */
  lemma OnePeriod(m: Math, curve: Option<DiscountCurve>, r: real, b: FixedRateBond)
    requires CurveShaped(curve) && CouponCount(b.maturity, b.couponFrequency) == 1
    ensures var df := BondDiscount(m, curve, r, b.maturity);
      FixedRateNpv(m, curve, r, b) == (b.notional * b.couponRate * b.maturity + b.notional) * df
  {
    var dt := Period(b.maturity, 1);
    var df := BondDiscount(m, curve, r, b.maturity);
    assert dt == b.maturity;
    assert dt * 1 as real == b.maturity;
    var coupon := CouponAmount(b);
    assert coupon == b.notional * b.couponRate * b.maturity;
    assert CouponsPv(m, curve, r, coupon, dt, 1) == coupon * df;
    Distribute(coupon, b.notional, df);
  }

  lemma Distribute(c: real, n: real, df: real)
    ensures c * df + n * df == (c + n) * df
  {
  }

  /** Under a flat rate every coupon's present value is non-negative, and so is their sum. */
  lemma {:induction false} CouponsNonNegative(m: Math, r: real, coupon: real, dt: real, k: nat)
    requires ExpPositive(m) && coupon >= 0.0
    ensures CouponsPv(m, None, r, coupon, dt, k) >= 0.0
  {
    if k > 0 {
      CouponsNonNegative(m, r, coupon, dt, k - 1);
      var df := BondDiscount(m, None, r, dt * k as real);
      assert df > 0.0;
      ScaleMonotone(coupon, 0.0, df);
    }
  }

  /**
   * A coupon-paying bond under a flat rate is worth at least its
   * principal leg (a positive notional, a non-negative coupon rate).
   */
  lemma CouponsAddValue(m: Math, r: real, b: FixedRateBond)
    requires ExpPositive(m) && b.notional > 0.0 && b.couponRate >= 0.0 && b.maturity > 0.0
    ensures FixedRateNpv(m, None, r, b) >= ZeroCouponNpv(m, None, r, ZeroCouponBond(b.maturity, b.notional))
  {
    var n := CouponCount(b.maturity, b.couponFrequency);
    var dt := Period(b.maturity, n);
    assert dt > 0.0;
    ProductOfThree(b.notional, b.couponRate, dt);
    CouponsNonNegative(m, r, CouponAmount(b), dt, n);
  }

  lemma ProductOfThree(x: real, y: real, z: real)
    requires x >= 0.0 && y >= 0.0 && z >= 0.0
    ensures x * y * z >= 0.0
  {
    ScaleMonotone(x, 0.0, y);
    ScaleMonotone(x * y, 0.0, z);
  }
}
