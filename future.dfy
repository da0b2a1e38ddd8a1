// The equity future engine: cost-of-carry forward `S0 e^{(r-q)T}`, and the
// value of a position struck at K as the discounted difference
// `notional (F0 - K) e^{-rT}`. It sets no Greeks.
module Future {
  import opened Core
  import opened Instruments
  import opened DiscountCurves
  import opened Pricing

  /** The checks, in order: maturity, notional, strike. A negative notional passes. */
  function ValidateFuture(f: EquityFuture): (o: Outcome)
    ensures o.Pass? <==> f.maturity > 0.0 && f.notional != 0.0 && f.strike > 0.0
    ensures o.Fail? ==> o.error.InvalidInput?
    ensures !(f.maturity > 0.0) ==> o == Fail(InvalidInput("EquityFuture maturity must be > 0"))
  {
    if !(f.maturity > 0.0) then Fail(InvalidInput("EquityFuture maturity must be > 0"))
    else if !(f.notional != 0.0) then Fail(InvalidInput("EquityFuture notional must be non-zero"))
    else if !(f.strike > 0.0) then Fail(InvalidInput("EquityFuture strike must be > 0"))
    else Pass
  }

  /** The cost-of-carry forward `S0 e^{(r - q) T}`. */
  function CarryForward(m: Math, bs: Model, t: real): real
    requires bs.BlackScholesModel?
  {
    bs.s0 * Exp(m, Carry(bs.r, bs.q, t))
  }

  /** The carry exponent `(r - q) T`. */
  function Carry(r: real, q: real, t: real): real
  {
    (r - q) * t
  }

  /** `notional (F0 - K) e^{-rT}`. */
  function FutureNpv(m: Math, bs: Model, f: EquityFuture): real
    requires bs.BlackScholesModel?
  {
    f.notional * (CarryForward(m, bs, f.maturity) - f.strike) * FlatDiscount(m, bs.r, f.maturity)
  }

  const EngineName: string := "BSEquityFutureAnalyticEngine"

  /**
   * The engine: the model must be present; a future is validated, then the
   * model must be a local-volatility (Black-Scholes) one; options and
   * bonds are refused.
   */
  function Price(m: Math, ctx: PricingContext, inst: Instrument): (res: Result<PricingResult>)
  {
    if ctx.model.None? then Err(InvalidInput("PricingContext.model is null"))
    else match inst
      case Future(f) =>
        var valid := ValidateFuture(f);
        if valid.Fail? then Err(valid.error)
        else
          var model := RequireModel(ctx, LocalVol, EngineName);
          if model.Err? then Err(model.error)
          else Ok(NpvOnly(FutureNpv(m, model.value, f)))
      case Vanilla(_) => Err(UnsupportedInstrument("BSEquityFutureAnalyticEngine does not support vanilla options."))
      case Asian(_) => Err(UnsupportedInstrument("BSEquityFutureAnalyticEngine does not support Asian options."))
      case ZeroCoupon(_) => Err(UnsupportedInstrument("BSEquityFutureAnalyticEngine does not support bonds."))
      case FixedRate(_) => Err(UnsupportedInstrument("BSEquityFutureAnalyticEngine does not support bonds."))
  }

  // ---- properties ----

  /** The engine's errors and the cases that raise them. */
  lemma PriceErrors(m: Math, ctx: PricingContext, inst: Instrument)
    ensures ctx.model.None? ==> Price(m, ctx, inst) == Err(InvalidInput("PricingContext.model is null"))
    ensures ctx.model.Some? && !inst.Future? ==> IsUnsupported(Price(m, ctx, inst))
    ensures inst.Future? && Price(m, ctx, inst).Err? ==> IsInvalid(Price(m, ctx, inst))
  {
  }

  /**
   * A future is priced exactly when it passes its checks under the
   * Black-Scholes model, and the result is its cost-of-carry value alone.
   */
  lemma PriceAccepts(m: Math, ctx: PricingContext, inst: Instrument)
    ensures Price(m, ctx, inst).Ok? <==>
      ctx.model.Some? && inst.Future? && ValidateFuture(inst.future).Pass? && ctx.model.value.BlackScholesModel?
    ensures Price(m, ctx, inst).Ok? ==>
      Price(m, ctx, inst) == Ok(NpvOnly(FutureNpv(m, ctx.model.value, inst.future)))
  {
  }

  /** Struck at the forward, the future is worth nothing. */
  lemma AtForwardWorthless(m: Math, bs: Model, f: EquityFuture)
    requires bs.BlackScholesModel? && f.strike == CarryForward(m, bs, f.maturity)
    ensures FutureNpv(m, bs, f) == 0.0
  {
  }

  /** The value is linear in the notional: a position of size `k` is worth `k` unit positions. */
  lemma LinearInNotional(m: Math, bs: Model, f: EquityFuture, k: real)
    requires bs.BlackScholesModel?
    ensures FutureNpv(m, bs, f.(notional := k)) == k * FutureNpv(m, bs, f.(notional := 1.0))
  {
    var x := CarryForward(m, bs, f.maturity) - f.strike;
    var df := FlatDiscount(m, bs.r, f.maturity);
    UnitScale(k, x, df);
  }

  lemma UnitScale(k: real, x: real, df: real)
    ensures k * x * df == k * (1.0 * x * df)
  {
  }

  /**
   * With a positive exponential, a long position (positive notional) has
   * positive value exactly when the forward is above the strike.
   */
  lemma ValueSign(m: Math, bs: Model, f: EquityFuture)
    requires ExpPositive(m) && bs.BlackScholesModel? && f.notional > 0.0
    ensures FutureNpv(m, bs, f) > 0.0 <==> CarryForward(m, bs, f.maturity) > f.strike
    ensures FutureNpv(m, bs, f) == 0.0 <==> CarryForward(m, bs, f.maturity) == f.strike
  {
    var x := CarryForward(m, bs, f.maturity) - f.strike;
    var df := FlatDiscount(m, bs.r, f.maturity);
    assert df > 0.0;
    PositiveScaling(f.notional, x, df);
  }

  lemma PositiveScaling(n: real, x: real, df: real)
    requires n > 0.0 && df > 0.0
    ensures n * x * df > 0.0 <==> x > 0.0
    ensures n * x * df == 0.0 <==> x == 0.0
  {
    assert n * df > 0.0;
    assert n * x * df == x * (n * df);
  }

  /**
   * With the library's exponential laws the value is the spot discounted
   * at the dividend yield less the strike discounted at the rate:
   * `notional (S0 e^{-qT} - K e^{-rT})`.
   */
  lemma DiscountedForward(m: Math, bs: Model, f: EquityFuture)
    requires ExpAdditive(m) && bs.BlackScholesModel?
    ensures FutureNpv(m, bs, f) ==
      f.notional * (bs.s0 * FlatDiscount(m, bs.q, f.maturity) - f.strike * FlatDiscount(m, bs.r, f.maturity))
  {
    var t := f.maturity;
    CarryDiscount(m, bs.r, bs.q, t);
    CarryAlgebra(f.notional, CarryForward(m, bs, t), bs.s0, Exp(m, Carry(bs.r, bs.q, t)), f.strike,
                 FlatDiscount(m, bs.r, t), FlatDiscount(m, bs.q, t));
  }

  /** Growing at the carry and discounting at the rate is discounting at the yield. */
  lemma CarryDiscount(m: Math, r: real, q: real, t: real)
    requires ExpAdditive(m)
    ensures Exp(m, Carry(r, q, t)) * FlatDiscount(m, r, t) == FlatDiscount(m, q, t)
  {
    ExpAddTo(m, (r - q) * t, -r * t, -q * t);
  }

  lemma CarryAlgebra(n: real, fwd: real, s: real, g: real, k: real, dr: real, dq: real)
    requires fwd == s * g && g * dr == dq
    ensures n * (fwd - k) * dr == n * (s * dq - k * dr)
  {
  }
}
