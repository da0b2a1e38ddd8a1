// The Black-Scholes closed-form engine for European vanilla options, and
// the Black formula it shares with the geometric Asian engine: price and
// five Greeks from a forward, two discount factors and d1, d2. With a
// symmetric normal distribution function the call and put results are
// tied by the parity relations proved here.
module AnalyticBs {
  import opened Core
  import opened Instruments
  import opened Pricing
  import opened Validation
  import opened DiscountCurves

  /** The terms both branches of a Black formula share. */
  datatype Terms = Terms(dfR: real, dfQ: real, forward: real, stddev: real, d1: real, d2: real)

  /**
   * What the Black formula is evaluated on: the spot, the two rates, the
   * volatility in theta's decay term, the factor of vega after
   * `S0 df_q n(d1)`, the notional, the maturity and the strike.
   */
  datatype BlackInputs = BlackInputs(
    s0: real, r: real, q: real, thetaVol: real, vegaScale: real,
    notional: real, maturity: real, strike: real)

  /** `d1 = (ln(F/K) + stddev^2/2) / stddev`. */
  function D1(m: Math, forward: real, strike: real, stddev: real): real
  {
    GuardedQuotient(Log(m, GuardedQuotient(forward, strike)) + 0.5 * stddev * stddev, stddev)
  }

  /** The terms of a Black formula, with `d2 = d1 - stddev`. */
  function BlackTerms(m: Math, dfR: real, dfQ: real, forward: real, stddev: real, strike: real): Terms
  {
    var d1 := D1(m, forward, strike, stddev);
    Terms(dfR, dfQ, forward, stddev, d1, d1 - stddev)
  }

  /** The Black price: `notional df_r (F N(d1) - K N(d2))` for a call, `notional df_r (K N(-d2) - F N(-d1))` for a put. */
  function BlackNpv(m: Math, optionType: OptionType, notional: real, strike: real,
                    dfR: real, forward: real, d1: real, d2: real): real
  {
    match optionType
    case Call => notional * (dfR * (forward * Cdf(m, d1) - strike * Cdf(m, d2)))
    case Put => notional * (dfR * (strike * Cdf(m, -d2) - forward * Cdf(m, -d1)))
  }

  /** The part of theta both branches share: `-(S0 df_q n(d1) vol) / (2 sqrt T)`, absent if `sqrt T` is 0. */
  function Decay(m: Math, b: BlackInputs, t: Terms): Option<real>
  {
    Ratio(-(b.s0 * t.dfQ * Pdf(m, t.d1) * b.thetaVol), 2.0 * Sqrt(m, b.maturity))
  }

  /** Gamma, the same for both branches: `notional df_q n(d1) / (S0 stddev)`, absent when `S0 stddev` is 0. */
  function Gamma(m: Math, b: BlackInputs, t: Terms): Option<real>
  {
    Ratio(b.notional * (t.dfQ * Pdf(m, t.d1)), b.s0 * t.stddev)
  }

  /** Vega, the same for both branches: `notional S0 df_q n(d1)` times the vega factor. */
  function Vega(m: Math, b: BlackInputs, t: Terms): real
  {
    b.notional * (b.s0 * t.dfQ * Pdf(m, t.d1) * b.vegaScale)
  }

  /** The call branch. */
  function CallResult(m: Math, b: BlackInputs, t: Terms): PricingResult
  {
    var decay := Decay(m, b, t);
    PricingResult(
      BlackNpv(m, Call, b.notional, b.strike, t.dfR, t.forward, t.d1, t.d2),
      Greeks(
        Some(b.notional * (t.dfQ * Cdf(m, t.d1))),
        Gamma(m, b, t),
        Some(Vega(m, b, t)),
        if decay.None? then None
        else Some(b.notional * (decay.value - b.r * b.strike * t.dfR * Cdf(m, t.d2) + b.q * b.s0 * t.dfQ * Cdf(m, t.d1))),
        Some(b.notional * (b.maturity * b.strike * t.dfR * Cdf(m, t.d2))),
        None, None, None, None, None),
      0.0)
  }

  /** The put branch. */
  function PutResult(m: Math, b: BlackInputs, t: Terms): PricingResult
  {
    var decay := Decay(m, b, t);
    PricingResult(
      BlackNpv(m, Put, b.notional, b.strike, t.dfR, t.forward, t.d1, t.d2),
      Greeks(
        Some(b.notional * (t.dfQ * (Cdf(m, t.d1) - 1.0))),
        Gamma(m, b, t),
        Some(Vega(m, b, t)),
        if decay.None? then None
        else Some(b.notional * (decay.value + b.r * b.strike * t.dfR * Cdf(m, -t.d2) - b.q * b.s0 * t.dfQ * Cdf(m, -t.d1))),
        Some(b.notional * (-b.maturity * b.strike * t.dfR * Cdf(m, -t.d2))),
        None, None, None, None, None),
      0.0)
  }

  function BlackResult(m: Math, optionType: OptionType, b: BlackInputs, t: Terms): PricingResult
  {
    match optionType
    case Call => CallResult(m, b, t)
    case Put => PutResult(m, b, t)
  }

  // ---- the vanilla engine ----

  /** The vanilla engine's inputs: theta decays with sigma, and vega's factor is `sqrt T`. */
  function VanillaInputs(m: Math, bs: Model, opt: VanillaOption): BlackInputs
    requires bs.BlackScholesModel? && VanillaValid(opt, true)
  {
    var maturity := opt.exercise.value.dates[0];
    BlackInputs(bs.s0, bs.r, bs.q, bs.sigma, Sqrt(m, maturity), opt.notional, maturity, opt.payoff.value.strike)
  }

  /**
   * `df_r = exp(-r T)`, `df_q = exp(-q T)`, the forward `S0 df_q / df_r`
   * and `stddev = sigma sqrt(T)`.
   */
  function VanillaTerms(m: Math, b: BlackInputs): Terms
  {
    var dfR := FlatDiscount(m, b.r, b.maturity);
    var dfQ := FlatDiscount(m, b.q, b.maturity);
    BlackTerms(m, dfR, dfQ, GuardedQuotient(b.s0 * dfQ, dfR), b.thetaVol * Sqrt(m, b.maturity), b.strike)
  }

  /** The closed form for a validated option. */
  function Formula(m: Math, bs: Model, opt: VanillaOption): PricingResult
    requires bs.BlackScholesModel? && VanillaValid(opt, true)
  {
    var b := VanillaInputs(m, bs, opt);
    BlackResult(m, opt.payoff.value.optionType, b, VanillaTerms(m, b))
  }

  /** The vanilla visit: the checks, the model interface, then the closed form. */
  function PriceVanilla(m: Math, ctx: PricingContext, opt: VanillaOption): Result<PricingResult>
    requires ctx.model.Some?
  {
    var valid := ValidateEuropean(opt);
    if valid.Fail? then Err(valid.error)
    else
      var model := RequireModel(ctx, LocalVol, "BSEuroVanillaAnalyticEngine");
      if model.Err? then Err(model.error)
      else
        EquityInterfacesNeedBlackScholes(ctx, LocalVol, "BSEuroVanillaAnalyticEngine");
        Ok(Formula(m, model.value, opt))
  }

  /** The engine: the model check, then the vanilla visit; every other instrument is unsupported. */
  function Price(m: Math, ctx: PricingContext, inst: Instrument): Result<PricingResult>
  {
    if ctx.model.None? then Err(InvalidInput("PricingContext.model is null"))
    else match inst
      case Vanilla(opt) => PriceVanilla(m, ctx, opt)
      case Asian(_) =>
        Err(UnsupportedInstrument("BSEuroVanillaAnalyticEngine does not support Asian options. " +
                                  "Use BSEuroArithmeticAsianAnalyticEngine or BSEuroGeometricAsianAnalyticEngine instead."))
      case Future(_) => Err(UnsupportedInstrument("BSEuroVanillaAnalyticEngine does not support equity futures."))
      case ZeroCoupon(_) => Err(UnsupportedInstrument("BSEuroVanillaAnalyticEngine does not support bonds."))
      case FixedRate(_) => Err(UnsupportedInstrument("BSEuroVanillaAnalyticEngine does not support bonds."))
  }

  // ---- properties of the Black formula ----

  /** `N(-x) = 1 - N(x)`, the step every parity relation takes. */
  lemma CdfPair(m: Math, x: real)
    requires CdfSymmetric(m)
    ensures Cdf(m, -x) == 1.0 - Cdf(m, x)
  {
    CdfSym(m, x);
  }

  /** Put-call parity of the Black price: `C - P = notional df_r (F - K)`. */
  lemma BlackNpvParity(m: Math, notional: real, strike: real, dfR: real, forward: real, d1: real, d2: real)
    requires CdfSymmetric(m)
    ensures BlackNpv(m, Call, notional, strike, dfR, forward, d1, d2) - BlackNpv(m, Put, notional, strike, dfR, forward, d1, d2)
            == notional * (dfR * forward - strike * dfR)
  {
    CdfPair(m, d1);
    CdfPair(m, d2);
    ParityAlgebra(notional, dfR, forward, strike, Cdf(m, d1), Cdf(m, d2));
  }

  /** Put-call parity of the Black formula's results. */
  lemma BlackParity(m: Math, b: BlackInputs, t: Terms)
    requires CdfSymmetric(m)
    ensures CallResult(m, b, t).npv - PutResult(m, b, t).npv == b.notional * (t.dfR * t.forward - b.strike * t.dfR)
  {
    BlackNpvParity(m, b.notional, b.strike, t.dfR, t.forward, t.d1, t.d2);
  }

  lemma ParityAlgebra(n: real, df: real, f: real, k: real, n1: real, n2: real)
    ensures n * (df * (f * n1 - k * n2)) - n * (df * (k * (1.0 - n2) - f * (1.0 - n1))) == n * (df * f - k * df)
  {
  }

  /** Delta parity: call delta minus put delta is `notional df_q`, whatever the distribution function. */
  lemma DeltaParity(m: Math, b: BlackInputs, t: Terms)
    ensures CallResult(m, b, t).greeks.delta.Some? && PutResult(m, b, t).greeks.delta.Some?
    ensures CallResult(m, b, t).greeks.delta.value - PutResult(m, b, t).greeks.delta.value == b.notional * t.dfQ
  {
    DeltaAlgebra(b.notional, t.dfQ, Cdf(m, t.d1));
  }

  lemma DeltaAlgebra(n: real, df: real, n1: real)
    ensures n * (df * n1) - n * (df * (n1 - 1.0)) == n * df
  {
  }

  /** Rho parity: call rho minus put rho is `notional T K df_r`. */
  lemma RhoParity(m: Math, b: BlackInputs, t: Terms)
    requires CdfSymmetric(m)
    ensures CallResult(m, b, t).greeks.rho.Some? && PutResult(m, b, t).greeks.rho.Some?
    ensures CallResult(m, b, t).greeks.rho.value - PutResult(m, b, t).greeks.rho.value ==
            b.notional * b.maturity * b.strike * t.dfR
  {
    CdfPair(m, t.d2);
    RhoAlgebra(b.notional, b.maturity * b.strike * t.dfR, Cdf(m, t.d2));
  }

  lemma RhoAlgebra(n: real, a: real, n2: real)
    ensures n * (a * n2) - n * (-a * (1.0 - n2)) == n * a
  {
  }

  /** Theta parity: both thetas are reported exactly when `sqrt T` is non-zero, and then differ by `notional (q S0 df_q - r K df_r)`. */
  lemma ThetaParity(m: Math, b: BlackInputs, t: Terms)
    requires CdfSymmetric(m)
    ensures CallResult(m, b, t).greeks.theta.Some? <==> Sqrt(m, b.maturity) != 0.0
    ensures PutResult(m, b, t).greeks.theta.Some? <==> Sqrt(m, b.maturity) != 0.0
    ensures CallResult(m, b, t).greeks.theta.Some? ==>
      CallResult(m, b, t).greeks.theta.value - PutResult(m, b, t).greeks.theta.value ==
      b.notional * (b.q * b.s0 * t.dfQ - b.r * b.strike * t.dfR)
  {
    var decay := Decay(m, b, t);
    if decay.Some? {
      CdfPair(m, t.d1);
      CdfPair(m, t.d2);
      ThetaAlgebra(b.notional, decay.value, b.r * b.strike * t.dfR, b.q * b.s0 * t.dfQ, Cdf(m, t.d1), Cdf(m, t.d2));
    }
  }

  lemma ThetaAlgebra(n: real, d: real, rk: real, qs: real, n1: real, n2: real)
    ensures n * (d - rk * n2 + qs * n1) - n * (d + rk * (1.0 - n2) - qs * (1.0 - n1)) == n * (qs - rk)
  {
  }

  /** Gamma and vega do not depend on the option type; gamma is reported exactly when `S0 stddev` is non-zero. */
  lemma GammaVegaShared(m: Math, b: BlackInputs, t: Terms)
    ensures CallResult(m, b, t).greeks.gamma == PutResult(m, b, t).greeks.gamma
    ensures CallResult(m, b, t).greeks.vega == PutResult(m, b, t).greeks.vega
    ensures CallResult(m, b, t).greeks.gamma.Some? <==> b.s0 * t.stddev != 0.0
    ensures CallResult(m, b, t).greeks.vega.Some?
  {
  }

  /**
   * With a distribution function valued in [0, 1], a positive forward,
   * discount factor, strike and notional: the call is worth at most
   * `notional df_r F` and the put at most `notional df_r K`.
   */
  lemma BlackBounds(m: Math, b: BlackInputs, t: Terms)
    requires CdfBounded(m)
    requires t.forward > 0.0 && t.dfR > 0.0 && b.strike > 0.0 && b.notional > 0.0
    ensures CallResult(m, b, t).npv <= b.notional * (t.dfR * t.forward)
    ensures PutResult(m, b, t).npv <= b.notional * (t.dfR * b.strike)
  {
    BoundAlgebra(b.notional, t.dfR, t.forward, b.strike, Cdf(m, t.d1), Cdf(m, t.d2));
    BoundAlgebra(b.notional, t.dfR, b.strike, t.forward, Cdf(m, -t.d2), Cdf(m, -t.d1));
  }

  /** `n df (a x - c y) <= n df a` for weights in [0, 1] and positive `a`, `c`, `n`, `df`. */
  lemma BoundAlgebra(n: real, df: real, a: real, c: real, x: real, y: real)
    requires n > 0.0 && df > 0.0 && a > 0.0 && c > 0.0
    requires 0.0 <= x <= 1.0 && 0.0 <= y <= 1.0
    ensures n * (df * (a * x - c * y)) <= n * (df * a)
  {
    ScaleMonotone(a, x, 1.0);
    ScaleMonotone(c, 0.0, y);
    assert a * x - c * y <= a;
    ScaleMonotone(df, a * x - c * y, a);
    ScaleMonotone(n, df * (a * x - c * y), df * a);
  }

  // ---- properties of the vanilla engine ----

  /** The vanilla discount factors are the flat `exp(-r T)` and `exp(-q T)`, both positive. */
  lemma VanillaDiscounts(m: Math, b: BlackInputs)
    requires ExpPositive(m)
    ensures VanillaTerms(m, b).dfR == FlatDiscount(m, b.r, b.maturity) && VanillaTerms(m, b).dfR > 0.0
    ensures VanillaTerms(m, b).dfQ == FlatDiscount(m, b.q, b.maturity) && VanillaTerms(m, b).dfQ > 0.0
  {
  }

  /** The forward grows the spot at the carry: `F df_r = S0 df_q`; and `d2 = d1 - sigma sqrt T`. */
  lemma VanillaForward(m: Math, b: BlackInputs)
    requires ExpPositive(m)
    ensures var t := VanillaTerms(m, b);
      t.forward * t.dfR == b.s0 * t.dfQ && t.d2 == t.d1 - b.thetaVol * Sqrt(m, b.maturity) &&
      t.dfR > 0.0 && t.dfQ > 0.0
  {
    VanillaDiscounts(m, b);
  }

  /** Vanilla put-call parity: `C - P = notional (S0 df_q - K df_r)`. */
  lemma VanillaParity(m: Math, bs: Model, opt: VanillaOption)
    requires ExpPositive(m) && CdfSymmetric(m)
    requires bs.BlackScholesModel? && VanillaValid(opt, true)
    ensures var b := VanillaInputs(m, bs, opt);
      var t := VanillaTerms(m, b);
      CallResult(m, b, t).npv - PutResult(m, b, t).npv == b.notional * (b.s0 * t.dfQ - b.strike * t.dfR)
  {
    var b := VanillaInputs(m, bs, opt);
    var t := VanillaTerms(m, b);
    VanillaForward(m, b);
    BlackParity(m, b, t);
    assert t.dfR * t.forward == b.s0 * t.dfQ;
  }

  /** With a positive spot the call is worth at most `notional S0 df_q`, the put at most `notional K df_r`. */
  lemma VanillaBounds(m: Math, bs: Model, opt: VanillaOption)
    requires ExpPositive(m) && CdfBounded(m)
    requires bs.BlackScholesModel? && bs.s0 > 0.0 && VanillaValid(opt, true)
    ensures var b := VanillaInputs(m, bs, opt);
      var t := VanillaTerms(m, b);
      CallResult(m, b, t).npv <= b.notional * (b.s0 * t.dfQ) &&
      PutResult(m, b, t).npv <= b.notional * (b.strike * t.dfR)
  {
    var b := VanillaInputs(m, bs, opt);
    var t := VanillaTerms(m, b);
    VanillaForward(m, b);
    PositiveFactor(t.forward, t.dfR, b.s0 * t.dfQ);
    BlackBounds(m, b, t);
  }

  /** A factor of a positive product with a positive cofactor is positive. */
  lemma PositiveFactor(x: real, y: real, p: real)
    requires x * y == p && p > 0.0 && y > 0.0
    ensures x > 0.0
  {
  }

  /** The engine's error cases, in the order it checks them. */
  lemma PriceErrors(m: Math, ctx: PricingContext, inst: Instrument)
    ensures ctx.model.None? ==> Price(m, ctx, inst) == Err(InvalidInput("PricingContext.model is null"))
    ensures ctx.model.Some? && !inst.Vanilla? ==> IsUnsupported(Price(m, ctx, inst))
  {
    if ctx.model.Some? && !inst.Vanilla? {
      assert Price(m, ctx, inst).Err?;
    }
  }

  /** American exercise is refused as unsupported. */
  lemma PriceRefusesAmerican(m: Math, ctx: PricingContext, opt: VanillaOption)
    requires ctx.model.Some? && opt.payoff.Some? && opt.exercise.Some? && opt.exercise.value.kind == American
    ensures IsUnsupported(Price(m, ctx, Vanilla(opt)))
  {
  }

  /** The engine prices exactly the valid vanilla options under the Black-Scholes model, by the closed form. */
  lemma PriceAccepts(m: Math, ctx: PricingContext, inst: Instrument)
    ensures Price(m, ctx, inst).Ok? <==> ctx.model.Some? && inst.Vanilla? && VanillaValid(inst.vanilla, true) &&
                                         ctx.model.value.BlackScholesModel?
    ensures Price(m, ctx, inst).Ok? ==> Price(m, ctx, inst).value == Formula(m, ctx.model.value, inst.vanilla)
  {
  }

  /** The closed form reports every Greek, theta only when `sqrt T` is non-zero, and no standard errors. */
  lemma FormulaShape(m: Math, bs: Model, opt: VanillaOption)
    requires bs.BlackScholesModel? && VanillaValid(opt, true)
    ensures var g := Formula(m, bs, opt).greeks;
      g.delta.Some? && g.vega.Some? && g.rho.Some? &&
      (g.theta.Some? <==> Sqrt(m, opt.exercise.value.dates[0]) != 0.0) &&
      g.deltaStdError.None? && g.gammaStdError.None? && g.vegaStdError.None? &&
      g.thetaStdError.None? && g.rhoStdError.None? && Formula(m, bs, opt).mcStdError == 0.0
  {
  }
}
