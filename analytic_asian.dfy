// The two analytic engines for European Asian options under flat
// Black-Scholes parameters. The arithmetic engine matches the first two
// moments of the continuously monitored average to a lognormal
// (Turnbull-Wakeman) and takes vega, rho and theta from central
// differences of a bumped pricer; the geometric engine is the Black
// formula with the geometric average's volatility `sigma / sqrt 3` and
// carry.
module AnalyticAsian {
  import opened Core
  import opened Instruments
  import opened Pricing
  import opened Validation
  import opened DiscountCurves
  import opened AnalyticBs

  /** What both engines read from a validated option. */
  datatype Deal = Deal(optionType: OptionType, strike: real, maturity: real, notional: real)

  function DealOf(opt: AsianOption): Deal
    requires AsianValid(opt)
  {
    Deal(opt.payoff.value.optionType, opt.payoff.value.strike, opt.exercise.value.dates[0], opt.notional)
  }

  /** `max(x - K, 0)` for a call, `max(K - x, 0)` for a put. */
  function Intrinsic(d: Deal, x: real): real
  {
    match d.optionType
    case Call => Max(x - d.strike, 0.0)
    case Put => Max(d.strike - x, 0.0)
  }

  // The cut-offs of the arithmetic engine.
  const DriftCutoff: real := 0.000000000001       // 1e-12, where E[A] is taken as S0
  const GrowthCutoff: real := 0.0000000000000001  // 1e-16, where (e^{xT} - 1)/x is taken as T
  const StddevFloor: real := 0.00000000000001     // 1e-14, the smallest matched stddev priced by Black
  const RatioCutoff: real := 0.00000001           // 1e-8, where the bumped moment ratio takes its limit
  const MinBumpedMaturity: real := 0.00000001     // 1e-8, the floor of the maturity bumped down a day
  const MinBump: real := 0.000001                 // 1e-6, the smallest vega and rho bump
  const DayBump: real := 1.0 / 365.0

  /**
   * The forward of the continuously monitored average, `E[A_T] =
   * S0 (e^{mu T} - 1) / (mu T)`, taken as `S0` when `|mu| < 1e-12`.
   */
  function AverageForward(m: Math, s0: real, mu: real, t: real): real
    requires t > 0.0
  {
    if Abs(mu) < DriftCutoff then s0 else s0 * GrowthFactor(m, mu * t)
  }

  /** `(e^z - 1) / z`, the average growth over a horizon with total drift `z`; 1 at `z = 0`. */
  function GrowthFactor(m: Math, z: real): real
  {
    if z == 0.0 then 1.0 else (Exp(m, z) - 1.0) / z
  }

  /** `(e^{x t} - 1) / x`, taken as `t` when `|x| < 1e-16` (`expm1` is `exp - 1` here). */
  function GrowthIntegral(m: Math, x: real, t: real): real
  {
    if Abs(x) < GrowthCutoff then t else (Exp(m, x * t) - 1.0) / x
  }

  /**
   * The second moment of the average, `E[A^2] = 2 S0^2 / (T^2 (alpha +
   * beta)) (t1 - t2)` with `alpha = r - q` and `beta = sigma^2`. When
   * `alpha + beta` is 0 the library divides by 0 and multiplies the
   * infinity by `t1 - t2 = 0`, a NaN that fails its positivity check; the
   * model reports no value.
   */
  function SecondMoment(m: Math, s0: real, alpha: real, beta: real, t: real): (e: Option<real>)
    requires t > 0.0
    ensures e.None? <==> alpha + beta == 0.0
  {
    var t1 := GrowthIntegral(m, 2.0 * alpha + beta, t);
    var t2 := GrowthIntegral(m, alpha, t);
    ProductNonZero(t * t, alpha + beta);
    var scale := Ratio(2.0 * s0 * s0, t * t * (alpha + beta));
    if scale.None? then None else Some(scale.value * (t1 - t2))
  }

  /** `sqrt(log M)`, clamped to 0 where `log M` is not positive. */
  function LogStddev(m: Math, ratio: real): (s: real)
  {
    var l := Log(m, ratio);
    if l <= 0.0 then 0.0 else Sqrt(m, l)
  }

  /**
   * The moment-matched standard deviation of the log-average over the
   * horizon, or none where the engine falls back to the discounted
   * intrinsic value of the average forward: no volatility, a moment that
   * is not positive, or a matched deviation of at most 1e-14.
   */
  function MatchedStddev(m: Math, s0: real, mu: real, sigma: real, t: real, fa: real): (s: Option<real>)
    requires t > 0.0
    ensures s.Some? ==> s.value > StddevFloor && sigma > 0.0 && fa > 0.0
  {
    if sigma <= 0.0 then None
    else
      var ea2 := SecondMoment(m, s0, mu, sigma * sigma, t);
      if !(fa > 0.0) || ea2.None? || !(ea2.value > 0.0) then None
      else
        var s := LogStddev(m, ea2.value / (fa * fa));
        if s <= StddevFloor then None else Some(s)
  }

  /** The chain-rule delta `notional df_r dV/dF dF_A/dS0`: `N(d1)` for a call and `N(d1) - 1` for a put. */
  function AverageDelta(m: Math, d: Deal, dfR: real, d1: real, dFdS: real): real
  {
    match d.optionType
    case Call => d.notional * (dfR * Cdf(m, d1) * dFdS)
    case Put => d.notional * (dfR * (Cdf(m, d1) - 1.0) * dFdS)
  }

  /** The delta as the library writes it: the call's formula for both option types. */
  function AsWrittenDelta(m: Math, d: Deal, dfR: real, d1: real, dFdS: real): real
  {
    d.notional * (dfR * Cdf(m, d1) * dFdS)
  }

  // ---- the bumped pricer of vega, rho and theta ----

  /**
   * The moment ratio `E[A^2] / E[A]^2` at zero drift, `2 (e^x - 1 - x) /
   * x^2` with `x = sigma^2 T`, and its limit 1 when `|x| < 1e-8`.
   */
  function MomentRatio(m: Math, x: real): real
  {
    if Abs(x) < RatioCutoff then 1.0
    else
      ProductNonZero(x, x);
      2.0 * (Exp(m, x) - 1.0 - x) / (x * x)
  }

  /** The bumped pricer's moment ratio as the library writes it: `2 e^y (e^y - 1 - y) / x^2` with `y = x / 2`, and 0.25 when `|x| < 1e-8`. */
  function AsWrittenMomentRatio(m: Math, x: real): real
  {
    var y := 0.5 * x;
    if Abs(x) < RatioCutoff then 0.25
    else
      ProductNonZero(x, x);
      2.0 * (Exp(m, y) * ((Exp(m, y) - 1.0) - y)) / (x * x)
  }

  /**
   * The price with the rate, volatility and maturity replaced, given the
   * moment ratio at the bumped parameters. A forward that is not positive
   * is discounted at the unbumped `dfR`; the other fallbacks at the bumped
   * rate and maturity.
   */
  function BumpedWith(m: Math, s0: real, q: real, d: Deal, dfR: real, rP: real, sigmaP: real, tP: real, ratio: real): real
    requires tP > 0.0
  {
    var fp := AverageForward(m, s0, rP - q, tP);
    if !(fp > 0.0) then d.notional * dfR * Intrinsic(d, fp)
    else
      var df := FlatDiscount(m, rP, tP);
      if sigmaP <= 0.0 || !(ratio > 0.0) then d.notional * df * Intrinsic(d, fp)
      else
        var s := LogStddev(m, ratio);
        if s <= StddevFloor then d.notional * df * Intrinsic(d, fp)
        else
          var d1 := D1(m, fp, d.strike, s);
          BlackNpv(m, d.optionType, d.notional, d.strike, df, fp, d1, d1 - s)
  }

  /** The total variance `sigma^2 T` of the bumped parameters. */
  function TotalVariance(sigma: real, t: real): real
  {
    sigma * sigma * t
  }

  /** Which moment ratio the bumped pricer uses: the library's, or the corrected one. */
  datatype RatioRule = AsWritten | Corrected

  function RuleRatio(m: Math, rule: RatioRule, x: real): real
  {
    match rule
    case AsWritten => AsWrittenMomentRatio(m, x)
    case Corrected => MomentRatio(m, x)
  }

  /** The bumped pricer at the total variance of the bumped parameters. */
  function Bumped(m: Math, rule: RatioRule, s0: real, q: real, d: Deal, dfR: real, rP: real, sigmaP: real, tP: real): real
    requires tP > 0.0
  {
    BumpedWith(m, s0, q, d, dfR, rP, sigmaP, tP, RuleRatio(m, rule, TotalVariance(sigmaP, tP)))
  }

  function VegaBump(sigma: real): (e: real)
    ensures e > 0.0
  {
    Max(MinBump, sigma * 0.001)
  }

  function RhoBump(r: real): (e: real)
    ensures e > 0.0
  {
    Max(MinBump, Abs(r) * 0.001)
  }

  /** Vega, rho and theta by central differences of the bumped pricer; theta moves the maturity a day either way. */
  function CentralVega(m: Math, rule: RatioRule, s0: real, q: real, d: Deal, dfR: real, r: real, sigma: real): real
    requires d.maturity > 0.0
  {
    var e := VegaBump(sigma);
    (Bumped(m, rule, s0, q, d, dfR, r, sigma + e, d.maturity) - Bumped(m, rule, s0, q, d, dfR, r, sigma - e, d.maturity)) / (2.0 * e)
  }

  function CentralRho(m: Math, rule: RatioRule, s0: real, q: real, d: Deal, dfR: real, r: real, sigma: real): real
    requires d.maturity > 0.0
  {
    var e := RhoBump(r);
    (Bumped(m, rule, s0, q, d, dfR, r + e, sigma, d.maturity) - Bumped(m, rule, s0, q, d, dfR, r - e, sigma, d.maturity)) / (2.0 * e)
  }

  function CentralTheta(m: Math, rule: RatioRule, s0: real, q: real, d: Deal, dfR: real, r: real, sigma: real): real
    requires d.maturity > 0.0
  {
    var tMinus := Max(MinBumpedMaturity, d.maturity - DayBump);
    (Bumped(m, rule, s0, q, d, dfR, r, sigma, tMinus) - Bumped(m, rule, s0, q, d, dfR, r, sigma, d.maturity + DayBump)) / (2.0 * DayBump)
  }

  // ---- the arithmetic engine ----

  /**
   * Which formula the arithmetic engine applies. It depends on the model,
   * the strike and the maturity, not on the option type or the notional.
   */
  datatype Branch =
    | SpotIntrinsic                          // a spot, strike or maturity that is not positive
    | Fallback(dfR: real, fa: real)          // no volatility, a moment not positive, or a matched stddev of at most 1e-14
    | Matched(dfR: real, fa: real, s: real)  // the Black formula on the matched lognormal

  function ArithmeticBranch(m: Math, bs: Model, strike: real, maturity: real): (b: Branch)
    requires bs.BlackScholesModel?
    ensures b.SpotIntrinsic? <==> !(bs.s0 > 0.0 && strike > 0.0 && maturity > 0.0)
    ensures b.Matched? ==> bs.s0 > 0.0 && maturity > 0.0 && b.s > StddevFloor && b.fa > 0.0 && bs.sigma > 0.0
    ensures !b.SpotIntrinsic? ==>
      b.dfR == FlatDiscount(m, bs.r, maturity) && b.fa == AverageForward(m, bs.s0, bs.r - bs.q, maturity)
  {
    if !(bs.s0 > 0.0) || !(strike > 0.0) || !(maturity > 0.0) then SpotIntrinsic
    else
      var dfR := FlatDiscount(m, bs.r, maturity);
      var fa := AverageForward(m, bs.s0, bs.r - bs.q, maturity);
      var s := MatchedStddev(m, bs.s0, bs.r - bs.q, bs.sigma, maturity, fa);
      if s.None? then Fallback(dfR, fa) else Matched(dfR, fa, s.value)
  }

  /** What a branch may assume about the model and the option. */
  predicate Fits(bs: Model, d: Deal, b: Branch)
  {
    bs.BlackScholesModel? && (b.Matched? ==> bs.s0 > 0.0 && d.maturity > 0.0 && b.s > 0.0)
  }

  /**
   * The price: the undiscounted intrinsic value of the spot, the
   * discounted intrinsic value of the average forward, or the Black price.
   */
  function BranchNpv(m: Math, bs: Model, d: Deal, b: Branch): real
    requires bs.BlackScholesModel?
  {
    match b
    case SpotIntrinsic => d.notional * Intrinsic(d, bs.s0)
    case Fallback(dfR, fa) => d.notional * dfR * Intrinsic(d, fa)
    case Matched(dfR, fa, s) =>
      var d1 := D1(m, fa, d.strike, s);
      BlackNpv(m, d.optionType, d.notional, d.strike, dfR, fa, d1, d1 - s)
  }

  /** The delta the library reports, only from the Black branch: the call's formula for both option types. */
  function BranchDelta(m: Math, bs: Model, d: Deal, b: Branch): Option<real>
    requires Fits(bs, d, b)
  {
    match b
    case Matched(dfR, fa, s) => Some(AsWrittenDelta(m, d, dfR, D1(m, fa, d.strike, s), fa / bs.s0))
    case _ => None
  }

  /** The corrected delta of the Black branch: the chain rule through the formula of the deal's own option type. */
  function ChainRuleDelta(m: Math, bs: Model, d: Deal, b: Branch): Option<real>
    requires Fits(bs, d, b)
  {
    match b
    case Matched(dfR, fa, s) => Some(AverageDelta(m, d, dfR, D1(m, fa, d.strike, s), fa / bs.s0))
    case _ => None
  }

  /** Gamma `notional df_r n(d1) (F_A / S0) / (S0 stddev)`, reported only by the Black branch. */
  function BranchGamma(m: Math, bs: Model, d: Deal, b: Branch): Option<real>
    requires Fits(bs, d, b)
  {
    match b
    case Matched(dfR, fa, s) =>
      ProductNonZero(bs.s0, s);
      Some(d.notional * (dfR * Pdf(m, D1(m, fa, d.strike, s)) * ((fa / bs.s0) / (bs.s0 * s))))
    case _ => None
  }

  /** Vega, theta and rho from the library's bumped pricer, reported only by the Black branch. */
  function BranchVega(m: Math, bs: Model, d: Deal, b: Branch): Option<real>
    requires Fits(bs, d, b)
  {
    if b.Matched? then Some(CentralVega(m, AsWritten, bs.s0, bs.q, d, b.dfR, bs.r, bs.sigma)) else None
  }

  function BranchTheta(m: Math, bs: Model, d: Deal, b: Branch): Option<real>
    requires Fits(bs, d, b)
  {
    if b.Matched? then Some(CentralTheta(m, AsWritten, bs.s0, bs.q, d, b.dfR, bs.r, bs.sigma)) else None
  }

  function BranchRho(m: Math, bs: Model, d: Deal, b: Branch): Option<real>
    requires Fits(bs, d, b)
  {
    if b.Matched? then Some(CentralRho(m, AsWritten, bs.s0, bs.q, d, b.dfR, bs.r, bs.sigma)) else None
  }

  /** The arithmetic engine on a validated option. */
  function ArithmeticResult(m: Math, bs: Model, d: Deal): PricingResult
    requires bs.BlackScholesModel?
  {
    var b := ArithmeticBranch(m, bs, d.strike, d.maturity);
    PricingResult(
      BranchNpv(m, bs, d, b),
      Greeks(BranchDelta(m, bs, d, b), BranchGamma(m, bs, d, b), BranchVega(m, bs, d, b),
             BranchTheta(m, bs, d, b), BranchRho(m, bs, d, b), None, None, None, None, None),
      0.0)
  }

  function ArithmeticVisit(m: Math, ctx: PricingContext, opt: AsianOption): Result<PricingResult>
    requires ctx.model.Some?
  {
    var valid := ValidateAsian(opt);
    if valid.Fail? then Err(valid.error)
    else
      var model := RequireModel(ctx, BlackScholes, "BSEuroArithmeticAsianAnalyticEngine");
      if model.Err? then Err(model.error)
      else
        EquityInterfacesNeedBlackScholes(ctx, BlackScholes, "BSEuroArithmeticAsianAnalyticEngine");
        Ok(ArithmeticResult(m, model.value, DealOf(opt)))
  }

  function ArithmeticEngine(m: Math, ctx: PricingContext, inst: Instrument): Result<PricingResult>
  {
    if ctx.model.None? then Err(InvalidInput("PricingContext.model is null"))
    else match inst
      case Asian(opt) => ArithmeticVisit(m, ctx, opt)
      case Vanilla(_) => Err(UnsupportedInstrument("BSEuroArithmeticAsianAnalyticEngine does not support Vanilla options"))
      case _ => Unsupported(inst)
  }

  // ---- the geometric engine ----

  /** The geometric average's volatility `sigma / sqrt 3`. */
  function GeometricVol(m: Math, sigma: real): real
  {
    GuardedQuotient(sigma, Sqrt(m, 3.0))
  }

  /** The geometric average's carry `(b - sigma^2/2) / 2 + sigma_G^2 / 2`, with `b = r - q`. */
  function GeometricCarry(m: Math, r: real, q: real, sigma: real): real
  {
    var sg := GeometricVol(m, sigma);
    (r - q - 0.5 * sigma * sigma) / 2.0 + 0.5 * sg * sg
  }

  /** The geometric engine's inputs: theta decays with `sigma_G`, and vega's factor is `T / 3`. */
  function GeometricInputs(m: Math, bs: Model, d: Deal): BlackInputs
    requires bs.BlackScholesModel?
  {
    BlackInputs(bs.s0, bs.r, bs.q, GeometricVol(m, bs.sigma), d.maturity / 3.0, d.notional, d.maturity, d.strike)
  }

  /** `F = S0 e^{b_G T}` and `stddev = sigma_G sqrt T`, with the flat discount factors. */
  function GeometricTerms(m: Math, bs: Model, strike: real, t: real): Terms
    requires bs.BlackScholesModel?
  {
    BlackTerms(m, FlatDiscount(m, bs.r, t), FlatDiscount(m, bs.q, t),
               bs.s0 * Exp(m, GeometricCarry(m, bs.r, bs.q, bs.sigma) * t),
               GeometricVol(m, bs.sigma) * Sqrt(m, t), strike)
  }

  function GeometricResult(m: Math, bs: Model, d: Deal): PricingResult
    requires bs.BlackScholesModel?
  {
    BlackResult(m, d.optionType, GeometricInputs(m, bs, d), GeometricTerms(m, bs, d.strike, d.maturity))
  }

  function GeometricVisit(m: Math, ctx: PricingContext, opt: AsianOption): Result<PricingResult>
    requires ctx.model.Some?
  {
    var valid := ValidateAsian(opt);
    if valid.Fail? then Err(valid.error)
    else
      var model := RequireModel(ctx, BlackScholes, "BSEuroGeometricAsianAnalyticEngine");
      if model.Err? then Err(model.error)
      else
        EquityInterfacesNeedBlackScholes(ctx, BlackScholes, "BSEuroGeometricAsianAnalyticEngine");
        Ok(GeometricResult(m, model.value, DealOf(opt)))
  }

  function GeometricEngine(m: Math, ctx: PricingContext, inst: Instrument): Result<PricingResult>
  {
    if ctx.model.None? then Err(InvalidInput("PricingContext.model is null"))
    else match inst
      case Asian(opt) => GeometricVisit(m, ctx, opt)
      case Vanilla(_) => Err(UnsupportedInstrument("BSEuroGeometricAsianAnalyticEngine does not support Vanilla options"))
      case _ => Unsupported(inst)
  }

  // ---- properties of the arithmetic engine ----

  /** A call's intrinsic value less a put's is `x - K`. */
  lemma IntrinsicParity(d: Deal, x: real)
    ensures Intrinsic(d.(optionType := Call), x) - Intrinsic(d.(optionType := Put), x) == x - d.strike
  {
  }

  /** Scaling distributes over a difference. */
  lemma ScaledDifference(c: real, a: real, b: real, diff: real)
    requires a - b == diff
    ensures c * a - c * b == c * diff
  {
  }

  /**
   * Put-call parity in every branch: with a positive spot, strike and
   * maturity `C - P = notional df_r (F_A - K)`, whether the engine falls
   * back to intrinsic values or prices the matched lognormal (at the
   * engine's branch `dfR` and `fa` are `exp(-r T)` and `E[A_T]`);
   * otherwise the undiscounted `notional (S0 - K)`.
   */
  lemma BranchParity(m: Math, bs: Model, d: Deal, b: Branch)
    requires CdfSymmetric(m) && bs.BlackScholesModel?
    ensures BranchNpv(m, bs, d.(optionType := Call), b) - BranchNpv(m, bs, d.(optionType := Put), b) ==
            if b.SpotIntrinsic? then d.notional * (bs.s0 - d.strike) else d.notional * b.dfR * (b.fa - d.strike)
  {
    var c, p := d.(optionType := Call), d.(optionType := Put);
    match b
    case SpotIntrinsic =>
      IntrinsicParity(d, bs.s0);
      ScaledDifference(d.notional, Intrinsic(c, bs.s0), Intrinsic(p, bs.s0), bs.s0 - d.strike);
    case Fallback(dfR, fa) =>
      IntrinsicParity(d, fa);
      ScaledDifference(d.notional * dfR, Intrinsic(c, fa), Intrinsic(p, fa), fa - d.strike);
    case Matched(dfR, fa, s) =>
      var d1 := D1(m, fa, d.strike, s);
      BlackNpvParity(m, d.notional, d.strike, dfR, fa, d1, d1 - s);
      assert d.notional * (dfR * fa - d.strike * dfR) == d.notional * dfR * (fa - d.strike);
  }

  /**
   * The engine prices the deal in the branch it selects, so `BranchParity`
   * at that branch is the engine's put-call parity.
   */
  lemma ArithmeticNpv(m: Math, bs: Model, d: Deal)
    requires bs.BlackScholesModel?
    ensures ArithmeticResult(m, bs, d).npv == BranchNpv(m, bs, d, ArithmeticBranch(m, bs, d.strike, d.maturity))
  {
  }

  /** A call's chain-rule delta less a put's: `notional df_r dF_A/dS0`. */
  lemma DeltaDifference(n: real, df: real, c: real, g: real)
    ensures n * (df * c * g) - n * (df * (c - 1.0) * g) == n * (df * g)
  {
    assert df * c * g - df * (c - 1.0) * g == df * g;
  }

  /** Delta parity of the corrected delta: `Delta_C - Delta_P = notional df_r F_A / S0`. */
  lemma ChainRuleDeltaParity(m: Math, bs: Model, d: Deal, b: Branch)
    requires Fits(bs, d, b) && b.Matched?
    ensures ChainRuleDelta(m, bs, d.(optionType := Call), b).Some? && ChainRuleDelta(m, bs, d.(optionType := Put), b).Some?
    ensures ChainRuleDelta(m, bs, d.(optionType := Call), b).value - ChainRuleDelta(m, bs, d.(optionType := Put), b).value ==
            d.notional * (b.dfR * (b.fa / bs.s0))
  {
    DeltaDifference(d.notional, b.dfR, Cdf(m, D1(m, b.fa, d.strike, b.s)), b.fa / bs.s0);
  }

  /** Signs of a product of non-negative factors and one factor of either sign. */
  lemma ProductSigns(n: real, df: real, c: real, g: real)
    requires n >= 0.0 && df >= 0.0 && g >= 0.0
    ensures c >= 0.0 ==> n * (df * c * g) >= 0.0
    ensures c <= 0.0 ==> n * (df * c * g) <= 0.0
  {
    assert df * g >= 0.0;
    assert df * c * g == c * (df * g);
    if c >= 0.0 {
      assert c * (df * g) >= 0.0;
    } else {
      assert c * (df * g) <= 0.0;
    }
  }

  /**
   * With a positive notional, discount and forward, a call's corrected
   * delta is never negative and a put's never positive.
   */
  lemma ChainRuleDeltaSigns(m: Math, bs: Model, d: Deal, b: Branch)
    requires CdfBounded(m) && Fits(bs, d, b) && b.Matched?
    requires d.notional >= 0.0 && b.dfR >= 0.0 && b.fa >= 0.0
    ensures ChainRuleDelta(m, bs, d.(optionType := Call), b).value >= 0.0
    ensures ChainRuleDelta(m, bs, d.(optionType := Put), b).value <= 0.0
  {
    var n1 := Cdf(m, D1(m, b.fa, d.strike, b.s));
    assert b.fa / bs.s0 >= 0.0;
    ProductSigns(d.notional, b.dfR, n1, b.fa / bs.s0);
    ProductSigns(d.notional, b.dfR, n1 - 1.0, b.fa / bs.s0);
  }

  /**
   * At the engine's branch the discount is positive, so the signs above
   * hold for every deal with a non-negative notional.
   */
  lemma EngineBranchFits(m: Math, bs: Model, d: Deal)
    requires ExpPositive(m) && bs.BlackScholesModel?
    ensures var b := ArithmeticBranch(m, bs, d.strike, d.maturity);
            Fits(bs, d, b) && (!b.SpotIntrinsic? ==> b.dfR > 0.0)
  {
  }

  /**
   * The library reports a put's delta with the call's formula: for every
   * put it is the call's delta, never negative, and it exceeds the
   * chain-rule put delta by `notional df_r dF_A/dS0`, which is positive
   * whenever the notional, the discount and the forward are.
   */
  lemma AsWrittenPutDelta(m: Math, d: Deal, dfR: real, d1: real, dFdS: real)
    requires CdfBounded(m) && d.optionType == Put
    requires d.notional > 0.0 && dfR > 0.0 && dFdS > 0.0
    ensures AsWrittenDelta(m, d, dfR, d1, dFdS) == AverageDelta(m, d.(optionType := Call), dfR, d1, dFdS)
    ensures AsWrittenDelta(m, d, dfR, d1, dFdS) >= 0.0 >= AverageDelta(m, d, dfR, d1, dFdS)
    ensures AsWrittenDelta(m, d, dfR, d1, dFdS) - AverageDelta(m, d, dfR, d1, dFdS) == d.notional * (dfR * dFdS) > 0.0
  {
    var n1 := Cdf(m, d1);
    ProductSigns(d.notional, dfR, n1, dFdS);
    ProductSigns(d.notional, dfR, n1 - 1.0, dFdS);
    DeltaDifference(d.notional, dfR, n1, dFdS);
    assert dfR * dFdS > 0.0;
  }

  /**
   * The engine reports a put's delta with the call's formula: at the
   * engine's branch it is the call's reported delta, never negative, and
   * exceeds the corrected put delta by `notional df_r F_A / S0`.
   */
  lemma EnginePutDelta(m: Math, bs: Model, d: Deal)
    requires CdfBounded(m) && ExpPositive(m) && bs.BlackScholesModel?
    requires d.optionType == Put && d.notional > 0.0
    ensures var b := ArithmeticBranch(m, bs, d.strike, d.maturity);
            BranchDelta(m, bs, d, b).Some? <==> b.Matched?
    ensures var b := ArithmeticBranch(m, bs, d.strike, d.maturity);
            BranchDelta(m, bs, d, b) == BranchDelta(m, bs, d.(optionType := Call), b)
    ensures var b := ArithmeticBranch(m, bs, d.strike, d.maturity);
            b.Matched? ==> BranchDelta(m, bs, d, b).value >= 0.0
    ensures var b := ArithmeticBranch(m, bs, d.strike, d.maturity);
            b.Matched? ==> BranchDelta(m, bs, d, b).value - ChainRuleDelta(m, bs, d, b).value == d.notional * (b.dfR * (b.fa / bs.s0)) > 0.0
  {
    var b := ArithmeticBranch(m, bs, d.strike, d.maturity);
    EngineBranchFits(m, bs, d);
    if b.Matched? {
      var d1, g := D1(m, b.fa, d.strike, b.s), b.fa / bs.s0;
      assert g > 0.0;
      assert BranchDelta(m, bs, d, b) == Some(AsWrittenDelta(m, d, b.dfR, d1, g));
      assert BranchDelta(m, bs, d.(optionType := Call), b) == Some(AsWrittenDelta(m, d.(optionType := Call), b.dfR, d1, g));
      assert ChainRuleDelta(m, bs, d, b) == Some(AverageDelta(m, d, b.dfR, d1, g));
      AsWrittenPutDelta(m, d, b.dfR, d1, g);
    }
  }

  // ---- the bumped moment ratio ----

  /** With `e u <= 1`, `t u <= s` and `u >= 3/4`, `e t <= 16 s / 9`. */
  lemma GrowthChain(e: real, t: real, u: real, s: real)
    requires e > 0.0 && t > 0.0 && u >= 0.75 && e * u <= 1.0 && t * u <= s
    ensures 9.0 * (e * t) <= 16.0 * s
  {
    ScaleMonotone(e, 0.75, u);
    ScaleMonotone(t, 0.75, u);
    ScaleMonotone(e, t, 4.0 * s / 3.0);
    ScaleMonotone(4.0 * s / 3.0, e, 4.0 / 3.0);
  }

  lemma NonPositiveProduct(e: real, t: real)
    requires e > 0.0 && t <= 0.0
    ensures e * t <= 0.0
  {
  }

  /** A total variance the ratio does not take its limit at has a square of at least `1e-16`. */
  lemma SquareAboveCutoff(x: real)
    requires Abs(x) >= RatioCutoff
    ensures x * x >= 0.0000000000000001
  {
    var a := Abs(x);
    assert x * x == a * a;
    ScaleMonotone(a, 0.00000001, a);
    ScaleMonotone(0.00000001, 0.00000001, a);
  }

  /**
   * `2 e (e - 1 - y) < x^2` with `y = x / 2`, when `e (1 - y) <= 1` and
   * `x <= 1/2`: with `t = e - 1 - y > 0`, `t (1 - y) <= y^2` and `1 - y >= 3/4`
   * give `e t <= 16 y^2 / 9`.
   */
  lemma RatioAlgebra(e: real, x: real)
    requires e > 0.0 && Abs(x) >= RatioCutoff && x <= 0.5 && e * (1.0 - 0.5 * x) <= 1.0
    ensures 2.0 * (e * ((e - 1.0) - 0.5 * x)) < x * x
  {
    SquareAboveCutoff(x);
    var y := 0.5 * x;
    if (e - 1.0) - y > 0.0 {
      GrowthChain(e, (e - 1.0) - y, 1.0 - y, y * y);
    } else {
      NonPositiveProduct(e, (e - 1.0) - y);
    }
  }

  lemma BelowOneQuotient(a: real, b: real)
    requires b > 0.0 && a < b
    ensures a / b < 1.0
  {
    assert (a / b) * b == a;
  }

  /**
   * The library's bumped moment ratio stays below 1 for every total
   * variance `sigma^2 T` up to 1/2, so its log is not positive and the
   * bumped pricer falls back to the intrinsic value of the forward.
   */
  lemma AsWrittenRatioBelowOne(m: Math, x: real)
    requires ExpPositive(m) && ExpReciprocalBound(m)
    requires x <= 0.5
    ensures AsWrittenMomentRatio(m, x) < 1.0
  {
    if Abs(x) >= RatioCutoff {
      var e := Exp(m, 0.5 * x);
      assert e * (1.0 - 0.5 * x) <= 1.0;
      RatioAlgebra(e, x);
      SquareAboveCutoff(x);
      BelowOneQuotient(2.0 * (e * ((e - 1.0) - 0.5 * x)), x * x);
      assert AsWrittenMomentRatio(m, x) == 2.0 * (e * ((e - 1.0) - 0.5 * x)) / (x * x);
    }
  }

  /**
   * Below a moment ratio of 1 the matched deviation is 0, so the bumped
   * pricer takes its intrinsic fallback.
   */
  lemma LogStddevBelowOne(m: Math, ratio: real)
    requires ExpPositive(m) && ExpAdditive(m) && ExpMonotone(m) && ExpOfLog(m)
    requires 0.0 < ratio < 1.0
    ensures LogStddev(m, ratio) == 0.0
  {
    LogBelowOne(m, ratio);
  }

  /**
   * With the library's moment ratio, every volatility whose total variance
   * `sigma^2 T` is at most 1/2 prices like no volatility at all.
   */
  lemma AsWrittenBumpedFlat(m: Math, s0: real, q: real, d: Deal, dfR: real, rP: real, sigmaP: real, tP: real)
    requires ExpPositive(m) && ExpAdditive(m) && ExpMonotone(m) && ExpOfLog(m) && ExpReciprocalBound(m)
    requires tP > 0.0 && TotalVariance(sigmaP, tP) <= 0.5
    ensures Bumped(m, AsWritten, s0, q, d, dfR, rP, sigmaP, tP) == Bumped(m, AsWritten, s0, q, d, dfR, rP, 0.0, tP)
  {
    var ratio := AsWrittenMomentRatio(m, TotalVariance(sigmaP, tP));
    AsWrittenRatioBelowOne(m, TotalVariance(sigmaP, tP));
    if ratio > 0.0 {
      LogStddevBelowOne(m, ratio);
    }
  }

  /**
   * The library's vega of the arithmetic engine is 0 whenever both bumped
   * volatilities have a total variance of at most 1/2: both bumped prices
   * take the zero-volatility fallback.
   */
  lemma AsWrittenVegaVanishes(m: Math, s0: real, q: real, d: Deal, dfR: real, r: real, sigma: real)
    requires ExpPositive(m) && ExpAdditive(m) && ExpMonotone(m) && ExpOfLog(m) && ExpReciprocalBound(m)
    requires d.maturity > 0.0
    requires TotalVariance(sigma + VegaBump(sigma), d.maturity) <= 0.5
    requires TotalVariance(sigma - VegaBump(sigma), d.maturity) <= 0.5
    ensures CentralVega(m, AsWritten, s0, q, d, dfR, r, sigma) == 0.0
  {
    var e := VegaBump(sigma);
    AsWrittenBumpedFlat(m, s0, q, d, dfR, r, sigma + e, d.maturity);
    AsWrittenBumpedFlat(m, s0, q, d, dfR, r, sigma - e, d.maturity);
  }

  /**
   * The engine's vega is 0 from the Black branch, and absent from the
   * others, whenever both bumped volatilities have a total variance of at
   * most 1/2.
   */
  lemma EngineVegaVanishes(m: Math, bs: Model, d: Deal)
    requires ExpPositive(m) && ExpAdditive(m) && ExpMonotone(m) && ExpOfLog(m) && ExpReciprocalBound(m)
    requires bs.BlackScholesModel? && d.maturity > 0.0
    requires TotalVariance(bs.sigma + VegaBump(bs.sigma), d.maturity) <= 0.5
    requires TotalVariance(bs.sigma - VegaBump(bs.sigma), d.maturity) <= 0.5
    ensures ArithmeticResult(m, bs, d).greeks.vega ==
            if ArithmeticBranch(m, bs, d.strike, d.maturity).Matched? then Some(0.0) else None
  {
    var b := ArithmeticBranch(m, bs, d.strike, d.maturity);
    if b.Matched? {
      AsWrittenVegaVanishes(m, bs.s0, bs.q, d, b.dfR, bs.r, bs.sigma);
    }
  }

  /** A 20% volatility over one year: the engine reports a vega of 0 whenever it reports one. */
  lemma AsWrittenVegaAtTwentyPercent(m: Math, bs: Model, d: Deal)
    requires ExpPositive(m) && ExpAdditive(m) && ExpMonotone(m) && ExpOfLog(m) && ExpReciprocalBound(m)
    requires bs.BlackScholesModel? && bs.sigma == 0.2 && d.maturity == 1.0
    ensures ArithmeticResult(m, bs, d).greeks.vega ==
            if ArithmeticBranch(m, bs, d.strike, d.maturity).Matched? then Some(0.0) else None
  {
    assert VegaBump(0.2) == 0.0002;
    EngineVegaVanishes(m, bs, d);
  }

  /** `2 s^2 / (t^2 b) ((a - 1) / b - t) = s^2 (2 (a - 1 - b t) / (b t)^2)`. */
  lemma MomentAlgebra(s: real, b: real, t: real, a: real)
    requires b != 0.0 && t != 0.0
    ensures (2.0 * s * s / (t * t * b)) * ((a - 1.0) / b - t) ==
            s * s * (2.0 * ((a - 1.0) - b * t) / ((b * t) * (b * t)))
  {
    var c := a - 1.0;
    assert c / b - t == (c - b * t) / b;
    assert (b * t) * (b * t) == (t * t * b) * b;
    ProductNonZero(t * t * b, b);
  }

  lemma SecondMomentValue(m: Math, s0: real, alpha: real, beta: real, t: real, k: real, t1: real, t2: real)
    requires t > 0.0 && alpha + beta != 0.0
    requires k == 2.0 * s0 * s0 / (t * t * (alpha + beta))
    requires t1 == GrowthIntegral(m, 2.0 * alpha + beta, t) && t2 == GrowthIntegral(m, alpha, t)
    ensures SecondMoment(m, s0, alpha, beta, t).Some?
    ensures SecondMoment(m, s0, alpha, beta, t).value == k * (t1 - t2)
  {
    ProductNonZero(t * t, alpha + beta);
    assert Ratio(2.0 * s0 * s0, t * t * (alpha + beta)).value == k;
    assert SecondMoment(m, s0, alpha, beta, t).value == k * (t1 - t2);
  }

  /**
   * The corrected moment ratio is the unbumped pricer's `E[A^2] / E[A]^2`
   * at zero drift, where `E[A] = S0`: a bumped price then matches the
   * same lognormal the main price does.
   */
  lemma MomentRatioIsSecondMoment(m: Math, s0: real, beta: real, t: real)
    requires t > 0.0 && Abs(beta) >= GrowthCutoff && Abs(beta * t) >= RatioCutoff
    ensures SecondMoment(m, s0, 0.0, beta, t).Some?
    ensures SecondMoment(m, s0, 0.0, beta, t).value == s0 * s0 * MomentRatio(m, beta * t)
  {
    var a := Exp(m, beta * t);
    assert (2.0 * 0.0 + beta) * t == beta * t;
    assert GrowthIntegral(m, 2.0 * 0.0 + beta, t) == (a - 1.0) / beta;
    assert GrowthIntegral(m, 0.0, t) == t;
    assert t * t * (0.0 + beta) == t * t * beta;
    SecondMomentValue(m, s0, 0.0, beta, t, 2.0 * s0 * s0 / (t * t * beta), (a - 1.0) / beta, t);
    ProductNonZero(beta * t, beta * t);
    assert MomentRatio(m, beta * t) == 2.0 * ((a - 1.0) - beta * t) / ((beta * t) * (beta * t));
    MomentAlgebra(s0, beta, t, a);
  }

  // ---- properties of the geometric engine ----

  lemma SquareOfQuotient(g: real, s: real, c: real)
    requires g * c == s && c * c == 3.0
    ensures 3.0 * (g * g) == s * s
  {
    assert s * s == (g * c) * (g * c);
    assert (g * c) * (g * c) == (g * g) * (c * c);
  }

  /**
   * The geometric average's variance rate is a third of the spot's, and
   * its carry is `(r - q) / 2 - sigma^2 / 12`.
   */
  lemma GeometricClosedForm(m: Math, r: real, q: real, sigma: real)
    requires SqrtSquares(m)
    ensures 3.0 * (GeometricVol(m, sigma) * GeometricVol(m, sigma)) == sigma * sigma
    ensures GeometricCarry(m, r, q, sigma) == (r - q) / 2.0 - sigma * sigma / 12.0
  {
    var c := Sqrt(m, 3.0);
    assert c * c == 3.0;
    SquareOfQuotient(GeometricVol(m, sigma), sigma, c);
  }

  /** The geometric engine prices a call and a put on the same Black inputs and terms. */
  lemma GeometricSides(m: Math, bs: Model, d: Deal)
    requires bs.BlackScholesModel?
    ensures GeometricResult(m, bs, d.(optionType := Call)) ==
            CallResult(m, GeometricInputs(m, bs, d), GeometricTerms(m, bs, d.strike, d.maturity))
    ensures GeometricResult(m, bs, d.(optionType := Put)) ==
            PutResult(m, GeometricInputs(m, bs, d), GeometricTerms(m, bs, d.strike, d.maturity))
  {
    assert GeometricInputs(m, bs, d.(optionType := Call)) == GeometricInputs(m, bs, d) == GeometricInputs(m, bs, d.(optionType := Put));
  }

  /**
   * Put-call parity of the geometric engine: prices differ by
   * `notional df_r (F - K)`, with the notional and strike the deal's own.
   */
  lemma GeometricParity(m: Math, bs: Model, d: Deal)
    requires CdfSymmetric(m) && bs.BlackScholesModel?
    ensures var t := GeometricTerms(m, bs, d.strike, d.maturity);
      GeometricResult(m, bs, d.(optionType := Call)).npv - GeometricResult(m, bs, d.(optionType := Put)).npv ==
      d.notional * (t.dfR * t.forward - d.strike * t.dfR)
  {
    var b := GeometricInputs(m, bs, d);
    assert b.notional == d.notional && b.strike == d.strike;
    GeometricSides(m, bs, d);
    ParityOfResults(m, b, GeometricTerms(m, bs, d.strike, d.maturity),
                    GeometricResult(m, bs, d.(optionType := Call)), GeometricResult(m, bs, d.(optionType := Put)));
  }

  lemma ParityOfResults(m: Math, b: BlackInputs, t: Terms, call: PricingResult, put: PricingResult)
    requires CdfSymmetric(m) && call == CallResult(m, b, t) && put == PutResult(m, b, t)
    ensures call.npv - put.npv == b.notional * (t.dfR * t.forward - b.strike * t.dfR)
  {
    BlackParity(m, b, t);
  }

  /**
   * The geometric engine's greeks across the two types: deltas differ by
   * `notional df_q`, rhos by `notional T K df_r`; gamma and vega are shared.
   */
  lemma GeometricGreekParity(m: Math, bs: Model, d: Deal)
    requires CdfSymmetric(m) && bs.BlackScholesModel?
    ensures var b := GeometricInputs(m, bs, d);
      var t := GeometricTerms(m, bs, d.strike, d.maturity);
      var c := GeometricResult(m, bs, d.(optionType := Call)).greeks;
      var p := GeometricResult(m, bs, d.(optionType := Put)).greeks;
      c.delta.Some? && p.delta.Some? && c.delta.value - p.delta.value == b.notional * t.dfQ &&
      c.rho.Some? && p.rho.Some? && c.rho.value - p.rho.value == b.notional * b.maturity * b.strike * t.dfR &&
      c.gamma == p.gamma && c.vega == p.vega
  {
    var b := GeometricInputs(m, bs, d);
    var t := GeometricTerms(m, bs, d.strike, d.maturity);
    GeometricSides(m, bs, d);
    DeltaParity(m, b, t);
    RhoParity(m, b, t);
    GammaVegaShared(m, b, t);
  }

  // ---- the engines' outcomes ----

  /** The arithmetic engine's errors, in the order it checks them. */
  lemma ArithmeticEngineErrors(m: Math, ctx: PricingContext, inst: Instrument)
    ensures ctx.model.None? ==> ArithmeticEngine(m, ctx, inst) == Err(InvalidInput("PricingContext.model is null"))
    ensures ctx.model.Some? && inst.Vanilla? ==>
      ArithmeticEngine(m, ctx, inst) == Err(UnsupportedInstrument("BSEuroArithmeticAsianAnalyticEngine does not support Vanilla options"))
    ensures ctx.model.Some? && !inst.Vanilla? && !inst.Asian? ==> IsUnsupported(ArithmeticEngine(m, ctx, inst))
    ensures (ctx.model.Some? && inst.Asian? && inst.asian.payoff.Some? && inst.asian.exercise.Some? &&
             inst.asian.exercise.value.kind != European) ==> IsUnsupported(ArithmeticEngine(m, ctx, inst))
  {
    if ctx.model.Some? && !inst.Vanilla? && !inst.Asian? {
      assert ArithmeticEngine(m, ctx, inst).Err?;
    }
  }

  /** The arithmetic engine prices exactly the valid Asian options under the Black-Scholes model. */
  lemma ArithmeticEngineAccepts(m: Math, ctx: PricingContext, inst: Instrument)
    ensures ArithmeticEngine(m, ctx, inst).Ok? <==>
      ctx.model.Some? && inst.Asian? && AsianValid(inst.asian) && ctx.model.value.BlackScholesModel?
    ensures ArithmeticEngine(m, ctx, inst).Ok? ==>
      ArithmeticEngine(m, ctx, inst).value == ArithmeticResult(m, ctx.model.value, DealOf(inst.asian))
  {
  }

  /** The geometric engine's errors, in the order it checks them. */
  lemma GeometricEngineErrors(m: Math, ctx: PricingContext, inst: Instrument)
    ensures ctx.model.None? ==> GeometricEngine(m, ctx, inst) == Err(InvalidInput("PricingContext.model is null"))
    ensures ctx.model.Some? && inst.Vanilla? ==>
      GeometricEngine(m, ctx, inst) == Err(UnsupportedInstrument("BSEuroGeometricAsianAnalyticEngine does not support Vanilla options"))
    ensures ctx.model.Some? && !inst.Vanilla? && !inst.Asian? ==> IsUnsupported(GeometricEngine(m, ctx, inst))
    ensures (ctx.model.Some? && inst.Asian? && inst.asian.payoff.Some? && inst.asian.exercise.Some? &&
             inst.asian.exercise.value.kind != European) ==> IsUnsupported(GeometricEngine(m, ctx, inst))
  {
    if ctx.model.Some? && !inst.Vanilla? && !inst.Asian? {
      assert GeometricEngine(m, ctx, inst).Err?;
    }
  }

  /** The geometric engine prices exactly the valid Asian options under the Black-Scholes model. */
  lemma GeometricEngineAccepts(m: Math, ctx: PricingContext, inst: Instrument)
    ensures GeometricEngine(m, ctx, inst).Ok? <==>
      ctx.model.Some? && inst.Asian? && AsianValid(inst.asian) && ctx.model.value.BlackScholesModel?
    ensures GeometricEngine(m, ctx, inst).Ok? ==>
      GeometricEngine(m, ctx, inst).value == GeometricResult(m, ctx.model.value, DealOf(inst.asian))
  {
  }
}
