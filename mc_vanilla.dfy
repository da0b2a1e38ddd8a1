// The Black-Scholes Monte Carlo engine for European vanilla options.
// Each path draws one normal from a Box-Muller sampler over a PCG32
// stream; the per-path payoff, pathwise delta, likelihood-ratio vega and
// rho, and common-random-number gamma and theta are pushed into Welford
// accumulators. In antithetic mode a draw `z` and its mirror `-z` are
// averaged into one sample, and an odd path count adds one plain path.
module McVanilla {
  import opened Core
  import opened Instruments
  import opened Pricing
  import opened Validation
  import opened Rng
  import opened Welford
  import opened FdGreeks
  import opened McStats

  /** The constants of the path loop, computed once before it. */
  datatype PathModel = PathModel(
    payoff: Payoff, s0: real, sigma: real, maturity: real,
    movedSpot: real, rootVariance: real, df: real, sqrtT: real, dS: real,
    movedSpotUp: real, rootVarianceUp: real, dfUp: real,
    movedSpotDn: real, rootVarianceDn: real, dfDn: real)

  /**
   * The forward-moved spot `S0 e^((r - q - sigma^2/2) T)`, the root variance
   * `sigma sqrt(T)` and the discount factor, at the maturity and at the
   * maturity bumped a day up and (clamped) a day down.
   */
  function MakePathModel(m: Math, bs: Model, payoff: Payoff, maturity: real): PathModel
    requires bs.BlackScholesModel?
  {
    var drift := Drift(bs.r, bs.q, bs.sigma);
    var tUp := maturity + DefaultBumps.theta;
    var tDn := ShorterMaturity(maturity, DefaultBumps);
    PathModel(payoff, bs.s0, bs.sigma, maturity,
      bs.s0 * Exp(m, drift * maturity), bs.sigma * Sqrt(m, maturity), Exp(m, -bs.r * maturity),
      Sqrt(m, maturity), bs.s0 * DefaultBumps.delta,
      bs.s0 * Exp(m, drift * tUp), bs.sigma * Sqrt(m, tUp), Exp(m, -bs.r * tUp),
      bs.s0 * Exp(m, drift * tDn), bs.sigma * Sqrt(m, tDn), Exp(m, -bs.r * tDn))
  }

  /** The path's terminal spot for the draw `z`. */
  function Terminal(m: Math, movedSpot: real, rootVariance: real, z: real): real
  {
    movedSpot * Exp(m, rootVariance * z)
  }

  /**
   * The pathwise delta: `df ST / S0` for a call finishing in the money,
   * `-df ST / S0` for a put finishing in the money, 0 otherwise.
   */
  function PathwiseDelta(p: PathModel, st: real): real
  {
    if p.payoff.optionType == Call && st > p.payoff.strike then p.df * GuardedQuotient(st, p.s0)
    else if p.payoff.optionType == Put && st < p.payoff.strike then -p.df * GuardedQuotient(st, p.s0)
    else 0.0
  }

  /** The terminal spot of the draw `z`, and what the payoff pays there. */
  function SpotAt(m: Math, p: PathModel, z: real): real
  {
    Terminal(m, p.movedSpot, p.rootVariance, z)
  }

  function ValueAt(m: Math, p: PathModel, z: real): real
  {
    p.payoff.Apply(SpotAt(m, p, z))
  }

  function DeltaAt(m: Math, p: PathModel, z: real): real
  {
    PathwiseDelta(p, SpotAt(m, p, z))
  }

  /** The likelihood-ratio vega: the payoff times the score `(z^2 - 1) / sigma`. */
  function VegaAt(m: Math, p: PathModel, z: real): real
  {
    ValueAt(m, p, z) * GuardedQuotient(z * z - 1.0, p.sigma)
  }

  /** The likelihood-ratio rho: `-T` times the payoff plus the payoff times `z sqrt(T) / sigma`. */
  function RhoAt(m: Math, p: PathModel, z: real): real
  {
    -p.maturity * ValueAt(m, p, z) + ValueAt(m, p, z) * GuardedQuotient(z * p.sqrtT, p.sigma)
  }

  /** The payoff on the same path started from the spot bumped up or down by `dS`. */
  function SpotUpValue(m: Math, p: PathModel, z: real): real
  {
    p.payoff.Apply(SpotAt(m, p, z) * GuardedQuotient(p.s0 + p.dS, p.s0))
  }

  function SpotDownValue(m: Math, p: PathModel, z: real): real
  {
    p.payoff.Apply(SpotAt(m, p, z) * GuardedQuotient(p.s0 - p.dS, p.s0))
  }

  /** The payoff on the same draw at the maturity a day later, or (clamped) a day earlier. */
  function LaterValue(m: Math, p: PathModel, z: real): real
  {
    p.payoff.Apply(Terminal(m, p.movedSpotUp, p.rootVarianceUp, z))
  }

  function EarlierValue(m: Math, p: PathModel, z: real): real
  {
    p.payoff.Apply(Terminal(m, p.movedSpotDn, p.rootVarianceDn, z))
  }

  /** The common-random-number gamma: a discounted second difference over `dS^2`. */
  function GammaOf(p: PathModel, up: real, v: real, down: real): real
  {
    p.df * GuardedQuotient(up - 2.0 * v + down, p.dS * p.dS)
  }

  /** The common-random-number theta: the discounted earlier minus later payoff over two days. */
  function ThetaOf(p: PathModel, earlier: real, later: real): real
  {
    (p.dfDn * earlier - p.dfUp * later) / (2.0 * DefaultBumps.theta)
  }

  /** One plain path. */
  function PathSample(m: Math, p: PathModel, z: real): Sample
  {
    Sample(ValueAt(m, p, z), DeltaAt(m, p, z), VegaAt(m, p, z), RhoAt(m, p, z),
           GammaOf(p, SpotUpValue(m, p, z), ValueAt(m, p, z), SpotDownValue(m, p, z)),
           ThetaOf(p, EarlierValue(m, p, z), LaterValue(m, p, z)))
  }

  /**
   * One antithetic pair: each per-path quantity is averaged over `z` and
   * `-z`, and gamma and theta are formed from the averaged payoffs.
   */
  function PairSample(m: Math, p: PathModel, z: real): Sample
  {
    var y := 0.5 * (ValueAt(m, p, z) + ValueAt(m, p, -z));
    var yUp := 0.5 * (SpotUpValue(m, p, z) + SpotUpValue(m, p, -z));
    var yDown := 0.5 * (SpotDownValue(m, p, z) + SpotDownValue(m, p, -z));
    var yLater := 0.5 * (LaterValue(m, p, z) + LaterValue(m, p, -z));
    var yEarlier := 0.5 * (EarlierValue(m, p, z) + EarlierValue(m, p, -z));
    Sample(y, 0.5 * (DeltaAt(m, p, z) + DeltaAt(m, p, -z)),
           0.5 * (VegaAt(m, p, z) + VegaAt(m, p, -z)), 0.5 * (RhoAt(m, p, z) + RhoAt(m, p, -z)),
           GammaOf(p, yUp, y, yDown), ThetaOf(p, yEarlier, yLater))
  }

  /** The number of antithetic pairs, `mc_paths / 2`; a non-positive count runs no pair. */
  function PairCount(paths: int): nat
  {
    if paths <= 0 then 0 else paths / 2
  }

  /**
   * `mc_paths % 2 != 0`. The library's remainder keeps the sign of the
   * count, Dafny's is non-negative; both are non-zero exactly for odd
   * counts, negative ones included.
   */
  predicate HasOdd(paths: int)
  {
    paths % 2 != 0
  }

  /** The draws of the antithetic pair loop: none in standard mode. */
  function PairDraws(antithetic: bool, paths: int): nat
  {
    if antithetic then PairCount(paths) else 0
  }

  /** The draws of plain paths: every path in standard mode, the odd one in antithetic mode. */
  function PlainDraws(antithetic: bool, paths: int): nat
  {
    if antithetic then (if HasOdd(paths) then 1 else 0)
    else if paths <= 0 then 0 else paths
  }

  /** How many normals the engine draws, which is also how many samples it pushes. */
  function DrawCount(antithetic: bool, paths: int): nat
  {
    PairDraws(antithetic, paths) + PlainDraws(antithetic, paths)
  }

  function PathSampler(m: Math, p: PathModel): real -> Sample
  {
    z => PathSample(m, p, z)
  }

  function PairSampler(m: Math, p: PathModel): real -> Sample
  {
    z => PairSample(m, p, z)
  }

  /** The samples of one loop over the draws `zs`. */
  function Batch(sample: real -> Sample, zs: seq<real>): (ss: seq<Sample>)
    ensures |ss| == |zs|
    ensures forall i :: 0 <= i < |zs| ==> ss[i] == sample(zs[i])
  {
    seq(|zs|, i requires 0 <= i < |zs| => sample(zs[i]))
  }

  /** The samples pushed for the drawn normals `zs`, in order. */
  function Samples(m: Math, p: PathModel, antithetic: bool, paths: int, zs: seq<real>): seq<Sample>
    requires |zs| == DrawCount(antithetic, paths)
  {
    var pairs := PairDraws(antithetic, paths);
    Batch(PairSampler(m, p), zs[..pairs]) + Batch(PathSampler(m, p), zs[pairs..])
  }

  // ---- the path loops ----

  lemma BatchAppend(sample: real -> Sample, zs: seq<real>, z: real)
    ensures Batch(sample, zs + [z]) == Batch(sample, zs) + [sample(z)]
  {
  }

  /**
   * One path loop of the engine: `count` draws from the generator objects,
   * each turned into a sample (a pair or a plain path) and pushed onto the
   * accumulators.
   */
  method Accumulate(m: Math, sample: real -> Sample, count: nat, rng: Pcg32, gen: NormalBoxMuller, st0: Stats)
    returns (st: Stats)
    modifies rng`state, gen
    ensures var start := SamplerState(old(rng.state), old(gen.hasSpare), old(gen.spare));
            st == PushAll(st0, Batch(sample, Normals(m, rng.inc, start, count))) &&
            SamplerState(rng.state, gen.hasSpare, gen.spare) == SampleStates(m, rng.inc, start, count)
  {
    ghost var start := SamplerState(rng.state, gen.hasSpare, gen.spare);
    ghost var zs: seq<real> := [];
    st := st0;
    var i := 0;
    while i < count
      invariant 0 <= i <= count && zs == Normals(m, rng.inc, start, i)
      invariant SamplerState(rng.state, gen.hasSpare, gen.spare) == SampleStates(m, rng.inc, start, i)
      invariant st == PushAll(st0, Batch(sample, zs))
    {
      NormalsStep(m, rng.inc, start, i);
      var z := gen.Next(m, rng);
      BatchAppend(sample, zs, z);
      assert (Batch(sample, zs) + [sample(z)])[..i] == Batch(sample, zs);
      st := Push(st, sample(z));
      zs := zs + [z];
      i := i + 1;
    }
  }

  /**
   * The path loops of the engine: in standard mode one plain path per
   * draw; in antithetic mode the pairs, then one plain path for an odd
   * count.
   */
  method Simulate(m: Math, p: PathModel, antithetic: bool, paths: int, rng: Pcg32, gen: NormalBoxMuller)
    returns (st: Stats)
    modifies rng`state, gen
    ensures var start := SamplerState(old(rng.state), old(gen.hasSpare), old(gen.spare));
            var k := DrawCount(antithetic, paths);
            st == PushAll(NoStats, Samples(m, p, antithetic, paths, Normals(m, rng.inc, start, k))) &&
            SamplerState(rng.state, gen.hasSpare, gen.spare) == SampleStates(m, rng.inc, start, k)
  {
    ghost var start := SamplerState(rng.state, gen.hasSpare, gen.spare);
    var pairs := PairDraws(antithetic, paths);
    var plain := PlainDraws(antithetic, paths);
    var st1 := Accumulate(m, PairSampler(m, p), pairs, rng, gen, NoStats);
    ghost var mid := SampleStates(m, rng.inc, start, pairs);
    st := Accumulate(m, PathSampler(m, p), plain, rng, gen, st1);
    ghost var first := Normals(m, rng.inc, start, pairs);
    ghost var second := Normals(m, rng.inc, mid, plain);
    NormalsAdd(m, rng.inc, start, pairs, plain);
    PushAllAppend(NoStats, Batch(PairSampler(m, p), first), Batch(PathSampler(m, p), second));
    assert (first + second)[..pairs] == first && (first + second)[pairs..] == second;
  }

  // ---- the results ----

  /**
   * The result from the accumulators: the npv, the five Greeks and their
   * standard errors, each scaled by the notional (and by the discount
   * factor where the estimator is undiscounted). Delta and gamma divide by
   * the spot and vega and rho by the volatility; with that divisor 0 they
   * are absent.
   */
  function Estimates(m: Math, p: PathModel, notional: real, r: real, st: Stats): PricingResult
  {
    var disc := Exp(m, -r * p.maturity);
    var spotOk := p.s0 != 0.0;
    var volOk := p.sigma != 0.0;
    PricingResult(
      notional * (disc * st.payoff.mean),
      Greeks(
        if spotOk then Some(notional * st.delta.mean) else None,
        if spotOk then Some(notional * st.gamma.mean) else None,
        if volOk then Some(notional * disc * st.vega.mean) else None,
        Some(notional * st.theta.mean),
        if volOk then Some(notional * disc * st.rho.mean) else None,
        if spotOk then Some(StdError(m, st.delta, st.n) * notional) else None,
        if spotOk then Some(notional * StdError(m, st.gamma, st.n)) else None,
        if volOk then Some(notional * disc * StdError(m, st.vega, st.n)) else None,
        Some(notional * StdError(m, st.theta, st.n)),
        if volOk then Some(notional * disc * StdError(m, st.rho, st.n)) else None),
      notional * (disc * StdError(m, st.payoff, st.n)))
  }

  /** The normals of a run. */
  function Draws(m: Math, settings: PricingSettings): (zs: seq<real>)
    ensures |zs| == DrawCount(settings.mcAntithetic, settings.mcPaths)
  {
    Normals(m, StreamIncrement(0), InitialSampler(settings.mcSeed),
            DrawCount(settings.mcAntithetic, settings.mcPaths))
  }

  function PriceVanilla(m: Math, ctx: PricingContext, opt: VanillaOption): Result<PricingResult>
    requires ctx.model.Some?
  {
    var valid := ValidateEuropean(opt);
    if valid.Fail? then Err(valid.error)
    else
      var model := RequireModel(ctx, LocalVol, "BSEuroVanillaMCEngine");
      if model.Err? then Err(model.error)
      else
        EquityInterfacesNeedBlackScholes(ctx, LocalVol, "BSEuroVanillaMCEngine");
        Ok(Simulated(m, model.value, opt, ctx.settings))
  }

  /** The simulation of a validated option under the Black-Scholes model. */
  function Simulated(m: Math, bs: Model, opt: VanillaOption, settings: PricingSettings): PricingResult
    requires bs.BlackScholesModel? && VanillaValid(opt, true)
  {
    var p := MakePathModel(m, bs, opt.payoff.value, opt.exercise.value.dates[0]);
    var ss := Samples(m, p, settings.mcAntithetic, settings.mcPaths, Draws(m, settings));
    Estimates(m, p, opt.notional, bs.r, StatsOf(ss))
  }

  /** The engine: the model check, then the vanilla visit; every other instrument is unsupported. */
  function Price(m: Math, ctx: PricingContext, inst: Instrument): Result<PricingResult>
  {
    if ctx.model.None? then Err(InvalidInput("PricingContext.model is null"))
    else match inst
      case Vanilla(opt) => PriceVanilla(m, ctx, opt)
      case Asian(_) =>
        Err(UnsupportedInstrument("BSEuroVanillaMCEngine does not support Asian options. Use BSEuroAsianMCEngine instead."))
      case Future(_) => Err(UnsupportedInstrument("BSEuroVanillaMCEngine does not support equity futures."))
      case ZeroCoupon(_) => Err(UnsupportedInstrument("BSEuroVanillaMCEngine does not support bonds."))
      case FixedRate(_) => Err(UnsupportedInstrument("BSEuroVanillaMCEngine does not support bonds."))
  }

  /** The vanilla visit with the generator objects of the library. */
  method RunVanilla(m: Math, ctx: PricingContext, opt: VanillaOption) returns (res: Result<PricingResult>)
    requires ctx.model.Some?
    ensures res == PriceVanilla(m, ctx, opt)
  {
    var valid := ValidateEuropean(opt);
    if valid.Fail? {
      return Err(valid.error);
    }
    var model := RequireModel(ctx, LocalVol, "BSEuroVanillaMCEngine");
    if model.Err? {
      return Err(model.error);
    }
    EquityInterfacesNeedBlackScholes(ctx, LocalVol, "BSEuroVanillaMCEngine");
    var r := RunSimulation(m, model.value, opt, ctx.settings);
    res := Ok(r);
  }

  /** The simulation of a validated option, with the generator objects of the library. */
  method RunSimulation(m: Math, bs: Model, opt: VanillaOption, settings: PricingSettings) returns (r: PricingResult)
    requires bs.BlackScholesModel? && VanillaValid(opt, true)
    ensures r == Simulated(m, bs, opt, settings)
  {
    var p := MakePathModel(m, bs, opt.payoff.value, opt.exercise.value.dates[0]);
    var factory := new RngFactory(SeedBits(settings.mcSeed));
    var rng := factory.Make(0);
    var gen := new NormalBoxMuller();
    var st := Simulate(m, p, settings.mcAntithetic, settings.mcPaths, rng, gen);
    PushAllIsStatsOf(Samples(m, p, settings.mcAntithetic, settings.mcPaths, Draws(m, settings)));
    r := Estimates(m, p, opt.notional, bs.r, st);
  }

  method Run(m: Math, ctx: PricingContext, inst: Instrument) returns (res: Result<PricingResult>)
    ensures res == Price(m, ctx, inst)
  {
    if ctx.model.None? || !inst.Vanilla? {
      return Price(m, ctx, inst);
    }
    res := RunVanilla(m, ctx, inst.vanilla);
  }

  // ---- properties ----

  /** Half the sum of two samples, estimator by estimator. */
  function Average(a: Sample, b: Sample): Sample
  {
    Sample(0.5 * (a.payoff + b.payoff), 0.5 * (a.delta + b.delta), 0.5 * (a.vega + b.vega),
           0.5 * (a.rho + b.rho), 0.5 * (a.gamma + b.gamma), 0.5 * (a.theta + b.theta))
  }

  /**
   * An antithetic pair contributes the average of the plain paths of `z`
   * and `-z`, for every estimator: the pair loop's averaged finite
   * differences equal the average of the per-path ones.
   */
  lemma PairIsAverage(m: Math, p: PathModel, z: real)
    ensures PairSample(m, p, z) == Average(PathSample(m, p, z), PathSample(m, p, -z))
  {
    GammaLinear(p, SpotUpValue(m, p, z), ValueAt(m, p, z), SpotDownValue(m, p, z),
                SpotUpValue(m, p, -z), ValueAt(m, p, -z), SpotDownValue(m, p, -z));
    ThetaLinear(p, EarlierValue(m, p, z), LaterValue(m, p, z), EarlierValue(m, p, -z), LaterValue(m, p, -z));
  }

  /** Gamma of averaged payoffs is the average of the gammas. */
  lemma GammaLinear(p: PathModel, u1: real, v1: real, d1: real, u2: real, v2: real, d2: real)
    ensures GammaOf(p, 0.5 * (u1 + u2), 0.5 * (v1 + v2), 0.5 * (d1 + d2)) ==
            0.5 * (GammaOf(p, u1, v1, d1) + GammaOf(p, u2, v2, d2))
  {
    var d := p.dS * p.dS;
    if d != 0.0 {
      assert (0.5 * (u1 + u2) - 2.0 * (0.5 * (v1 + v2)) + 0.5 * (d1 + d2)) / d ==
             0.5 * ((u1 - 2.0 * v1 + d1) / d + (u2 - 2.0 * v2 + d2) / d);
    }
  }

  lemma ThetaLinear(p: PathModel, e1: real, l1: real, e2: real, l2: real)
    ensures ThetaOf(p, 0.5 * (e1 + e2), 0.5 * (l1 + l2)) == 0.5 * (ThetaOf(p, e1, l1) + ThetaOf(p, e2, l2))
  {
  }

  /** Antithetic mode draws half the normals, rounded up; standard mode one per path. */
  lemma SampleCount(m: Math, p: PathModel, antithetic: bool, paths: int, zs: seq<real>)
    requires |zs| == DrawCount(antithetic, paths)
    ensures |Samples(m, p, antithetic, paths, zs)| == |zs|
    ensures paths >= 0 ==> DrawCount(false, paths) == paths && DrawCount(true, paths) == (paths + 1) / 2
    ensures paths < 0 ==> DrawCount(false, paths) == 0 && DrawCount(true, paths) == (if paths % 2 == 1 then 1 else 0)
  {
    var pairs := PairDraws(antithetic, paths);
    assert |Batch(PairSampler(m, p), zs[..pairs])| == pairs;
    if paths >= 0 {
      HalfRoundedUp(paths);
    }
  }

  /** `n / 2` pairs and the odd one make `(n + 1) / 2` draws. */
  lemma HalfRoundedUp(n: nat)
    ensures n / 2 + (if n % 2 != 0 then 1 else 0) == (n + 1) / 2
  {
  }

  /**
   * What the sign arguments need of the path constants: positive
   * exponentials and discount factor, and a forward-moved spot that is a
   * non-negative multiple of the initial spot.
   */
  ghost predicate SignPreserving(m: Math, p: PathModel)
  {
    ExpPositive(m) && p.df > 0.0 && GuardedQuotient(p.movedSpot, p.s0) >= 0.0
  }

  /** The forward-moved spot is the initial spot times an exponential. */
  lemma PathModelSignPreserving(m: Math, bs: Model, payoff: Payoff, maturity: real)
    requires ExpPositive(m) && bs.BlackScholesModel?
    ensures SignPreserving(m, MakePathModel(m, bs, payoff, maturity))
  {
    var p := MakePathModel(m, bs, payoff, maturity);
    ScaledQuotient(bs.s0, bs.s0, Exp(m, Drift(bs.r, bs.q, bs.sigma) * maturity));
  }

  /** Every terminal spot is a non-negative multiple of the initial spot. */
  lemma SpotRatio(m: Math, p: PathModel, z: real)
    requires SignPreserving(m, p)
    ensures GuardedQuotient(SpotAt(m, p, z), p.s0) >= 0.0
  {
    ScaledQuotient(p.movedSpot, p.s0, Exp(m, p.rootVariance * z));
  }

  /** The pathwise delta has the option's sign. */
  lemma PathwiseDeltaSign(p: PathModel, st: real)
    requires p.df > 0.0 && GuardedQuotient(st, p.s0) >= 0.0
    ensures p.payoff.optionType == Call ==> PathwiseDelta(p, st) >= 0.0
    ensures p.payoff.optionType == Put ==> PathwiseDelta(p, st) <= 0.0
  {
    var q := GuardedQuotient(st, p.s0);
    assert p.df * q >= 0.0;
  }

  /**
   * Every path pays a non-negative amount, and its pathwise delta is
   * non-negative for a call and non-positive for a put; so does every pair.
   */
  lemma PathSigned(m: Math, p: PathModel, z: real)
    requires SignPreserving(m, p)
    ensures Signed(PathSample(m, p, z), p.payoff.optionType)
    ensures Signed(PairSample(m, p, z), p.payoff.optionType)
  {
    SpotRatio(m, p, z);
    SpotRatio(m, p, -z);
    PathwiseDeltaSign(p, SpotAt(m, p, z));
    PathwiseDeltaSign(p, SpotAt(m, p, -z));
    PayoffNonNegative(p.payoff, SpotAt(m, p, z));
    PayoffNonNegative(p.payoff, SpotAt(m, p, -z));
  }

  lemma SamplesSigned(m: Math, p: PathModel, antithetic: bool, paths: int, zs: seq<real>)
    requires SignPreserving(m, p) && |zs| == DrawCount(antithetic, paths)
    ensures var ss := Samples(m, p, antithetic, paths, zs);
            forall i :: 0 <= i < |ss| ==> Signed(ss[i], p.payoff.optionType)
  {
    var t := p.payoff.optionType;
    var pairs := PairDraws(antithetic, paths);
    var first, second := Batch(PairSampler(m, p), zs[..pairs]), Batch(PathSampler(m, p), zs[pairs..]);
    var ss := Samples(m, p, antithetic, paths, zs);
    assert ss == first + second;
    forall i | 0 <= i < |ss|
      ensures Signed(ss[i], t)
    {
      PathSigned(m, p, zs[i]);
      if i < pairs {
        assert zs[..pairs][i] == zs[i];
        assert ss[i] == first[i] == PairSampler(m, p)(zs[i]) == PairSample(m, p, zs[i]);
      } else {
        assert zs[pairs..][i - pairs] == zs[i];
        assert ss[i] == second[i - pairs] == PathSampler(m, p)(zs[i]) == PathSample(m, p, zs[i]);
      }
    }
  }

  /**
   * The price is never negative, and the delta, when the spot allows one,
   * is non-negative for a call and non-positive for a put.
   */
  lemma PriceSigns(m: Math, ctx: PricingContext, opt: VanillaOption)
    requires ExpPositive(m) && ctx.model.Some?
    ensures var r := PriceVanilla(m, ctx, opt);
            r.Ok? ==> r.value.npv >= 0.0 &&
                      (r.value.greeks.delta.Some? && opt.payoff.value.optionType == Call ==> r.value.greeks.delta.value >= 0.0) &&
                      (r.value.greeks.delta.Some? && opt.payoff.value.optionType == Put ==> r.value.greeks.delta.value <= 0.0)
  {
    if PriceVanilla(m, ctx, opt).Ok? {
      EquityInterfacesNeedBlackScholes(ctx, LocalVol, "BSEuroVanillaMCEngine");
      SimulatedSigns(m, ctx.model.value, opt, ctx.settings);
    }
  }

  lemma SimulatedSigns(m: Math, bs: Model, opt: VanillaOption, settings: PricingSettings)
    requires ExpPositive(m) && bs.BlackScholesModel? && VanillaValid(opt, true)
    ensures var r := Simulated(m, bs, opt, settings);
            r.npv >= 0.0 &&
            (r.greeks.delta.Some? && opt.payoff.value.optionType == Call ==> r.greeks.delta.value >= 0.0) &&
            (r.greeks.delta.Some? && opt.payoff.value.optionType == Put ==> r.greeks.delta.value <= 0.0)
  {
    var maturity := opt.exercise.value.dates[0];
    var p := MakePathModel(m, bs, opt.payoff.value, maturity);
    var zs := Draws(m, settings);
    PathModelSignPreserving(m, bs, opt.payoff.value, maturity);
    SamplesSigned(m, p, settings.mcAntithetic, settings.mcPaths, zs);
    EstimatesSigns(m, p, opt.notional, bs.r, Samples(m, p, settings.mcAntithetic, settings.mcPaths, zs));
  }

  /** Signed samples give a non-negative price and a delta of the option's sign. */
  lemma EstimatesSigns(m: Math, p: PathModel, notional: real, r: real, ss: seq<Sample>)
    requires ExpPositive(m) && notional > 0.0
    requires forall i :: 0 <= i < |ss| ==> Signed(ss[i], p.payoff.optionType)
    ensures var e := Estimates(m, p, notional, r, StatsOf(ss));
            e.npv >= 0.0 &&
            (e.greeks.delta.Some? && p.payoff.optionType == Call ==> e.greeks.delta.value >= 0.0) &&
            (e.greeks.delta.Some? && p.payoff.optionType == Put ==> e.greeks.delta.value <= 0.0)
  {
    ColumnSigns(ss, p.payoff.optionType);
    var disc := Exp(m, -r * p.maturity);
    assert disc * Mean(Column(ss, PayoffField)) >= 0.0;
  }

  /**
   * Which Greeks the engine reports: theta always, delta and gamma when
   * the spot is non-zero, vega and rho when the volatility is; the
   * standard errors alongside.
   */
  lemma GreeksPresent(m: Math, ctx: PricingContext, opt: VanillaOption)
    requires ctx.model.Some?
    ensures var r := PriceVanilla(m, ctx, opt);
            r.Ok? ==> var g := r.value.greeks;
                      var bs := ctx.model.value;
                      g.theta.Some? && g.thetaStdError.Some? &&
                      (g.delta.Some? <==> bs.s0 != 0.0) && (g.gamma.Some? <==> bs.s0 != 0.0) &&
                      (g.deltaStdError.Some? <==> bs.s0 != 0.0) &&
                      (g.vega.Some? <==> bs.sigma != 0.0) && (g.rho.Some? <==> bs.sigma != 0.0) &&
                      (g.vegaStdError.Some? <==> bs.sigma != 0.0)
  {
  }

  /** With fewer than two samples every standard error is 0. */
  lemma FewSamplesNoError(m: Math, bs: Model, opt: VanillaOption, settings: PricingSettings)
    requires bs.BlackScholesModel? && VanillaValid(opt, true)
    requires DrawCount(settings.mcAntithetic, settings.mcPaths) <= 1
    ensures var r := Simulated(m, bs, opt, settings);
            r.mcStdError == 0.0 && r.greeks.thetaStdError == Some(0.0) &&
            (r.greeks.deltaStdError.Some? ==> r.greeks.deltaStdError.value == 0.0)
  {
  }

  /** The engine's error cases, in the order it checks them. */
  lemma PriceErrors(m: Math, ctx: PricingContext, inst: Instrument)
    ensures ctx.model.None? ==> Price(m, ctx, inst) == Err(InvalidInput("PricingContext.model is null"))
    ensures ctx.model.Some? && !inst.Vanilla? ==> IsUnsupported(Price(m, ctx, inst))
    ensures (ctx.model.Some? && inst.Vanilla? && inst.vanilla.payoff.Some? && inst.vanilla.exercise.Some? &&
             inst.vanilla.exercise.value.kind == American) ==> IsUnsupported(Price(m, ctx, inst))
  {
    if ctx.model.Some? {
      if inst.Vanilla? {
        RejectsAmerican(m, ctx, inst.vanilla);
      } else {
        RejectsOthers(m, ctx, inst);
      }
    }
  }

  /** Another instrument than the vanilla option is unsupported. */
  lemma RejectsOthers(m: Math, ctx: PricingContext, inst: Instrument)
    requires ctx.model.Some? && !inst.Vanilla?
    ensures IsUnsupported(Price(m, ctx, inst))
  {
  }

  /** American exercise is unsupported. */
  lemma RejectsAmerican(m: Math, ctx: PricingContext, opt: VanillaOption)
    requires ctx.model.Some?
    ensures opt.payoff.Some? && opt.exercise.Some? && opt.exercise.value.kind == American ==>
            IsUnsupported(Price(m, ctx, Vanilla(opt)))
  {
    var valid := ValidateEuropean(opt);
    if valid.Fail? {
      assert PriceVanilla(m, ctx, opt) == Err(valid.error);
    }
  }

  /** The engine prices only valid vanilla options under the Black-Scholes model. */
  lemma PriceAccepts(m: Math, ctx: PricingContext, inst: Instrument)
    ensures Price(m, ctx, inst).Ok? ==> inst.Vanilla? && VanillaValid(inst.vanilla, true) &&
                                        ctx.model.value.BlackScholesModel?
  {
  }
}
