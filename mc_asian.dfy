// The Black-Scholes Monte Carlo engine for European Asian options. Each
// path walks three spot paths on the same draws: one monitored at the
// maturity's daily dates, and one each at the maturity a day later and
// (clamped) a day earlier. The average of the first gives the payoff,
// the pathwise delta, the likelihood-ratio vega and rho and, rescaled by
// the bumped spots, the common-random-number gamma; the other two give
// theta. The antithetic flag only switches the generator's sign flipping.
module McAsian {
  import opened Core
  import opened DiscountCurves
  import opened Instruments
  import opened Pricing
  import opened Validation
  import opened Rng
  import opened Welford
  import opened FdGreeks
  import opened McStats

  /** Monitoring dates per year. */
  const TradingDays: real := 252.0

  /**
   * `max(1, int(t * 252 + 0.5))`: the number of monitoring dates, the
   * daily count rounded to the nearest integer, and at least one.
   */
  function DateCount(t: real): (n: Dates)
    ensures n > 1 ==> n == Truncate(t * TradingDays + 0.5)
    ensures t * TradingDays >= 0.5 ==> t * TradingDays - 0.5 < n as real <= t * TradingDays + 0.5
  {
    var d := Truncate(t * TradingDays + 0.5);
    if d < 1 then 1 else d
  }

  /** A number of monitoring dates: always at least one. */
  type Dates = n: nat | n >= 1 witness 1

  /**
   * One of the three spot paths of a Monte Carlo path: its number of
   * monitoring dates, the per-step drift factor `exp((r - q - sigma^2/2) dt)`
   * and the per-step volatility `sigma sqrt(dt)`, with `dt = t / dates`.
   */
  datatype Leg = Leg(dates: Dates, growth: real, volStep: real)

  function LegOf(m: Math, r: real, q: real, sigma: real, t: real, dates: Dates): Leg
  {
    var dt := t / dates as real;
    Leg(dates, Exp(m, Drift(r, q, sigma) * dt), sigma * Sqrt(m, dt))
  }

  /** The constants of the path loop, computed once before it. */
  datatype AsianPathModel = AsianPathModel(
    payoff: Payoff, arithmetic: bool, s0: real, sigma: real, maturity: real,
    df: real, dS: real, dfUp: real, dfDn: real, base: Leg, up: Leg, down: Leg)

  /**
   * The engine's constants: the discount factors and the legs at the
   * maturity, the maturity a day later, and the maturity a day earlier
   * clamped at `1e-8`.
   */
  function MakeAsianModel(m: Math, bs: Model, payoff: Payoff, averageType: AsianAverageType, maturity: real): AsianPathModel
    requires bs.BlackScholesModel?
  {
    var tUp := maturity + DefaultBumps.theta;
    var tDn := ShorterMaturity(maturity, DefaultBumps);
    AsianPathModel(payoff, averageType == Arithmetic, bs.s0, bs.sigma, maturity,
      FlatDiscount(m, bs.r, maturity), bs.s0 * DefaultBumps.delta, FlatDiscount(m, bs.r, tUp), FlatDiscount(m, bs.r, tDn),
      LegOf(m, bs.r, bs.q, bs.sigma, maturity, DateCount(maturity)),
      LegOf(m, bs.r, bs.q, bs.sigma, tUp, DateCount(tUp)),
      LegOf(m, bs.r, bs.q, bs.sigma, tDn, DateCount(tDn)))
  }

  /** The draws one path takes: as many as the longest leg needs. */
  function MaxDates(p: AsianPathModel): (d: nat)
    ensures d >= p.base.dates && d >= p.up.dates && d >= p.down.dates
    ensures d == p.base.dates || d == p.up.dates || d == p.down.dates
  {
    MaxInt(p.base.dates, MaxInt(p.up.dates, p.down.dates))
  }

  // ---- one spot path ----

  /** A leg's running spot and running total (`sum_S`, or `sum_log_S` for a geometric average). */
  datatype Running = Running(spot: real, total: real)

  /** What a monitoring date adds to the total: the spot, or its logarithm. */
  function Observed(m: Math, arithmetic: bool, spot: real): real
  {
    if arithmetic then spot else Log(m, spot)
  }

  /** The log-move `volStep z` of the draw `z`. */
  function Shock(leg: Leg, z: real): real
  {
    leg.volStep * z
  }

  /** The spot one step on for the draw `z`. */
  function NextSpot(m: Math, leg: Leg, spot: real, z: real): real
  {
    spot * leg.growth * Exp(m, Shock(leg, z))
  }

  /** The running values after the draws `zs`, one monitoring date each, from the spot `s0`. */
  function Walk(m: Math, leg: Leg, arithmetic: bool, s0: real, zs: seq<real>): Running
  {
    if |zs| == 0 then Running(s0, 0.0)
    else
      var w := Walk(m, leg, arithmetic, s0, zs[..|zs| - 1]);
      var spot := NextSpot(m, leg, w.spot, zs[|zs| - 1]);
      Running(spot, w.total + Observed(m, arithmetic, spot))
  }

  /** The average at the end of a leg: `sum_S / n`, or `exp(sum_log_S / n)`. */
  function AverageOf(m: Math, leg: Leg, arithmetic: bool, w: Running): real
  {
    if arithmetic then w.total / leg.dates as real else Exp(m, w.total / leg.dates as real)
  }

  /** The first `n` draws, or all of them if there are fewer. */
  function Prefix(zs: seq<real>, n: nat): (ys: seq<real>)
    ensures |ys| <= n && |ys| <= |zs| && ys == zs[..|ys|]
    ensures |zs| >= n ==> |ys| == n
    ensures |zs| <= n ==> ys == zs
  {
    if |zs| < n then zs else zs[..n]
  }

  /** The running values of the base, later and earlier legs. */
  datatype Legs = Legs(base: Running, up: Running, down: Running)

  /** The three legs after the draws `zs`: each reads only its own leading draws. */
  function Walks(m: Math, p: AsianPathModel, zs: seq<real>): Legs
  {
    Legs(Walk(m, p.base, p.arithmetic, p.s0, Prefix(zs, p.base.dates)),
         Walk(m, p.up, p.arithmetic, p.s0, Prefix(zs, p.up.dates)),
         Walk(m, p.down, p.arithmetic, p.s0, Prefix(zs, p.down.dates)))
  }

  /** A leg's average over a path's draws: the leg reads only its own leading draws. */
  function LegAverage(m: Math, p: AsianPathModel, leg: Leg, zs: seq<real>): real
  {
    AverageOf(m, leg, p.arithmetic, Walk(m, leg, p.arithmetic, p.s0, Prefix(zs, leg.dates)))
  }

  // ---- one path's estimators ----

  /**
   * The pathwise delta: `df A / S0` for a call whose average exceeds the
   * strike, `-df A / S0` for a put whose average is below it, 0 otherwise.
   */
  function AverageDelta(p: AsianPathModel, average: real): real
  {
    if p.payoff.optionType == Call && average > p.payoff.strike then p.df * GuardedQuotient(average, p.s0)
    else if p.payoff.optionType == Put && average < p.payoff.strike then -p.df * GuardedQuotient(average, p.s0)
    else 0.0
  }

  /** Below this volatility the likelihood-ratio scores are taken as 0. */
  const ScoreThreshold: real := 0.0000000001

  /** The proxy log-return `log(A / S0)` the scores are built from. */
  function LogReturn(m: Math, p: AsianPathModel, average: real): real
  {
    Log(m, GuardedQuotient(average, p.s0))
  }

  /** The volatility score `l^2 / (sigma T) - T / (2 sigma)`. */
  function SigmaScore(m: Math, p: AsianPathModel, average: real): (s: real)
    ensures p.sigma <= ScoreThreshold ==> s == 0.0
  {
    var l := LogReturn(m, p, average);
    if p.sigma > ScoreThreshold then GuardedQuotient(l * l, p.sigma * p.maturity) - 0.5 * p.maturity / p.sigma
    else 0.0
  }

  /** The rate score `l T / sigma^2`. */
  function RateScore(m: Math, p: AsianPathModel, average: real): (s: real)
    ensures p.sigma <= ScoreThreshold ==> s == 0.0
  {
    if p.sigma > ScoreThreshold then (LogReturn(m, p, average) * p.maturity) / (p.sigma * p.sigma)
    else 0.0
  }

  /** The discounted second difference of the payoffs at the averages rescaled to `S0 +- dS`. */
  function AsianGamma(p: AsianPathModel, average: real): real
  {
    var up := p.payoff.Apply(average * GuardedQuotient(p.s0 + p.dS, p.s0));
    var down := p.payoff.Apply(average * GuardedQuotient(p.s0 - p.dS, p.s0));
    p.df * GuardedQuotient(up - 2.0 * p.payoff.Apply(average) + down, p.dS * p.dS)
  }

  /** The discounted earlier minus later payoff over two days. */
  function AsianTheta(p: AsianPathModel, averageLater: real, averageEarlier: real): real
  {
    (p.dfDn * p.payoff.Apply(averageEarlier) - p.dfUp * p.payoff.Apply(averageLater)) / (2.0 * DefaultBumps.theta)
  }

  /** The estimators of one path from its base, later and earlier averages. */
  function SampleOf(m: Math, p: AsianPathModel, average: real, averageLater: real, averageEarlier: real): Sample
  {
    var v := p.payoff.Apply(average);
    Sample(v, AverageDelta(p, average), v * SigmaScore(m, p, average),
           -p.maturity * v + v * RateScore(m, p, average),
           AsianGamma(p, average), AsianTheta(p, averageLater, averageEarlier))
  }

  /** The estimators of the path that took the draws `zs`. */
  function PathSample(m: Math, p: AsianPathModel, zs: seq<real>): Sample
  {
    SampleOf(m, p, LegAverage(m, p, p.base, zs), LegAverage(m, p, p.up, zs), LegAverage(m, p, p.down, zs))
  }

  /** The estimators of a path as a function of its draws. */
  function PathSampler(m: Math, p: AsianPathModel): seq<real> -> Sample
  {
    zs => PathSample(m, p, zs)
  }

  /** The samples of `count` paths, path `i` taking the `i`-th block of `MaxDates` draws. */
  function PathSamples(m: Math, p: AsianPathModel, zs: seq<real>, count: nat): (ss: seq<Sample>)
    requires |zs| == count * MaxDates(p)
    ensures |ss| == count
  {
    ConsumedIsProduct(|zs|, count, MaxDates(p));
    Blocks(PathSampler(m, p), zs, MaxDates(p), count)
  }

  /** The path loop runs `mc_paths` times, whatever the antithetic flag. */
  function PathCount(paths: int): nat
  {
    if paths <= 0 then 0 else paths
  }

  // ---- the loops ----

  lemma WalkAppend(m: Math, leg: Leg, arithmetic: bool, s0: real, zs: seq<real>, z: real)
    ensures var w := Walk(m, leg, arithmetic, s0, zs);
            var spot := NextSpot(m, leg, w.spot, z);
            Walk(m, leg, arithmetic, s0, zs + [z]) == Running(spot, w.total + Observed(m, arithmetic, spot))
  {
    assert (zs + [z])[..|zs|] == zs;
  }

  /** A leg's state after one more draw: one step if the leg still has dates, none otherwise. */
  lemma PrefixStep(m: Math, leg: Leg, arithmetic: bool, s0: real, zs: seq<real>, z: real)
    ensures var w := Walk(m, leg, arithmetic, s0, Prefix(zs, leg.dates));
            var spot := NextSpot(m, leg, w.spot, z);
            Walk(m, leg, arithmetic, s0, Prefix(zs + [z], leg.dates)) ==
              if |zs| < leg.dates then Running(spot, w.total + Observed(m, arithmetic, spot)) else w
  {
    if |zs| < leg.dates {
      WalkAppend(m, leg, arithmetic, s0, zs, z);
    } else {
      assert Prefix(zs + [z], leg.dates) == Prefix(zs, leg.dates);
    }
  }

  /**
   * One path: `MaxDates` draws from the wrapper; each leg steps its spot
   * and its total on the draws before its own date count, then the three
   * averages give the path's estimators. `states` and `draws` are the run
   * the wrapper makes from its current state.
   */
  method SimulatePath(m: Math, p: AsianPathModel, rng: Pcg32, gen: AntitheticGaussianGenerator,
                      ghost states: seq<GeneratorState>, ghost draws: seq<real>) returns (s: Sample)
    requires |draws| == MaxDates(p)
    requires IsRun(m, rng.inc, gen.antitheticEnabled, states, draws) && gen.State(rng) == states[0]
    modifies rng`state, gen, gen.inner
    ensures gen.antitheticEnabled == old(gen.antitheticEnabled)
    ensures s == PathSample(m, p, draws) && gen.State(rng) == states[|draws|]
  {
    var legs := WalkPath(m, p, rng, gen, states, draws);
    var average := AverageOf(m, p.base, p.arithmetic, legs.base);
    var averageUp := AverageOf(m, p.up, p.arithmetic, legs.up);
    var averageDn := AverageOf(m, p.down, p.arithmetic, legs.down);
    s := SampleOf(m, p, average, averageUp, averageDn);
  }

  /**
   * The path whose draws start at position `k` of the run; `sample` is the
   * path's estimators as a function of its draws.
   */
  method SimulateBlock(m: Math, p: AsianPathModel, rng: Pcg32, gen: AntitheticGaussianGenerator,
                       ghost states: seq<GeneratorState>, ghost draws: seq<real>, ghost k: nat,
                       ghost sample: seq<real> -> Sample) returns (s: Sample)
    requires k + MaxDates(p) <= |draws|
    requires IsRun(m, rng.inc, gen.antitheticEnabled, states, draws) && gen.State(rng) == states[k]
    requires forall zs {:trigger PathSample(m, p, zs)} :: PathSample(m, p, zs) == sample(zs)
    modifies rng`state, gen, gen.inner
    ensures gen.antitheticEnabled == old(gen.antitheticEnabled)
    ensures s == sample(draws[k..k + MaxDates(p)]) && gen.State(rng) == states[k + MaxDates(p)]
  {
    var d := MaxDates(p);
    RunSlice(m, rng.inc, gen.antitheticEnabled, states, draws, k, k + d);
    ghost var pathStates, pathDraws := states[k..k + d + 1], draws[k..k + d];
    assert |pathDraws| == d && pathStates[d] == states[k + d];
    s := SimulatePath(m, p, rng, gen, pathStates, pathDraws);
  }

  /** The date loop of one path: one draw per date, each leg stepping while it has dates left. */
  method WalkPath(m: Math, p: AsianPathModel, rng: Pcg32, gen: AntitheticGaussianGenerator,
                  ghost states: seq<GeneratorState>, ghost draws: seq<real>) returns (legs: Legs)
    requires |draws| == MaxDates(p)
    requires IsRun(m, rng.inc, gen.antitheticEnabled, states, draws) && gen.State(rng) == states[0]
    modifies rng`state, gen, gen.inner
    ensures gen.antitheticEnabled == old(gen.antitheticEnabled)
    ensures legs == Walks(m, p, draws) && gen.State(rng) == states[|draws|]
  {
    legs := Legs(Running(p.s0, 0.0), Running(p.s0, 0.0), Running(p.s0, 0.0));
    var maxDates := MaxDates(p);
    var j := 0;
    while j < maxDates
      invariant 0 <= j <= maxDates && gen.antitheticEnabled == old(gen.antitheticEnabled)
      invariant gen.State(rng) == states[j] && legs == Walks(m, p, draws[..j])
    {
      var z := DrawOfRun(m, rng, gen, states, draws, j);
      TakeOneMore(draws, j);
      legs := StepLegs(m, p, j, legs, z, draws[..j]);
      j := j + 1;
    }
    assert draws[..maxDates] == draws;
  }

  /** Call `j` of a run of the wrapper returns the run's `j`-th draw and leaves its next state. */
  method DrawOfRun(m: Math, rng: Pcg32, gen: AntitheticGaussianGenerator,
                   ghost states: seq<GeneratorState>, ghost draws: seq<real>, ghost j: nat) returns (z: real)
    requires IsRun(m, rng.inc, gen.antitheticEnabled, states, draws) && j < |draws| && gen.State(rng) == states[j]
    modifies rng`state, gen, gen.inner
    ensures gen.antitheticEnabled == old(gen.antitheticEnabled)
    ensures z == draws[j] && gen.State(rng) == states[j + 1]
  {
    RunStep(m, rng.inc, gen.antitheticEnabled, states, draws, j);
    z := gen.Next(m, rng);
  }

  /** One monitoring date of the three legs, after the draws `zs`, on the draw `z`. */
  method StepLegs(m: Math, p: AsianPathModel, j: nat, legs: Legs, z: real, ghost zs: seq<real>) returns (legs': Legs)
    requires |zs| == j && legs == Walks(m, p, zs)
    ensures legs' == Walks(m, p, zs + [z])
  {
    var base := AdvanceLeg(m, p.base, p.arithmetic, p.s0, j, legs.base, z, zs);
    var up := AdvanceLeg(m, p.up, p.arithmetic, p.s0, j, legs.up, z, zs);
    var down := AdvanceLeg(m, p.down, p.arithmetic, p.s0, j, legs.down, z, zs);
    legs' := Legs(base, up, down);
  }

  /** One date of one leg, after the draws `zs`: the leg's walk over its leading draws, one draw on. */
  method AdvanceLeg(m: Math, leg: Leg, arithmetic: bool, s0: real, j: nat, w: Running, z: real, ghost zs: seq<real>)
    returns (w': Running)
    requires |zs| == j && w == Walk(m, leg, arithmetic, s0, Prefix(zs, leg.dates))
    ensures w' == Walk(m, leg, arithmetic, s0, Prefix(zs + [z], leg.dates))
  {
    PrefixStep(m, leg, arithmetic, s0, zs, z);
    w' := StepLeg(m, leg, arithmetic, j, w, z);
  }

  /**
   * One date of one leg: while the leg has dates left, step the spot and
   * add the spot (or its logarithm) to the total.
   */
  method StepLeg(m: Math, leg: Leg, arithmetic: bool, j: nat, w: Running, z: real) returns (w': Running)
    ensures j < leg.dates ==> w'.spot == NextSpot(m, leg, w.spot, z) && w'.total == w.total + Observed(m, arithmetic, w'.spot)
    ensures j >= leg.dates ==> w' == w
  {
    w' := w;
    if j < leg.dates {
      var spot := NextSpot(m, leg, w.spot, z);
      if arithmetic {
        w' := Running(spot, w.total + spot);
      } else {
        w' := Running(spot, w.total + Log(m, spot));
      }
    }
  }

  /**
   * The path loop: `mc_paths` paths, each pushed onto the accumulators, over
   * the wrapper's run; `sample` is the path's estimators as a function of
   * its draws.
   */
  method Simulate(m: Math, p: AsianPathModel, paths: int, rng: Pcg32, gen: AntitheticGaussianGenerator,
                  ghost states: seq<GeneratorState>, ghost draws: seq<real>,
                  ghost sample: seq<real> -> Sample) returns (st: Stats)
    requires Consumed(|draws|, PathCount(paths), MaxDates(p))
    requires IsRun(m, rng.inc, gen.antitheticEnabled, states, draws) && gen.State(rng) == states[0]
    requires forall zs {:trigger PathSample(m, p, zs)} :: PathSample(m, p, zs) == sample(zs)
    modifies rng`state, gen, gen.inner
    ensures gen.antitheticEnabled == old(gen.antitheticEnabled)
    ensures st == PushAll(NoStats, Blocks(sample, draws, MaxDates(p), PathCount(paths)))
    ensures gen.State(rng) == states[|draws|]
  {
    ghost var count := PathCount(paths);
    st := NoStats;
    var i := 0;
    ghost var k: nat := 0;
    while i < paths
      invariant 0 <= i <= count && k <= |draws| && Consumed(k, i, MaxDates(p))
      invariant gen.antitheticEnabled == old(gen.antitheticEnabled) && gen.State(rng) == states[k]
      invariant IsRun(m, rng.inc, gen.antitheticEnabled, states, draws)
      invariant st == PushAll(NoStats, Blocks(sample, draws[..k], MaxDates(p), i))
    {
      st := SimulateNext(m, p, count, rng, gen, states, draws, sample, st, i, k);
      i := i + 1;
      k := k + MaxDates(p);
    }
    assert i == count;
    PushedAll(sample, draws, MaxDates(p), count, k, st);
  }

  /** One turn of the path loop: path `i` takes the draws from position `k` on and is pushed. */
  method SimulateNext(m: Math, p: AsianPathModel, ghost count: nat, rng: Pcg32, gen: AntitheticGaussianGenerator,
                      ghost states: seq<GeneratorState>, ghost draws: seq<real>, ghost sample: seq<real> -> Sample,
                      st: Stats, ghost i: nat, ghost k: nat) returns (st': Stats)
    requires i < count && k <= |draws| && Consumed(|draws|, count, MaxDates(p)) && Consumed(k, i, MaxDates(p))
    requires IsRun(m, rng.inc, gen.antitheticEnabled, states, draws) && gen.State(rng) == states[k]
    requires forall zs {:trigger PathSample(m, p, zs)} :: PathSample(m, p, zs) == sample(zs)
    requires st == PushAll(NoStats, Blocks(sample, draws[..k], MaxDates(p), i))
    modifies rng`state, gen, gen.inner
    ensures gen.antitheticEnabled == old(gen.antitheticEnabled)
    ensures k + MaxDates(p) <= |draws| && Consumed(k + MaxDates(p), i + 1, MaxDates(p))
    ensures gen.State(rng) == states[k + MaxDates(p)]
    ensures st' == PushAll(NoStats, Blocks(sample, draws[..k + MaxDates(p)], MaxDates(p), i + 1))
  {
    BlocksStep(sample, draws, MaxDates(p), count, i, k);
    var s := SimulateBlock(m, p, rng, gen, states, draws, k, sample);
    PushedStep(sample, draws, MaxDates(p), count, i, k, st, s);
    st' := Push(st, s);
  }

  // ---- the results ----

  /**
   * The result from the accumulators. The npv, vega and rho are
   * discounted here; delta, gamma and theta were discounted per path. Every
   * Greek is reported, and so is every standard error.
   */
  function AsianEstimates(m: Math, p: AsianPathModel, notional: real, r: real, st: Stats): PricingResult
  {
    var disc := FlatDiscount(m, r, p.maturity);
    PricingResult(
      notional * (disc * st.payoff.mean),
      Greeks(
        Some(notional * st.delta.mean), Some(notional * st.gamma.mean),
        Some(notional * disc * st.vega.mean), Some(notional * st.theta.mean),
        Some(notional * disc * st.rho.mean),
        Some(StdError(m, st.delta, st.n) * notional), Some(notional * StdError(m, st.gamma, st.n)),
        Some(notional * disc * StdError(m, st.vega, st.n)), Some(notional * StdError(m, st.theta, st.n)),
        Some(notional * disc * StdError(m, st.rho, st.n))),
      notional * (disc * StdError(m, st.payoff, st.n)))
  }

  /** Where a run's wrapper starts: a fresh sampler on stream 0 of the seed, count 0. */
  function InitialGenerator(seed: int): GeneratorState
  {
    GeneratorState(InitialSampler(seed), 0)
  }

  /** The draws `mc_paths` paths take from the seeded generator, `MaxDates` each. */
  function SimulatedDraws(m: Math, p: AsianPathModel, settings: PricingSettings): (zs: seq<real>)
    ensures |zs| == PathCount(settings.mcPaths) * MaxDates(p)
  {
    Drawn(Generator(m, StreamIncrement(0), settings.mcAntithetic), InitialGenerator(settings.mcSeed),
          PathCount(settings.mcPaths) * MaxDates(p))
  }

  /** The accumulators after `mc_paths` paths from the seeded generator. */
  function SimulatedStats(m: Math, p: AsianPathModel, settings: PricingSettings): Stats
  {
    StatsOf(PathSamples(m, p, SimulatedDraws(m, p, settings), PathCount(settings.mcPaths)))
  }

  /** The simulation of a validated option under the Black-Scholes model. */
  function Simulated(m: Math, bs: Model, opt: AsianOption, settings: PricingSettings): PricingResult
    requires bs.BlackScholesModel? && AsianValid(opt)
  {
    var p := MakeAsianModel(m, bs, opt.payoff.value, opt.averageType, opt.exercise.value.dates[0]);
    AsianEstimates(m, p, opt.notional, bs.r, SimulatedStats(m, p, settings))
  }

  function PriceAsian(m: Math, ctx: PricingContext, opt: AsianOption): Result<PricingResult>
    requires ctx.model.Some?
  {
    var valid := ValidateAsian(opt);
    if valid.Fail? then Err(valid.error)
    else
      var model := RequireModel(ctx, BlackScholes, "BSEuroAsianMCEngine");
      if model.Err? then Err(model.error)
      else
        EquityInterfacesNeedBlackScholes(ctx, BlackScholes, "BSEuroAsianMCEngine");
        Ok(Simulated(m, model.value, opt, ctx.settings))
  }

  /**
   * The engine: the model check, then the Asian visit. A vanilla option
   * is refused with a message naming the vanilla engine; futures and bonds
   * get the engine base's refusal.
   */
  function Price(m: Math, ctx: PricingContext, inst: Instrument): Result<PricingResult>
  {
    if ctx.model.None? then Err(InvalidInput("PricingContext.model is null"))
    else match inst
      case Asian(opt) => PriceAsian(m, ctx, opt)
      case Vanilla(_) =>
        Err(UnsupportedInstrument("BSEuroAsianMCEngine does not support Vanilla options. Use BSEuroVanillaMCEngine instead."))
      case _ => Unsupported(inst)
  }

  /** The Asian visit with the generator objects of the library. */
  method RunAsian(m: Math, ctx: PricingContext, opt: AsianOption) returns (res: Result<PricingResult>)
    requires ctx.model.Some?
    ensures res == PriceAsian(m, ctx, opt)
  {
    var valid := ValidateAsian(opt);
    if valid.Fail? {
      return Err(valid.error);
    }
    var model := RequireModel(ctx, BlackScholes, "BSEuroAsianMCEngine");
    if model.Err? {
      return Err(model.error);
    }
    var bs := model.value;
    EquityInterfacesNeedBlackScholes(ctx, BlackScholes, "BSEuroAsianMCEngine");
    var p := MakeAsianModel(m, bs, opt.payoff.value, opt.averageType, opt.exercise.value.dates[0]);
    var st := SimulateSeeded(m, p, ctx.settings);
    res := Ok(AsianEstimates(m, p, opt.notional, bs.r, st));
  }

  /**
   * The generator objects of the engine: stream 0 of a factory seeded with
   * `mc_seed`, the wrapper's flag set from `mc_antithetic`, then the path loop.
   */
  method SimulateSeeded(m: Math, p: AsianPathModel, settings: PricingSettings) returns (st: Stats)
    ensures st == SimulatedStats(m, p, settings)
  {
    var factory := new RngFactory(SeedBits(settings.mcSeed));
    var rng := factory.Make(0);
    var gen := new AntitheticGaussianGenerator();
    if settings.mcAntithetic {
      gen.EnableAntithetic();
    } else {
      gen.DisableAntithetic();
    }
    ghost var g0 := InitialGenerator(settings.mcSeed);
    assert gen.State(rng) == g0;
    ghost var count := PathCount(settings.mcPaths);
    ghost var n := count * MaxDates(p);
    ghost var f := Generator(m, StreamIncrement(0), settings.mcAntithetic);
    ghost var draws := Drawn(f, g0, n);
    GeneratorRun(m, StreamIncrement(0), settings.mcAntithetic, g0, n);
    ConsumedIsProduct(|draws|, count, MaxDates(p));
    st := Simulate(m, p, settings.mcPaths, rng, gen, Visited(f, g0, n), draws, PathSampler(m, p));
    PushAllIsStatsOf(PathSamples(m, p, draws, count));
  }

  method Run(m: Math, ctx: PricingContext, inst: Instrument) returns (res: Result<PricingResult>)
    ensures res == Price(m, ctx, inst)
  {
    if ctx.model.None? || !inst.Asian? {
      return Price(m, ctx, inst);
    }
    res := RunAsian(m, ctx, inst.asian);
  }

  // ---- the single-leg helpers ----

  /**
   * `simulate_arithmetic_path`, `simulate_geometric_path` and their
   * `_with_average` variants: one spot path of `numDates` daily steps from
   * `s0`, then the payoff of its average. The plain helpers return the
   * payoff, the variants the payoff and the average.
   */
  method SimulateLeg(m: Math, s0: real, t: real, r: real, q: real, sigma: real, numDates: Dates,
                     arithmetic: bool, payoff: Payoff, rng: Pcg32, gen: AntitheticGaussianGenerator,
                     ghost states: seq<GeneratorState>, ghost draws: seq<real>) returns (value: real, average: real)
    requires |draws| == numDates
    requires IsRun(m, rng.inc, gen.antitheticEnabled, states, draws) && gen.State(rng) == states[0]
    modifies rng`state, gen, gen.inner
    ensures gen.antitheticEnabled == old(gen.antitheticEnabled) && gen.State(rng) == states[|draws|]
    ensures var leg := LegOf(m, r, q, sigma, t, numDates);
            average == AverageOf(m, leg, arithmetic, Walk(m, leg, arithmetic, s0, draws)) &&
            value == payoff.Apply(average)
  {
    var leg := LegOf(m, r, q, sigma, t, numDates);
    var w := Running(s0, 0.0);
    var j := 0;
    while j < numDates
      invariant 0 <= j <= numDates && gen.antitheticEnabled == old(gen.antitheticEnabled)
      invariant gen.State(rng) == states[j] && w == Walk(m, leg, arithmetic, s0, draws[..j])
    {
      var z := DrawOfRun(m, rng, gen, states, draws, j);
      TakeOneMore(draws, j);
      WalkAppend(m, leg, arithmetic, s0, draws[..j], z);
      var spot := NextSpot(m, leg, w.spot, z);
      if arithmetic {
        w := Running(spot, w.total + spot);
      } else {
        w := Running(spot, w.total + Log(m, spot));
      }
      j := j + 1;
    }
    assert draws[..numDates] == draws;
    if arithmetic {
      average := w.total / numDates as real;
    } else {
      average := Exp(m, w.total / numDates as real);
    }
    value := payoff.Apply(average);
  }

  // ---- monitoring dates ----

  /** A longer maturity never has fewer monitoring dates. */
  lemma DateCountMonotone(t: real, t': real)
    requires t <= t'
    ensures DateCount(t) <= DateCount(t')
  {
    TruncateMonotone(t * TradingDays + 0.5, t' * TradingDays + 0.5);
  }

  /**
   * The later leg has the most dates, so each path takes exactly the later
   * leg's count of draws. The earlier maturity is at least `1e-8`.
   */
  lemma LaterLegLongest(m: Math, bs: Model, payoff: Payoff, averageType: AsianAverageType, maturity: real)
    requires bs.BlackScholesModel?
    ensures var p := MakeAsianModel(m, bs, payoff, averageType, maturity);
            p.base.dates <= p.up.dates && p.down.dates <= p.up.dates && MaxDates(p) == p.up.dates
    ensures ShorterMaturity(maturity, DefaultBumps) >= MinMaturity
  {
    var tUp := maturity + DefaultBumps.theta;
    var tDn := ShorterMaturity(maturity, DefaultBumps);
    DateCountMonotone(maturity, tUp);
    if tDn <= tUp {
      DateCountMonotone(tDn, tUp);
    } else {
      assert tDn == MinMaturity;
    }
  }

  // ---- the spot path ----

  /** The log-move of the draws `zs` together: `volStep (z_1 + ... + z_k)`. */
  function Shocks(leg: Leg, zs: seq<real>): real
  {
    leg.volStep * Sum(zs)
  }

  /**
   * The closed form of a leg's spot: after the draws `zs` it is
   * `s0 growth^k exp(volStep (z_1 + ... + z_k))`.
   */
  lemma {:induction false} WalkSpot(m: Math, leg: Leg, arithmetic: bool, s0: real, zs: seq<real>)
    requires ExpPositive(m) && ExpAdditive(m)
    ensures Walk(m, leg, arithmetic, s0, zs).spot == s0 * NatPow(leg.growth, |zs|) * Exp(m, Shocks(leg, zs))
  {
    if |zs| == 0 {
      ExpZero(m);
      assert Shocks(leg, zs) == 0.0;
    } else {
      var init, z := zs[..|zs| - 1], zs[|zs| - 1];
      WalkSpot(m, leg, arithmetic, s0, init);
      ShocksStep(leg, zs);
      WalkStep(m, leg, arithmetic, s0, zs);
      ExpAddTo(m, Shocks(leg, init), Shock(leg, z), Shocks(leg, zs));
      SpotRegroup(m, leg, Walk(m, leg, arithmetic, s0, init).spot, s0, NatPow(leg.growth, |init|), Exp(m, Shocks(leg, init)),
        z, Exp(m, Shocks(leg, zs)), Walk(m, leg, arithmetic, s0, zs).spot, NatPow(leg.growth, |zs|));
    }
  }

  /** The last draw's log-move completes the log-move of all the draws. */
  lemma ShocksStep(leg: Leg, zs: seq<real>)
    requires |zs| > 0
    ensures Shocks(leg, zs[..|zs| - 1]) + Shock(leg, zs[|zs| - 1]) == Shocks(leg, zs)
  {
  }

  /** The spot after the draws `zs` is the spot after all but the last moved on by the last. */
  lemma WalkStep(m: Math, leg: Leg, arithmetic: bool, s0: real, zs: seq<real>)
    requires |zs| > 0
    ensures Walk(m, leg, arithmetic, s0, zs).spot == NextSpot(m, leg, Walk(m, leg, arithmetic, s0, zs[..|zs| - 1]).spot, zs[|zs| - 1])
  {
  }

  /** `w = s0 g e` moved on by one step of the leg with the draw `z`. */
  lemma SpotRegroup(m: Math, leg: Leg, w: real, s0: real, g: real, e: real, z: real, e': real, w': real, g': real)
    requires w == s0 * g * e && e * Exp(m, Shock(leg, z)) == e' && w' == NextSpot(m, leg, w, z) && g' == leg.growth * g
    ensures w' == s0 * g' * e'
  {
    Regroup(w, s0, g, e, leg.growth, Exp(m, Shock(leg, z)), e', w', g');
  }

  /** `w = s0 g e` moved on by the factors `a` and `x`. */
  lemma Regroup(w: real, s0: real, g: real, e: real, a: real, x: real, e': real, w': real, g': real)
    requires w == s0 * g * e && e * x == e' && w' == w * a * x && g' == a * g
    ensures w' == s0 * g' * e'
  {
  }

  /** From a positive spot every spot is positive, and an arithmetic running sum is not negative. */
  lemma {:induction false} WalkPositive(m: Math, leg: Leg, arithmetic: bool, s0: real, zs: seq<real>)
    requires ExpPositive(m) && leg.growth > 0.0 && s0 > 0.0
    ensures Walk(m, leg, arithmetic, s0, zs).spot > 0.0
    ensures arithmetic ==> Walk(m, leg, arithmetic, s0, zs).total >= 0.0
  {
    if |zs| > 0 {
      var w := Walk(m, leg, arithmetic, s0, zs[..|zs| - 1]);
      WalkPositive(m, leg, arithmetic, s0, zs[..|zs| - 1]);
      var e := Exp(m, Shock(leg, zs[|zs| - 1]));
      assert w.spot * leg.growth > 0.0;
      assert w.spot * leg.growth * e > 0.0;
    }
  }

  /** From a positive spot both averages are non-negative (the geometric one positive). */
  lemma AverageNonNegative(m: Math, p: AsianPathModel, leg: Leg, zs: seq<real>)
    requires ExpPositive(m) && leg.growth > 0.0 && p.s0 > 0.0
    ensures LegAverage(m, p, leg, zs) >= 0.0
    ensures !p.arithmetic ==> LegAverage(m, p, leg, zs) > 0.0
  {
    WalkPositive(m, leg, p.arithmetic, p.s0, Prefix(zs, leg.dates));
  }

  // ---- signs ----

  /**
   * The pathwise delta is non-negative for a call and non-zero only when
   * the average is above the strike; for a put it is non-positive and
   * non-zero only when the average is below the strike.
   */
  lemma AverageDeltaSign(p: AsianPathModel, average: real)
    requires p.df > 0.0 && GuardedQuotient(average, p.s0) >= 0.0
    ensures p.payoff.optionType == Call ==>
              AverageDelta(p, average) >= 0.0 && (AverageDelta(p, average) != 0.0 ==> average > p.payoff.strike)
    ensures p.payoff.optionType == Put ==>
              AverageDelta(p, average) <= 0.0 && (AverageDelta(p, average) != 0.0 ==> average < p.payoff.strike)
  {
    var g := GuardedQuotient(average, p.s0);
    assert p.df * g >= 0.0;
  }

  /** What the sign facts need of the engine's constants. */
  ghost predicate SignPreserving(m: Math, p: AsianPathModel)
  {
    ExpPositive(m) && p.df > 0.0 && p.s0 >= 0.0 && p.base.growth > 0.0
  }

  lemma AsianModelSignPreserving(m: Math, bs: Model, payoff: Payoff, averageType: AsianAverageType, maturity: real)
    requires ExpPositive(m) && bs.BlackScholesModel? && bs.s0 >= 0.0
    ensures SignPreserving(m, MakeAsianModel(m, bs, payoff, averageType, maturity))
  {
  }

  /** Every path pays a non-negative amount and has a delta of the option's sign. */
  lemma PathSigned(m: Math, p: AsianPathModel, zs: seq<real>)
    requires SignPreserving(m, p)
    ensures Signed(PathSample(m, p, zs), p.payoff.optionType)
  {
    var average := LegAverage(m, p, p.base, zs);
    if p.s0 > 0.0 {
      AverageNonNegative(m, p, p.base, zs);
      assert average / p.s0 >= 0.0;
    }
    AverageDeltaSign(p, average);
    PayoffNonNegative(p.payoff, average);
  }

  /** Every block's sample is the sampler's value on some draws. */
  lemma {:induction false} BlockSampled(sample: seq<real> -> Sample, zs: seq<real>, d: nat, count: nat, i: nat)
    requires Consumed(|zs|, count, d) && i < count
    ensures exists ys :: Blocks(sample, zs, d, count)[i] == sample(ys)
    decreases count
  {
    var k := |zs| - d;
    if i < count - 1 {
      BlockSampled(sample, zs[..k], d, count - 1, i);
      var ys :| Blocks(sample, zs[..k], d, count - 1)[i] == sample(ys);
      assert Blocks(sample, zs, d, count)[i] == sample(ys);
    } else {
      assert Blocks(sample, zs, d, count)[i] == sample(zs[k..]);
    }
  }

  lemma PathSamplesSigned(m: Math, p: AsianPathModel, zs: seq<real>, count: nat)
    requires SignPreserving(m, p) && |zs| == count * MaxDates(p)
    ensures var ss := PathSamples(m, p, zs, count);
            forall i :: 0 <= i < |ss| ==> Signed(ss[i], p.payoff.optionType)
  {
    var ss := PathSamples(m, p, zs, count);
    ConsumedIsProduct(|zs|, count, MaxDates(p));
    forall i | 0 <= i < |ss|
      ensures Signed(ss[i], p.payoff.optionType)
    {
      BlockSampled(PathSampler(m, p), zs, MaxDates(p), count, i);
      var ys :| ss[i] == PathSampler(m, p)(ys);
      PathSigned(m, p, ys);
    }
  }

  /** Signed samples and a non-negative notional give a non-negative price and a delta of the option's sign. */
  lemma EstimatesSigns(m: Math, p: AsianPathModel, notional: real, r: real, ss: seq<Sample>)
    requires ExpPositive(m) && notional >= 0.0
    requires forall i :: 0 <= i < |ss| ==> Signed(ss[i], p.payoff.optionType)
    ensures var e := AsianEstimates(m, p, notional, r, StatsOf(ss));
            e.npv >= 0.0 &&
            (p.payoff.optionType == Call ==> e.greeks.delta.value >= 0.0) &&
            (p.payoff.optionType == Put ==> e.greeks.delta.value <= 0.0)
  {
    ColumnSigns(ss, p.payoff.optionType);
    var disc := FlatDiscount(m, r, p.maturity);
    assert disc * Mean(Column(ss, PayoffField)) >= 0.0;
  }

  /**
   * For a non-negative spot and notional the price is never negative, and
   * the delta is non-negative for a call and non-positive for a put.
   * Neither the spot nor the notional is checked by this engine.
   */
  lemma PriceSigns(m: Math, ctx: PricingContext, opt: AsianOption)
    requires ExpPositive(m) && ctx.model.Some? && opt.notional >= 0.0
    requires ctx.model.value.BlackScholesModel? ==> ctx.model.value.s0 >= 0.0
    ensures var r := PriceAsian(m, ctx, opt);
            r.Ok? ==> r.value.npv >= 0.0 &&
                      (opt.payoff.value.optionType == Call ==> r.value.greeks.delta.value >= 0.0) &&
                      (opt.payoff.value.optionType == Put ==> r.value.greeks.delta.value <= 0.0)
  {
    if PriceAsian(m, ctx, opt).Ok? {
      EquityInterfacesNeedBlackScholes(ctx, BlackScholes, "BSEuroAsianMCEngine");
      var bs := ctx.model.value;
      var p := MakeAsianModel(m, bs, opt.payoff.value, opt.averageType, opt.exercise.value.dates[0]);
      var count := PathCount(ctx.settings.mcPaths);
      var zs := SimulatedDraws(m, p, ctx.settings);
      AsianModelSignPreserving(m, bs, opt.payoff.value, opt.averageType, opt.exercise.value.dates[0]);
      PathSamplesSigned(m, p, zs, count);
      EstimatesSigns(m, p, opt.notional, bs.r, PathSamples(m, p, zs, count));
    }
  }

  // ---- scores, counts and errors ----

  /**
   * At a volatility of at most `1e-10` both scores vanish: every path's
   * vega is 0 and its rho is `-T` times its payoff, so the reported vega is
   * 0 and the reported rho is `-T` times the npv.
   */
  lemma SmallVolatilityGreeks(m: Math, bs: Model, opt: AsianOption, settings: PricingSettings)
    requires bs.BlackScholesModel? && AsianValid(opt) && bs.sigma <= ScoreThreshold
    ensures ScoresOnlyRate(Simulated(m, bs, opt, settings), opt.exercise.value.dates[0])
  {
    var p := MakeAsianModel(m, bs, opt.payoff.value, opt.averageType, opt.exercise.value.dates[0]);
    SmallVolatilityEstimates(m, p, opt.notional, bs.r, settings);
  }

  /** The same for any path constants with a volatility of at most `1e-10`. */
  lemma SmallVolatilityEstimates(m: Math, p: AsianPathModel, notional: real, r: real, settings: PricingSettings)
    requires p.sigma <= ScoreThreshold
    ensures ScoresOnlyRate(AsianEstimates(m, p, notional, r, SimulatedStats(m, p, settings)), p.maturity)
  {
    var count := PathCount(settings.mcPaths);
    var zs := SimulatedDraws(m, p, settings);
    SamplesScoresVanish(m, p, zs, count);
    EstimatesScoresVanish(m, p, notional, r, StatsOf(PathSamples(m, p, zs, count)));
  }

  /** A result whose vega is 0 and whose rho is `-T` times its npv: the discounting is all the rate moves. */
  predicate ScoresOnlyRate(res: PricingResult, t: real)
  {
    res.greeks.vega == Some(0.0) && res.greeks.rho.Some? && res.greeks.rho.value == -t * res.npv
  }

  /** Accumulators whose means have vanishing scores report a vega of 0 and a rho of `-T` times the npv. */
  lemma EstimatesScoresVanish(m: Math, p: AsianPathModel, notional: real, r: real, st: Stats)
    requires ScoresVanish(MeanSample(st), p.maturity)
    ensures ScoresOnlyRate(AsianEstimates(m, p, notional, r, st), p.maturity)
  {
    var disc := FlatDiscount(m, r, p.maturity);
    assert notional * disc * st.rho.mean == -p.maturity * (notional * (disc * st.payoff.mean));
  }

  /** The means of the accumulators, as one sample. */
  function MeanSample(st: Stats): Sample
  {
    Sample(st.payoff.mean, st.delta.mean, st.vega.mean, st.rho.mean, st.gamma.mean, st.theta.mean)
  }

  /** At a volatility of at most `1e-10` the mean vega is 0 and the mean rho `-T` times the mean payoff. */
  lemma SamplesScoresVanish(m: Math, p: AsianPathModel, zs: seq<real>, count: nat)
    requires |zs| == count * MaxDates(p) && p.sigma <= ScoreThreshold
    ensures ScoresVanish(MeanSample(StatsOf(PathSamples(m, p, zs, count))), p.maturity)
  {
    forall ys {:trigger PathSampler(m, p)(ys)} ensures ScoresVanish(PathSampler(m, p)(ys), p.maturity) {
      PathScoresVanish(m, p, ys);
    }
    ConsumedIsProduct(|zs|, count, MaxDates(p));
    BlocksScoresVanish(PathSampler(m, p), zs, MaxDates(p), count, p.maturity);
    ColumnsScoresVanish(PathSamples(m, p, zs, count), p.maturity);
  }

  /** Every block of draws gives a sample whose scores vanish when every sample does. */
  lemma BlocksScoresVanish(sample: seq<real> -> Sample, zs: seq<real>, d: nat, count: nat, t: real)
    requires Consumed(|zs|, count, d)
    requires forall ys {:trigger sample(ys)} :: ScoresVanish(sample(ys), t)
    ensures forall i :: 0 <= i < count ==> ScoresVanish(Blocks(sample, zs, d, count)[i], t)
  {
    forall i | 0 <= i < count ensures ScoresVanish(Blocks(sample, zs, d, count)[i], t) {
      BlockSampled(sample, zs, d, count, i);
    }
  }

  /** Samples whose scores vanish average to a vega of 0 and a rho of `-T` times the mean payoff. */
  lemma ColumnsScoresVanish(ss: seq<Sample>, t: real)
    requires forall i :: 0 <= i < |ss| ==> ScoresVanish(ss[i], t)
    ensures ScoresVanish(MeanSample(StatsOf(ss)), t)
  {
    var pay, vega, rho := Column(ss, PayoffField), Column(ss, VegaField), Column(ss, RhoField);
    MeanScaled(vega, pay, 0.0);
    MeanScaled(rho, pay, -t);
  }

  /** A sample whose vega is 0 and whose rho is `-T` times its payoff. */
  predicate ScoresVanish(s: Sample, t: real)
  {
    s.vega == 0.0 * s.payoff && s.rho == -t * s.payoff
  }

  /** At a volatility of at most `1e-10` a path's vega is 0 and its rho is `-T` times its payoff. */
  lemma PathScoresVanish(m: Math, p: AsianPathModel, zs: seq<real>)
    requires p.sigma <= ScoreThreshold
    ensures ScoresVanish(PathSampler(m, p)(zs), p.maturity)
  {
    assert PathSampler(m, p)(zs) == PathSample(m, p, zs);
    SampleScoresVanish(m, p, LegAverage(m, p, p.base, zs), LegAverage(m, p, p.up, zs), LegAverage(m, p, p.down, zs));
  }

  lemma SampleScoresVanish(m: Math, p: AsianPathModel, average: real, averageLater: real, averageEarlier: real)
    requires p.sigma <= ScoreThreshold
    ensures ScoresVanish(SampleOf(m, p, average, averageLater, averageEarlier), p.maturity)
  {
  }

  /** The accumulators see exactly `mc_paths` samples (none for a non-positive count), whatever the antithetic flag. */
  lemma SampleCount(m: Math, p: AsianPathModel, settings: PricingSettings)
    ensures SimulatedStats(m, p, settings).n == PathCount(settings.mcPaths)
    ensures SimulatedStats(m, p, settings).n == SimulatedStats(m, p, settings.(mcAntithetic := !settings.mcAntithetic)).n
  {
  }

  /**
   * The antithetic flag changes nothing but the signs of the draws: with
   * it on, every odd-numbered draw is the negation of the draw made with it
   * off.
   */
  lemma AntitheticFlipsDraws(m: Math, seed: int, n: nat)
    ensures var on := Drawn(Generator(m, StreamIncrement(0), true), InitialGenerator(seed), n);
            var off := Drawn(Generator(m, StreamIncrement(0), false), InitialGenerator(seed), n);
            |on| == |off| == n &&
            forall i :: 0 <= i < n ==> on[i] == (if i % 2 == 1 then -off[i] else off[i])
  {
    GeneratedDraws(m, StreamIncrement(0), true, InitialSampler(seed), 0, n);
    GeneratedDraws(m, StreamIncrement(0), false, InitialSampler(seed), 0, n);
  }

  /** With at most one path every standard error is 0. */
  lemma FewPathsNoError(m: Math, bs: Model, opt: AsianOption, settings: PricingSettings)
    requires bs.BlackScholesModel? && AsianValid(opt) && settings.mcPaths <= 1
    ensures var g := Simulated(m, bs, opt, settings).greeks;
            Simulated(m, bs, opt, settings).mcStdError == 0.0 &&
            g.deltaStdError == Some(0.0) && g.gammaStdError == Some(0.0) && g.vegaStdError == Some(0.0) &&
            g.thetaStdError == Some(0.0) && g.rhoStdError == Some(0.0)
  {
  }

  /** The engine's error cases, in the order it checks them. */
  lemma PriceErrors(m: Math, ctx: PricingContext, inst: Instrument)
    ensures ctx.model.None? ==> Price(m, ctx, inst) == Err(InvalidInput("PricingContext.model is null"))
    ensures ctx.model.Some? && !inst.Asian? ==> IsUnsupported(Price(m, ctx, inst))
    ensures (ctx.model.Some? && inst.Asian? && inst.asian.payoff.Some? && inst.asian.exercise.Some? &&
             inst.asian.exercise.value.kind != European) ==> IsUnsupported(Price(m, ctx, inst))
  {
    if ctx.model.Some? {
      if inst.Asian? {
        RejectsNonEuropean(m, ctx, inst.asian);
      } else {
        RejectsOthers(m, ctx, inst);
      }
    }
  }

  /** Another instrument than the Asian option is unsupported. */
  lemma RejectsOthers(m: Math, ctx: PricingContext, inst: Instrument)
    requires ctx.model.Some? && !inst.Asian?
    ensures IsUnsupported(Price(m, ctx, inst))
  {
    if !inst.Vanilla? {
      assert Price(m, ctx, inst) == Unsupported(inst);
    }
  }

  /** Exercise other than European is unsupported. */
  lemma RejectsNonEuropean(m: Math, ctx: PricingContext, opt: AsianOption)
    requires ctx.model.Some?
    ensures opt.payoff.Some? && opt.exercise.Some? && opt.exercise.value.kind != European ==>
            IsUnsupported(Price(m, ctx, Asian(opt)))
  {
    var valid := ValidateAsian(opt);
    if valid.Fail? {
      assert PriceAsian(m, ctx, opt) == Err(valid.error);
    }
  }

  /** The Asian visit succeeds exactly for a valid option under the Black-Scholes model. */
  lemma PriceAsianSucceeds(m: Math, ctx: PricingContext, opt: AsianOption)
    requires ctx.model.Some?
    ensures PriceAsian(m, ctx, opt).Ok? <==> AsianValid(opt) && ctx.model.value.BlackScholesModel?
  {
    EquityInterfacesNeedBlackScholes(ctx, BlackScholes, "BSEuroAsianMCEngine");
  }

  /** The engine prices exactly the valid Asian options under the Black-Scholes model. */
  lemma PriceSucceeds(m: Math, ctx: PricingContext, inst: Instrument)
    ensures Price(m, ctx, inst).Ok? <==> ctx.model.Some? && inst.Asian? && AsianValid(inst.asian) &&
                                         ctx.model.value.BlackScholesModel?
  {
    if ctx.model.Some? {
      if inst.Asian? {
        PriceAsianSucceeds(m, ctx, inst.asian);
      } else {
        RejectsOthers(m, ctx, inst);
      }
    }
  }
}
