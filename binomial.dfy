// The Cox-Ross-Rubinstein binomial engine for vanilla options: backward
// induction over one vector overwritten level by level, with early
// exercise for American options, and Greeks from rebuilt trees.
module Binomial {
  import opened Core
  import opened Instruments
  import opened Pricing
  import opened Validation
  import opened EngineCommon

  /**
   * One recombining tree: the spot, the up and down factors, the
   * risk-neutral probability, the per-step discount factor, the number
   * of steps, the exercise style and the payoff.
   */
  datatype Tree = Tree(
    s0: real, u: real, d: real, p: real, df: real,
    steps: nat, american: bool, payoff: Payoff)

  /** The spot at node `j` of level `i`: `S0 * u^j * d^(i-j)`. */
  function SpotAt(t: Tree, i: nat, j: nat): real
    requires j <= i
  {
    t.s0 * NatPow(t.u, j) * NatPow(t.d, i - j)
  }

  /** The discounted risk-neutral expectation of the two children. */
  function Continuation(t: Tree, up: real, down: real): real
  {
    t.df * (t.p * up + (1.0 - t.p) * down)
  }

  /** A node's value from its continuation: early exercise when American. */
  function Rolled(t: Tree, continuation: real, spot: real): real
  {
    if t.american then Max(continuation, t.payoff.Apply(spot)) else continuation
  }

  /**
   * The two-level recurrence: the payoff at the leaves, and every inner
   * node computed from its two children one level later.
   */
  function Node(t: Tree, i: nat, j: nat): real
    requires j <= i <= t.steps
    decreases t.steps - i
  {
    if i == t.steps then t.payoff.Apply(SpotAt(t, i, j))
    else Rolled(t, Continuation(t, Node(t, i + 1, j + 1), Node(t, i + 1, j)), SpotAt(t, i, j))
  }

  /**
   * The engine's tree computation: the leaves are written into a vector
   * of `steps + 1` slots, then each level overwrites slot `j` after
   * reading slots `j` and `j + 1` only. The value left in slot 0 is the
   * root of the two-level recurrence.
   */
  method Rollback(t: Tree) returns (v: real)
    ensures v == Node(t, 0, 0)
  {
    var values := new real[t.steps + 1];
    var j := 0;
    while j <= t.steps
      invariant 0 <= j <= t.steps + 1
      invariant forall k :: 0 <= k < j ==> values[k] == Node(t, t.steps, k)
    {
      values[j] := t.payoff.Apply(SpotAt(t, t.steps, j));
      j := j + 1;
    }
    var i: int := t.steps - 1;
    while i >= 0
      invariant -1 <= i < t.steps
      invariant forall k :: 0 <= k <= i + 1 ==> values[k] == Node(t, i + 1, k)
    {
      j := 0;
      while j <= i
        invariant 0 <= j <= i + 1
        invariant forall k :: 0 <= k < j ==> values[k] == Node(t, i, k)
        invariant forall k :: j <= k <= i + 1 ==> values[k] == Node(t, i + 1, k)
      {
        var s := SpotAt(t, i, j);
        var continuation := Continuation(t, values[j + 1], values[j]);
        values[j] := Rolled(t, continuation, s);
        j := j + 1;
      }
      i := i - 1;
    }
    v := values[0];
  }

  // ---- properties of the recurrence ----

  lemma ContinuationNonNegative(t: Tree, up: real, down: real)
    requires 0.0 <= t.p <= 1.0 && t.df >= 0.0 && up >= 0.0 && down >= 0.0
    ensures Continuation(t, up, down) >= 0.0
  {
    assert t.p * up >= 0.0;
    assert (1.0 - t.p) * down >= 0.0;
  }

  /** With a probability in [0,1] and a non-negative discount, every node is non-negative. */
  lemma {:induction false} NodeNonNegative(t: Tree, i: nat, j: nat)
    requires j <= i <= t.steps
    requires 0.0 <= t.p <= 1.0 && t.df >= 0.0
    ensures Node(t, i, j) >= 0.0
    decreases t.steps - i
  {
    PayoffNonNegative(t.payoff, SpotAt(t, i, j));
    if i < t.steps {
      NodeNonNegative(t, i + 1, j + 1);
      NodeNonNegative(t, i + 1, j);
      ContinuationNonNegative(t, Node(t, i + 1, j + 1), Node(t, i + 1, j));
    }
  }

  lemma ContinuationMonotone(t: Tree, up: real, down: real, up2: real, down2: real)
    requires 0.0 <= t.p <= 1.0 && t.df >= 0.0 && up <= up2 && down <= down2
    ensures Continuation(t, up, down) <= Continuation(t, up2, down2)
  {
    MixMonotone(t.p, 1.0 - t.p, up, down, up2, down2);
    ScaleMonotone(t.df, t.p * up + (1.0 - t.p) * down, t.p * up2 + (1.0 - t.p) * down2);
  }

  /** Changing only the exercise style: the American tree dominates node by node. */
  lemma {:induction false} AmericanNodeDominates(t: Tree, i: nat, j: nat)
    requires j <= i <= t.steps
    requires 0.0 <= t.p <= 1.0 && t.df >= 0.0
    ensures Node(t.(american := true), i, j) >= Node(t.(american := false), i, j)
    decreases t.steps - i
  {
    if i < t.steps {
      var am := t.(american := true);
      var eu := t.(american := false);
      AmericanNodeDominates(t, i + 1, j + 1);
      AmericanNodeDominates(t, i + 1, j);
      var a1, a0 := Node(am, i + 1, j + 1), Node(am, i + 1, j);
      var e1, e0 := Node(eu, i + 1, j + 1), Node(eu, i + 1, j);
      ContinuationMonotone(t, e1, e0, a1, a0);
      SameContinuation(t, am, a1, a0);
      SameContinuation(t, eu, e1, e0);
      assert Node(am, i, j) == Max(Continuation(am, a1, a0), am.payoff.Apply(SpotAt(am, i, j)));
      assert Node(eu, i, j) == Continuation(eu, e1, e0);
    }
  }

  lemma SameContinuation(t: Tree, t2: Tree, up: real, down: real)
    requires t2.p == t.p && t2.df == t.df
    ensures Continuation(t2, up, down) == Continuation(t, up, down)
  {
  }

  /** An American node is at least its continuation and at least its exercise value. */
  lemma AmericanNodeBounds(t: Tree, i: nat, j: nat)
    requires j <= i < t.steps && t.american
    ensures Node(t, i, j) >= Continuation(t, Node(t, i + 1, j + 1), Node(t, i + 1, j))
    ensures Node(t, i, j) >= t.payoff.Apply(SpotAt(t, i, j))
  {
  }

  // ---- the engine ----

  /** The CRR factors of one time step. */
  function UpFactor(m: Math, sigma: real, dt: real): real
  {
    Exp(m, sigma * Sqrt(m, dt))
  }

  function Growth(m: Math, r: real, q: real, dt: real): real
  {
    Exp(m, (r - q) * dt)
  }

  function StepDiscount(m: Math, r: real, dt: real): real
  {
    Exp(m, -r * dt)
  }

  /**
   * The CRR tree for one set of inputs: `d = 1/u` and `p = (a-d)/(u-d)`.
   * When `u = d` the library's probability is not a number.
   */
  function CrrTree(m: Math, s0: real, r: real, q: real, sigma: real, dt: real,
                   steps: nat, american: bool, payoff: Payoff): (t: Option<Tree>)
    requires ExpPositive(m)
    ensures t.Some? ==> t.value.u > 0.0 && t.value.d * t.value.u == 1.0 && t.value.u != t.value.d
    ensures t.Some? ==> t.value.p * (t.value.u - t.value.d) == Growth(m, r, q, dt) - t.value.d
    ensures t.Some? ==> t.value.df == StepDiscount(m, r, dt) && t.value.df > 0.0
    ensures t.Some? ==> t.value.steps == steps && t.value.american == american
    ensures t.Some? ==> t.value.s0 == s0 && t.value.payoff == payoff
  {
    var u := UpFactor(m, sigma, dt);
    var d := 1.0 / u;
    if u == d then None
    else Some(Tree(s0, u, d, (Growth(m, r, q, dt) - d) / (u - d), StepDiscount(m, r, dt),
                   steps, american, payoff))
  }

  /**
   * The vanilla visit up to the tree: the checks, the model interface,
   * the CRR factors over `dt = T / steps` and the probability guard (a
   * probability that is not a number fails it too).
   */
  function Setup(m: Math, ctx: PricingContext, opt: VanillaOption): (res: Result<Tree>)
    requires ExpPositive(m) && ctx.model.Some? && ctx.settings.treeSteps >= 1
    ensures res.Ok? ==> VanillaValid(opt, false) && ctx.model.value.BlackScholesModel?
    ensures res.Ok? ==> 0.0 <= res.value.p <= 1.0 && res.value.df > 0.0
    ensures res.Ok? ==> res.value.steps == ctx.settings.treeSteps && res.value.s0 == ctx.model.value.s0
    ensures res.Ok? ==> res.value.payoff == opt.payoff.value &&
                        (res.value.american <==> opt.exercise.value.kind == American)
    ensures res.Err? ==> res.error.InvalidInput?
  {
    var valid := Validate(opt);
    if valid.Fail? then Err(valid.error)
    else
      var model := RequireModel(ctx, LocalVol, "BinomialVanillaEngine");
      if model.Err? then Err(model.error)
      else
        var bs := model.value;
        var steps: nat := ctx.settings.treeSteps;
        var dt := opt.exercise.value.dates[0] / steps as real;
        var tree := CrrTree(m, bs.s0, bs.r, bs.q, bs.sigma, dt, steps,
                            opt.exercise.value.kind == American, opt.payoff.value);
        if tree.None? || !(0.0 <= tree.value.p <= 1.0) then
          Err(InvalidInput("Risk-neutral probability out of bounds [0,1]. Check model parameters."))
        else Ok(tree.value)
  }

  /** The vega tree: rebuilt at `sigma + 0.01`, its probability unchecked. */
  function VegaTree(m: Math, bs: Model, t: Tree, dt: real): Option<Tree>
    requires ExpPositive(m) && bs.BlackScholesModel?
  {
    CrrTree(m, t.s0, bs.r, bs.q, bs.sigma + VolBump, dt, t.steps, t.american, t.payoff)
  }

  /** The theta tree: `steps - 1` steps over `T - dt`. */
  function ThetaTree(m: Math, bs: Model, t: Tree, maturity: real, dt: real): Option<Tree>
    requires ExpPositive(m) && bs.BlackScholesModel? && t.steps > 1
  {
    CrrTree(m, t.s0, bs.r, bs.q, bs.sigma, (maturity - dt) / ((t.steps - 1) as real),
            t.steps - 1, t.american, t.payoff)
  }

  function RootOf(t: Option<Tree>): Option<real>
  {
    if t.None? then None else Some(Node(t.value, 0, 0))
  }

  /** The Greeks of the vanilla visit, from the rebuilt trees. */
  function Sensitivities(m: Math, bs: Model, opt: VanillaOption, t: Tree): Greeks
    requires ExpPositive(m) && bs.BlackScholesModel? && t.steps >= 1
    requires opt.exercise.Some? && |opt.exercise.value.dates| == 1 && opt.exercise.value.dates[0] > 0.0
  {
    var maturity := opt.exercise.value.dates[0];
    var dt := maturity / t.steps as real;
    var dS := bs.s0 * SpotBump;
    var center := Node(t, 0, 0);
    var thetaTree := if t.steps > 1 then ThetaTree(m, bs, t, maturity, dt) else None;
    TreeGreeks(bs.s0, opt.notional, center,
               Node(t.(s0 := bs.s0 + dS), 0, 0), Node(t.(s0 := bs.s0 - dS), 0, 0),
               VegaValue(opt.notional, center, RootOf(VegaTree(m, bs, t, dt))),
               ThetaValue(opt.notional, center, RootOf(thetaTree), dt))
  }

  /** The vanilla visit: npv is notional times the root; Greeks from rebuilt trees. */
  function PriceVanilla(m: Math, ctx: PricingContext, opt: VanillaOption): (res: Result<PricingResult>)
    requires ExpPositive(m) && ctx.model.Some? && ctx.settings.treeSteps >= 1
  {
    var setup := Setup(m, ctx, opt);
    if setup.Err? then Err(setup.error)
    else Ok(PricingResult(Scaled(opt.notional, Node(setup.value, 0, 0)),
                          Sensitivities(m, ctx.model.value, opt, setup.value), 0.0))
  }

  /**
   * The engine as a whole: the model check, the step check, then the
   * vanilla visit; every other instrument is unsupported.
   */
  function Price(m: Math, ctx: PricingContext, inst: Instrument): (res: Result<PricingResult>)
    requires ExpPositive(m)
  {
    if ctx.model.None? then Err(InvalidInput("PricingContext.model is null"))
    else if ctx.settings.treeSteps < 1 then Err(InvalidInput("Binomial tree requires steps >= 1"))
    else match inst
      case Vanilla(opt) => PriceVanilla(m, ctx, opt)
      case Asian(_) => Err(UnsupportedInstrument("BinomialVanillaEngine does not support Asian options."))
      case Future(_) => Err(UnsupportedInstrument("BinomialVanillaEngine does not support equity futures."))
      case ZeroCoupon(_) => Err(UnsupportedInstrument("BinomialVanillaEngine does not support bonds."))
      case FixedRate(_) => Err(UnsupportedInstrument("BinomialVanillaEngine does not support bonds."))
  }

  /** The Greeks of the vanilla visit, each bumped tree rolled back in place. */
  method RunSensitivities(m: Math, bs: Model, opt: VanillaOption, t: Tree, center: real) returns (g: Greeks)
    requires ExpPositive(m) && bs.BlackScholesModel? && t.steps >= 1 && center == Node(t, 0, 0)
    requires opt.exercise.Some? && |opt.exercise.value.dates| == 1 && opt.exercise.value.dates[0] > 0.0
    ensures g == Sensitivities(m, bs, opt, t)
  {
    var maturity := opt.exercise.value.dates[0];
    var dt := maturity / t.steps as real;
    var dS := bs.s0 * SpotBump;
    var up := Rollback(t.(s0 := bs.s0 + dS));
    var down := Rollback(t.(s0 := bs.s0 - dS));
    var bumped: Option<real> := None;
    var vegaTree := VegaTree(m, bs, t, dt);
    if vegaTree.Some? {
      var v := Rollback(vegaTree.value);
      bumped := Some(v);
    }
    var shorter: Option<real> := None;
    if t.steps > 1 {
      var thetaTree := ThetaTree(m, bs, t, maturity, dt);
      if thetaTree.Some? {
        var v := Rollback(thetaTree.value);
        shorter := Some(v);
      }
    }
    g := TreeGreeks(bs.s0, opt.notional, center, up, down,
                    VegaValue(opt.notional, center, bumped),
                    ThetaValue(opt.notional, center, shorter, dt));
  }

  /** The engine run: the same checks, and every tree rolled back in place. */
  method Run(m: Math, ctx: PricingContext, inst: Instrument) returns (res: Result<PricingResult>)
    requires ExpPositive(m)
    ensures res == Price(m, ctx, inst)
  {
    if ctx.model.None? || ctx.settings.treeSteps < 1 || !inst.Vanilla? {
      return Price(m, ctx, inst);
    }
    var opt := inst.vanilla;
    var t :- Setup(m, ctx, opt);
    var center := Rollback(t);
    var g := RunSensitivities(m, ctx.model.value, opt, t, center);
    VanillaOfSetup(m, ctx, opt, t);
    res := Ok(PricingResult(Scaled(opt.notional, center), g, 0.0));
  }

  // ---- properties of the engine ----

  /** The errors of the engine and the cases that raise them. */
  lemma PriceErrors(m: Math, ctx: PricingContext, inst: Instrument)
    requires ExpPositive(m)
    ensures ctx.model.None? ==> IsInvalid(Price(m, ctx, inst))
    ensures ctx.model.Some? && ctx.settings.treeSteps < 1 ==> IsInvalid(Price(m, ctx, inst))
    ensures ctx.model.Some? && ctx.settings.treeSteps >= 1 && !inst.Vanilla? ==>
              IsUnsupported(Price(m, ctx, inst))
    ensures inst.Vanilla? && Price(m, ctx, inst).Err? ==> IsInvalid(Price(m, ctx, inst))
    ensures inst.Vanilla? && Price(m, ctx, inst).Ok? ==>
              VanillaValid(inst.vanilla, false) && ctx.model.value.BlackScholesModel?
  {
  }

  /** Which Greeks a priced option carries. */
  lemma PriceShape(m: Math, ctx: PricingContext, opt: VanillaOption)
    requires ExpPositive(m)
    requires Price(m, ctx, Vanilla(opt)).Ok?
    ensures var g := Price(m, ctx, Vanilla(opt)).value.greeks;
            g.rho.None? && Price(m, ctx, Vanilla(opt)).value.mcStdError == 0.0 &&
            (g.delta.Some? <==> ctx.model.value.s0 != 0.0) &&
            (g.gamma.Some? <==> ctx.model.value.s0 != 0.0) &&
            (g.theta.Some? <==> ctx.settings.treeSteps > 1) &&
            g.deltaStdError.None? && g.vegaStdError.None?
  {
    assert Price(m, ctx, Vanilla(opt)) == PriceVanilla(m, ctx, opt);
    var t := Setup(m, ctx, opt).value;
    var bs := ctx.model.value;
    var maturity := opt.exercise.value.dates[0];
    var dt := maturity / t.steps as real;
    assert Price(m, ctx, Vanilla(opt)).value.greeks == Sensitivities(m, bs, opt, t);
    if t.steps > 1 {
      ThetaStepIsStep(maturity, t.steps);
      assert ThetaTree(m, bs, t, maturity, dt).Some?;
    }
  }

  /** The present value is the notional times the root of the tree. */
  lemma PriceNpv(m: Math, ctx: PricingContext, opt: VanillaOption)
    requires ExpPositive(m)
    requires Price(m, ctx, Vanilla(opt)).Ok?
    ensures Setup(m, ctx, opt).Ok?
    ensures Price(m, ctx, Vanilla(opt)).value.npv == Scaled(opt.notional, Node(Setup(m, ctx, opt).value, 0, 0))
  {
    assert Price(m, ctx, Vanilla(opt)) == PriceVanilla(m, ctx, opt);
    var t := Setup(m, ctx, opt).value;
    VanillaOfSetup(m, ctx, opt, t);
  }

  /** The vanilla visit once the tree is set up. */
  lemma VanillaOfSetup(m: Math, ctx: PricingContext, opt: VanillaOption, t: Tree)
    requires ExpPositive(m) && ctx.model.Some? && ctx.settings.treeSteps >= 1
    requires Setup(m, ctx, opt) == Ok(t)
    ensures PriceVanilla(m, ctx, opt) ==
              Ok(PricingResult(Scaled(opt.notional, Node(t, 0, 0)), Sensitivities(m, ctx.model.value, opt, t), 0.0))
  {
  }

  /** With a valid probability the price of a vanilla option is never negative. */
  lemma PriceNonNegative(m: Math, ctx: PricingContext, opt: VanillaOption)
    requires ExpPositive(m)
    requires Price(m, ctx, Vanilla(opt)).Ok?
    ensures Price(m, ctx, Vanilla(opt)).value.npv >= 0.0
  {
    PriceNpv(m, ctx, opt);
    NodeNonNegative(Setup(m, ctx, opt).value, 0, 0);
  }

  /** Exercise style only switches the tree's early-exercise flag. */
  lemma SetupAmerican(m: Math, ctx: PricingContext, opt: VanillaOption)
    requires ExpPositive(m)
    requires opt.exercise.Some? && opt.exercise.value.kind == European
    requires ctx.model.Some? && ctx.settings.treeSteps >= 1 && Setup(m, ctx, opt).Ok?
    ensures var amOpt := opt.(exercise := Some(opt.exercise.value.(kind := American)));
            Setup(m, ctx, amOpt) == Ok(Setup(m, ctx, opt).value.(american := true))
  {
  }

  /** The same option priced American is worth at least the European price. */
  lemma AmericanAtLeastEuropean(m: Math, ctx: PricingContext, opt: VanillaOption)
    requires ExpPositive(m)
    requires opt.exercise.Some? && opt.exercise.value.kind == European
    requires Price(m, ctx, Vanilla(opt)).Ok?
    ensures var amOpt := opt.(exercise := Some(opt.exercise.value.(kind := American)));
            Price(m, ctx, Vanilla(amOpt)).Ok? &&
            Price(m, ctx, Vanilla(amOpt)).value.npv >= Price(m, ctx, Vanilla(opt)).value.npv
  {
    var amOpt := opt.(exercise := Some(opt.exercise.value.(kind := American)));
    PriceNpv(m, ctx, opt);
    var t := Setup(m, ctx, opt).value;
    SetupAmerican(m, ctx, opt);
    VanillaOfSetup(m, ctx, amOpt, t.(american := true));
    assert Price(m, ctx, Vanilla(amOpt)) == PriceVanilla(m, ctx, amOpt);
    AmericanNodeDominates(t, 0, 0);
    assert t.(american := false) == t;
    NotionalScales(opt.notional, Node(t.(american := true), 0, 0), Node(t, 0, 0));
  }
}
