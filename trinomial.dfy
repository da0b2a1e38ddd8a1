// The Boyle trinomial engine for vanilla options: a tree of 2n+1 spot
// levels `S0 * u^j` swept backward in one vector, with early exercise for
// American options, and Greeks from rebuilt trees.
module Trinomial {
  import opened Core
  import opened Instruments
  import opened Pricing
  import opened Validation
  import opened EngineCommon

  /**
   * One trinomial tree: the spot, the up factor, the three branch
   * probabilities, the per-step discount factor, the number of steps, the
   * exercise style and the payoff. Node `j` of any level sits at
   * `S0 * u^j`, with `-i <= j <= i` on level `i`.
   */
  datatype TriTree = TriTree(
    s0: real, u: real, pu: real, pm: real, pd: real, df: real,
    steps: nat, american: bool, payoff: Payoff)

  /** The spot at node `j`: `S0 * u^j`, a negative `j` dividing. */
  function SpotAt(t: TriTree, j: int): real
    requires t.u > 0.0
  {
    t.s0 * IntPow(t.u, j)
  }

  /** The discounted expectation over the up, middle and down children. */
  function Continuation(t: TriTree, up: real, mid: real, down: real): real
  {
    t.df * (t.pu * up + t.pm * mid + t.pd * down)
  }

  /** A node's value from its continuation: early exercise when American. */
  function Rolled(t: TriTree, continuation: real, spot: real): real
  {
    if t.american then Max(continuation, t.payoff.Apply(spot)) else continuation
  }

  /** The branch probabilities and the discount factor are all non-negative. */
  predicate NonNegativeWeights(t: TriTree)
  {
    t.pu >= 0.0 && t.pm >= 0.0 && t.pd >= 0.0 && t.df >= 0.0
  }

  /**
   * Boyle's recurrence: the payoff at the leaves, and node `(i, j)` from
   * the three nodes `j + 1`, `j`, `j - 1` one level later.
   */
  function Node(t: TriTree, i: nat, j: int): real
    requires t.u > 0.0 && i <= t.steps && -j <= i && j <= i
    decreases t.steps - i
  {
    if i == t.steps then t.payoff.Apply(SpotAt(t, j))
    else Rolled(t, Continuation(t, Node(t, i + 1, j + 1), Node(t, i + 1, j), Node(t, i + 1, j - 1)),
                SpotAt(t, j))
  }

  /**
   * What the library's sweep computes. It overwrites slot `j` of level
   * `i` going up from `j = -i`, so the down child it reads for `j > -i`
   * is the value just written for `(i, j - 1)`, not the one of level
   * `i + 1`; only the lowest node reads an untouched slot.
   */
  function Swept(t: TriTree, i: nat, j: int): real
    requires t.u > 0.0 && i <= t.steps && -j <= i && j <= i
    decreases t.steps - i, j + i
  {
    if i == t.steps then t.payoff.Apply(SpotAt(t, j))
    else
      var down := if j + i == 0 then Swept(t, i + 1, j - 1) else Swept(t, i, j - 1);
      Rolled(t, Continuation(t, Swept(t, i + 1, j + 1), Swept(t, i + 1, j), down), SpotAt(t, j))
  }

  /**
   * The library's sweep as written: `2 * steps + 1` slots, slot `j + steps`
   * for node `j`, each level overwritten in place from the bottom up.
   */
  method InPlaceSweep(t: TriTree) returns (v: real)
    requires t.u > 0.0
    ensures v == Swept(t, 0, 0)
  {
    var n := t.steps;
    var values := new real[2 * n + 1];
    var j: int := -n;
    while j <= n
      invariant -n <= j <= n + 1
      invariant forall k :: 0 <= k < j + n ==> values[k] == Swept(t, n, k - n)
    {
      values[j + n] := t.payoff.Apply(SpotAt(t, j));
      j := j + 1;
    }
    var i: int := n - 1;
    while i >= 0
      invariant -1 <= i < n
      invariant forall k :: n - i - 1 <= k <= n + i + 1 ==> values[k] == Swept(t, i + 1, k - n)
    {
      SweepLevel(t, values, i);
      i := i - 1;
    }
    v := values[n];
  }

  /** One level of the library's sweep, from node `-i` up to node `i`, each slot overwritten as it goes. */
  method SweepLevel(t: TriTree, values: array<real>, i: int)
    requires t.u > 0.0 && 0 <= i < t.steps && values.Length == 2 * t.steps + 1
    requires forall k :: t.steps - i - 1 <= k <= t.steps + i + 1 ==> values[k] == Swept(t, i + 1, k - t.steps)
    modifies values
    ensures forall k :: t.steps - i <= k <= t.steps + i ==> values[k] == Swept(t, i, k - t.steps)
  {
    var n := t.steps;
    var j: int := -i;
    while j <= i
      invariant -i <= j <= i + 1
      invariant values[n - i - 1] == Swept(t, i + 1, -i - 1)
      invariant forall k :: n - i <= k < j + n ==> values[k] == Swept(t, i, k - n)
      invariant forall k :: j + n <= k <= n + i + 1 ==> values[k] == Swept(t, i + 1, k - n)
    {
      var idx := j + n;
      var continuation := Continuation(t, values[idx + 1], values[idx], values[idx - 1]);
      values[idx] := Rolled(t, continuation, SpotAt(t, j));
      j := j + 1;
    }
  }

  /**
   * The corrected sweep: the same vector overwritten in place, but the
   * old value of the slot below is kept aside before it is overwritten,
   * so every node reads its three children from the level below.
   */
  method Rollback(t: TriTree) returns (v: real)
    requires t.u > 0.0
    ensures v == Node(t, 0, 0)
  {
    var n := t.steps;
    var values := new real[2 * n + 1];
    var j: int := -n;
    while j <= n
      invariant -n <= j <= n + 1
      invariant forall k :: 0 <= k < j + n ==> values[k] == Node(t, n, k - n)
    {
      values[j + n] := t.payoff.Apply(SpotAt(t, j));
      j := j + 1;
    }
    var i: int := n - 1;
    while i >= 0
      invariant -1 <= i < n
      invariant forall k :: n - i - 1 <= k <= n + i + 1 ==> values[k] == Node(t, i + 1, k - n)
    {
      RollLevel(t, values, i);
      i := i - 1;
    }
    v := values[n];
  }

  /** One level of the corrected sweep: the old value of the slot below is kept in `below`. */
  method RollLevel(t: TriTree, values: array<real>, i: int)
    requires t.u > 0.0 && 0 <= i < t.steps && values.Length == 2 * t.steps + 1
    requires forall k :: t.steps - i - 1 <= k <= t.steps + i + 1 ==> values[k] == Node(t, i + 1, k - t.steps)
    modifies values
    ensures forall k :: t.steps - i <= k <= t.steps + i ==> values[k] == Node(t, i, k - t.steps)
  {
    var n := t.steps;
    var j: int := -i;
    var below := values[n - i - 1];
    while j <= i
      invariant -i <= j <= i + 1
      invariant below == Node(t, i + 1, j - 1)
      invariant forall k :: n - i <= k < j + n ==> values[k] == Node(t, i, k - n)
      invariant forall k :: j + n <= k <= n + i + 1 ==> values[k] == Node(t, i + 1, k - n)
    {
      var idx := j + n;
      var here := values[idx];
      var continuation := Continuation(t, values[idx + 1], here, below);
      values[idx] := Rolled(t, continuation, SpotAt(t, j));
      below := here;
      j := j + 1;
    }
  }

  // ---- properties of the recurrences ----

  lemma ContinuationNonNegative(t: TriTree, up: real, mid: real, down: real)
    requires NonNegativeWeights(t) && up >= 0.0 && mid >= 0.0 && down >= 0.0
    ensures Continuation(t, up, mid, down) >= 0.0
  {
    assert t.pu * up >= 0.0;
    assert t.pm * mid >= 0.0;
    assert t.pd * down >= 0.0;
  }

  /** With non-negative weights every node of Boyle's recurrence is non-negative. */
  lemma {:induction false} NodeNonNegative(t: TriTree, i: nat, j: int)
    requires t.u > 0.0 && i <= t.steps && -j <= i && j <= i
    requires NonNegativeWeights(t)
    ensures Node(t, i, j) >= 0.0
    decreases t.steps - i
  {
    PayoffNonNegative(t.payoff, SpotAt(t, j));
    if i < t.steps {
      NodeNonNegative(t, i + 1, j + 1);
      NodeNonNegative(t, i + 1, j);
      NodeNonNegative(t, i + 1, j - 1);
      ContinuationNonNegative(t, Node(t, i + 1, j + 1), Node(t, i + 1, j), Node(t, i + 1, j - 1));
    }
  }

  /** The sweep as written stays non-negative too: its error is in the weights, not the sign. */
  lemma {:induction false} SweptNonNegative(t: TriTree, i: nat, j: int)
    requires t.u > 0.0 && i <= t.steps && -j <= i && j <= i
    requires NonNegativeWeights(t)
    ensures Swept(t, i, j) >= 0.0
    decreases t.steps - i, j + i
  {
    PayoffNonNegative(t.payoff, SpotAt(t, j));
    if i < t.steps {
      SweptNonNegative(t, i + 1, j + 1);
      SweptNonNegative(t, i + 1, j);
      if j + i == 0 {
        SweptNonNegative(t, i + 1, j - 1);
      } else {
        SweptNonNegative(t, i, j - 1);
      }
      var down := if j + i == 0 then Swept(t, i + 1, j - 1) else Swept(t, i, j - 1);
      ContinuationNonNegative(t, Swept(t, i + 1, j + 1), Swept(t, i + 1, j), down);
    }
  }

  lemma ContinuationMonotone(t: TriTree, up: real, mid: real, down: real,
                             up2: real, mid2: real, down2: real)
    requires NonNegativeWeights(t) && up <= up2 && mid <= mid2 && down <= down2
    ensures Continuation(t, up, mid, down) <= Continuation(t, up2, mid2, down2)
  {
    assert t.pu * up <= t.pu * up2;
    assert t.pm * mid <= t.pm * mid2;
    assert t.pd * down <= t.pd * down2;
  }

  lemma SameContinuation(t: TriTree, t2: TriTree, up: real, mid: real, down: real)
    requires t2.pu == t.pu && t2.pm == t.pm && t2.pd == t.pd && t2.df == t.df
    ensures Continuation(t2, up, mid, down) == Continuation(t, up, mid, down)
  {
  }

  /**
   * Changing only the exercise style: the American tree dominates node by
   * node, both in Boyle's recurrence and in the library's in-place sweep.
   */
  lemma {:induction false} AmericanNodeDominates(t: TriTree, i: nat, j: int)
    requires t.u > 0.0 && i <= t.steps && -j <= i && j <= i
    requires NonNegativeWeights(t)
    ensures Node(t.(american := true), i, j) >= Node(t.(american := false), i, j)
    ensures Swept(t.(american := true), i, j) >= Swept(t.(american := false), i, j)
    decreases t.steps - i
  {
    SweptAmericanDominates(t, i, j);
    if i < t.steps {
      var am := t.(american := true);
      var eu := t.(american := false);
      AmericanNodeDominates(t, i + 1, j + 1);
      AmericanNodeDominates(t, i + 1, j);
      AmericanNodeDominates(t, i + 1, j - 1);
      var a1, a0, a2 := Node(am, i + 1, j + 1), Node(am, i + 1, j), Node(am, i + 1, j - 1);
      var e1, e0, e2 := Node(eu, i + 1, j + 1), Node(eu, i + 1, j), Node(eu, i + 1, j - 1);
      ContinuationMonotone(t, e1, e0, e2, a1, a0, a2);
      SameContinuation(t, am, a1, a0, a2);
      SameContinuation(t, eu, e1, e0, e2);
      assert Node(am, i, j) == Max(Continuation(am, a1, a0, a2), am.payoff.Apply(SpotAt(am, j)));
      assert Node(eu, i, j) == Continuation(eu, e1, e0, e2);
    }
  }

  /** The dominance in the library's sweep, where a node may read its lower neighbour on the same level. */
  lemma {:induction false} SweptAmericanDominates(t: TriTree, i: nat, j: int)
    requires t.u > 0.0 && i <= t.steps && -j <= i && j <= i
    requires NonNegativeWeights(t)
    ensures Swept(t.(american := true), i, j) >= Swept(t.(american := false), i, j)
    decreases t.steps - i, j + i
  {
    if i < t.steps {
      var am := t.(american := true);
      var eu := t.(american := false);
      SweptAmericanDominates(t, i + 1, j + 1);
      SweptAmericanDominates(t, i + 1, j);
      if j + i == 0 {
        SweptAmericanDominates(t, i + 1, j - 1);
      } else {
        SweptAmericanDominates(t, i, j - 1);
      }
      var a1, a0 := Swept(am, i + 1, j + 1), Swept(am, i + 1, j);
      var e1, e0 := Swept(eu, i + 1, j + 1), Swept(eu, i + 1, j);
      var a2 := if j + i == 0 then Swept(am, i + 1, j - 1) else Swept(am, i, j - 1);
      var e2 := if j + i == 0 then Swept(eu, i + 1, j - 1) else Swept(eu, i, j - 1);
      ContinuationMonotone(t, e1, e0, e2, a1, a0, a2);
      SameContinuation(t, am, a1, a0, a2);
      SameContinuation(t, eu, e1, e0, e2);
      assert Swept(am, i, j) == Max(Continuation(am, a1, a0, a2), am.payoff.Apply(SpotAt(am, j)));
      assert Swept(eu, i, j) == Continuation(eu, e1, e0, e2);
    }
  }

  /** An American node is at least its continuation and at least its exercise value. */
  lemma AmericanNodeBounds(t: TriTree, i: nat, j: int)
    requires t.u > 0.0 && -j <= i && j <= i < t.steps && t.american
    ensures Node(t, i, j) >= Continuation(t, Node(t, i + 1, j + 1), Node(t, i + 1, j), Node(t, i + 1, j - 1))
    ensures Node(t, i, j) >= t.payoff.Apply(SpotAt(t, j))
  {
  }

  /**
   * A two-step European call: spot 4, strike 4, `u = 2`, every
   * probability 1/3, no discounting. The leaves pay 0, 0, 0, 4, 12.
   */
  function ExampleTree(): TriTree
  {
    TriTree(4.0, 2.0, 1.0 / 3.0, 1.0 / 3.0, 1.0 / 3.0, 1.0, 2, false, PlainVanillaPayoff(Call, 4.0))
  }

  lemma ExampleLeaves()
    ensures var t := ExampleTree();
            Node(t, 2, -2) == 0.0 && Node(t, 2, -1) == 0.0 && Node(t, 2, 0) == 0.0 &&
            Node(t, 2, 1) == 4.0 && Node(t, 2, 2) == 12.0
  {
    assert IntPow(2.0, -2) == 0.25;
    assert IntPow(2.0, -1) == 0.5;
    assert IntPow(2.0, 1) == 2.0;
    assert IntPow(2.0, 2) == 4.0;
  }

  lemma ExampleSweptLeaves()
    ensures var t := ExampleTree();
            Swept(t, 2, -2) == 0.0 && Swept(t, 2, -1) == 0.0 && Swept(t, 2, 0) == 0.0 &&
            Swept(t, 2, 1) == 4.0 && Swept(t, 2, 2) == 12.0
  {
    var t := ExampleTree();
    ExampleLeaves();
    assert Swept(t, 2, -2) == Node(t, 2, -2) && Swept(t, 2, -1) == Node(t, 2, -1);
    assert Swept(t, 2, 0) == Node(t, 2, 0) && Swept(t, 2, 1) == Node(t, 2, 1);
    assert Swept(t, 2, 2) == Node(t, 2, 2);
  }

  /** Boyle's recurrence on the example tree: the root is worth 60/27. */
  lemma ExampleBoyleRoot()
    ensures Node(ExampleTree(), 0, 0) == 60.0 / 27.0
  {
    var t := ExampleTree();
    ExampleLeaves();
    assert Node(t, 1, -1) == 0.0;
    assert Node(t, 1, 0) == 4.0 / 3.0;
    assert Node(t, 1, 1) == 16.0 / 3.0;
  }

  /** The in-place sweep on the example tree: the root is worth 64/27. */
  lemma ExampleSweptRoot()
    ensures Swept(ExampleTree(), 0, 0) == 64.0 / 27.0
  {
    var t := ExampleTree();
    ExampleSweptLeaves();
    assert Swept(t, 1, -1) == 0.0;
    assert Swept(t, 1, 0) == 4.0 / 3.0;
    assert Swept(t, 1, 1) == 52.0 / 9.0;
  }

  /** The two sweeps part ways on the example tree: 60/27 against 64/27. */
  lemma InPlaceSweepDiffers()
    ensures Node(ExampleTree(), 0, 0) == 60.0 / 27.0 && Swept(ExampleTree(), 0, 0) == 64.0 / 27.0
    ensures Node(ExampleTree(), 0, 0) != Swept(ExampleTree(), 0, 0)
  {
    ExampleBoyleRoot();
    ExampleSweptRoot();
  }

  // ---- the engine ----

  /** The log-spot spacing `dx = sigma * sqrt(3 dt)`; the up factor is `e^dx`. */
  function Dx(m: Math, sigma: real, dt: real): real
  {
    sigma * Sqrt(m, 3.0 * dt)
  }

  /**
   * Boyle's tree for one set of inputs. `pu` and `pd` are chosen so that
   * one step of the tree matches the mean `nu dt` and the second moment
   * `sigma^2 dt + nu^2 dt^2` of the log-spot increment, and `pm` takes the
   * rest of the mass. When `dx = 0` the library's probabilities are not
   * numbers.
   */
  function BoyleTree(m: Math, s0: real, r: real, sigma: real, nu: real, dt: real,
                     steps: nat, american: bool, payoff: Payoff): (t: Option<TriTree>)
    requires ExpPositive(m)
    ensures t.Some? <==> Dx(m, sigma, dt) != 0.0
    ensures t.Some? ==> t.value.u == Exp(m, Dx(m, sigma, dt)) && t.value.u > 0.0
    ensures t.Some? ==> t.value.pu + t.value.pm + t.value.pd == 1.0
    ensures t.Some? ==> (t.value.pu - t.value.pd) * Dx(m, sigma, dt) == nu * dt
    ensures t.Some? ==> (t.value.pu + t.value.pd) * (Dx(m, sigma, dt) * Dx(m, sigma, dt)) ==
                        sigma * sigma * dt + nu * nu * dt * dt
    ensures t.Some? ==> t.value.df == Exp(m, -r * dt) && t.value.df > 0.0
    ensures t.Some? ==> t.value.s0 == s0 && t.value.steps == steps &&
                        t.value.american == american && t.value.payoff == payoff
  {
    var dx := Dx(m, sigma, dt);
    var variance := Ratio(sigma * sigma * dt + nu * nu * dt * dt, dx * dx);
    var mean := Ratio(nu * dt, dx);
    if variance.None? || mean.None? then None
    else
      var pu := 0.5 * (variance.value + mean.value);
      var pd := 0.5 * (variance.value - mean.value);
      Some(TriTree(s0, Exp(m, dx), pu, 1.0 - pu - pd, pd, Exp(m, -r * dt), steps, american, payoff))
  }

  /** The engine's probability guard: every branch probability in [0, 1]. */
  predicate ProbabilitiesValid(t: TriTree)
  {
    0.0 <= t.pu <= 1.0 && 0.0 <= t.pd <= 1.0 && 0.0 <= t.pm <= 1.0
  }

  /**
   * The vanilla visit up to the tree: the checks, the model interface,
   * Boyle's tree over `dt = T / steps` and the probability guard (a
   * probability that is not a number fails it too).
   */
  function Setup(m: Math, ctx: PricingContext, opt: VanillaOption): (res: Result<TriTree>)
    requires ExpPositive(m) && ctx.model.Some? && ctx.settings.treeSteps >= 1
    ensures res.Ok? ==> VanillaValid(opt, false) && ctx.model.value.BlackScholesModel?
    ensures res.Ok? ==> ProbabilitiesValid(res.value) && NonNegativeWeights(res.value) &&
                        res.value.u > 0.0 && res.value.df > 0.0
    ensures res.Ok? ==> res.value.steps == ctx.settings.treeSteps && res.value.s0 == ctx.model.value.s0
    ensures res.Ok? ==> res.value.payoff == opt.payoff.value &&
                        (res.value.american <==> opt.exercise.value.kind == American)
    ensures res.Err? ==> res.error.InvalidInput?
  {
    var valid := Validate(opt);
    if valid.Fail? then Err(valid.error)
    else
      var model := RequireModel(ctx, LocalVol, "TrinomialVanillaEngine");
      if model.Err? then Err(model.error)
      else
        var bs := model.value;
        var steps: nat := ctx.settings.treeSteps;
        var dt := opt.exercise.value.dates[0] / steps as real;
        var tree := BoyleTree(m, bs.s0, bs.r, bs.sigma, Drift(bs.r, bs.q, bs.sigma), dt, steps,
                              opt.exercise.value.kind == American, opt.payoff.value);
        if tree.None? || !ProbabilitiesValid(tree.value) then
          Err(InvalidInput("Risk-neutral probabilities out of bounds. Check model parameters or reduce time step."))
        else Ok(tree.value)
  }

  /**
   * The vega tree: rebuilt at `sigma + 0.01` with the unbumped drift and
   * discount, its probabilities unchecked.
   */
  function VegaTree(m: Math, bs: Model, t: TriTree, dt: real): (v: Option<TriTree>)
    requires ExpPositive(m) && bs.BlackScholesModel?
    ensures v.Some? ==> v.value.u > 0.0
  {
    BoyleTree(m, t.s0, bs.r, bs.sigma + VolBump, Drift(bs.r, bs.q, bs.sigma), dt, t.steps, t.american, t.payoff)
  }

  /** The theta tree: `steps - 1` steps over `T - dt`, its probabilities unchecked. */
  function ThetaTree(m: Math, bs: Model, t: TriTree, maturity: real, dt: real): (v: Option<TriTree>)
    requires ExpPositive(m) && bs.BlackScholesModel? && t.steps > 1
    ensures v.Some? ==> v.value.u > 0.0
  {
    BoyleTree(m, t.s0, bs.r, bs.sigma, Drift(bs.r, bs.q, bs.sigma),
              (maturity - dt) / ((t.steps - 1) as real), t.steps - 1, t.american, t.payoff)
  }

  function RootOf(t: Option<TriTree>): Option<real>
    requires t.None? || t.value.u > 0.0
  {
    if t.None? then None else Some(Swept(t.value, 0, 0))
  }

  /** The Greeks of the vanilla visit, from the rebuilt trees. */
  function Sensitivities(m: Math, bs: Model, opt: VanillaOption, t: TriTree): Greeks
    requires ExpPositive(m) && bs.BlackScholesModel? && t.steps >= 1 && t.u > 0.0
    requires opt.exercise.Some? && |opt.exercise.value.dates| == 1 && opt.exercise.value.dates[0] > 0.0
  {
    var maturity := opt.exercise.value.dates[0];
    var dt := maturity / t.steps as real;
    var dS := bs.s0 * SpotBump;
    var center := Swept(t, 0, 0);
    var thetaTree := if t.steps > 1 then ThetaTree(m, bs, t, maturity, dt) else None;
    TreeGreeks(bs.s0, opt.notional, center,
               Swept(t.(s0 := bs.s0 + dS), 0, 0), Swept(t.(s0 := bs.s0 - dS), 0, 0),
               VegaValue(opt.notional, center, RootOf(VegaTree(m, bs, t, dt))),
               ThetaValue(opt.notional, center, RootOf(thetaTree), dt))
  }

  /** The vanilla visit: npv is notional times the swept root; Greeks from rebuilt trees, each swept the same way. */
  function PriceVanilla(m: Math, ctx: PricingContext, opt: VanillaOption): (res: Result<PricingResult>)
    requires ExpPositive(m) && ctx.model.Some? && ctx.settings.treeSteps >= 1
  {
    var setup := Setup(m, ctx, opt);
    if setup.Err? then Err(setup.error)
    else Ok(PricingResult(Scaled(opt.notional, Swept(setup.value, 0, 0)),
                          Sensitivities(m, ctx.model.value, opt, setup.value), 0.0))
  }

  /**
   * The engine as a whole: the model check, the step check, then the
   * vanilla visit; every other instrument is unsupported.
   */
  function Price(m: Math, ctx: PricingContext, inst: Instrument): (res: Result<PricingResult>)
    requires ExpPositive(m)
  {
    if ctx.model.None? then Err(InvalidInput("PricingContext.model is null"))
    else if ctx.settings.treeSteps < 1 then Err(InvalidInput("Trinomial tree requires steps >= 1"))
    else match inst
      case Vanilla(opt) => PriceVanilla(m, ctx, opt)
      case Asian(_) => Err(UnsupportedInstrument("TrinomialVanillaEngine does not support Asian options."))
      case Future(_) => Err(UnsupportedInstrument("TrinomialVanillaEngine does not support equity futures."))
      case ZeroCoupon(_) => Err(UnsupportedInstrument("TrinomialVanillaEngine does not support bonds."))
      case FixedRate(_) => Err(UnsupportedInstrument("TrinomialVanillaEngine does not support bonds."))
  }

  /** The Greeks of the vanilla visit, each bumped tree swept in place. */
  method RunSensitivities(m: Math, bs: Model, opt: VanillaOption, t: TriTree, center: real) returns (g: Greeks)
    requires ExpPositive(m) && bs.BlackScholesModel? && t.steps >= 1 && t.u > 0.0
    requires center == Swept(t, 0, 0)
    requires opt.exercise.Some? && |opt.exercise.value.dates| == 1 && opt.exercise.value.dates[0] > 0.0
    ensures g == Sensitivities(m, bs, opt, t)
  {
    var maturity := opt.exercise.value.dates[0];
    var dt := maturity / t.steps as real;
    var dS := bs.s0 * SpotBump;
    var up := InPlaceSweep(t.(s0 := bs.s0 + dS));
    var down := InPlaceSweep(t.(s0 := bs.s0 - dS));
    var bumped: Option<real> := None;
    var vegaTree := VegaTree(m, bs, t, dt);
    if vegaTree.Some? {
      var v := InPlaceSweep(vegaTree.value);
      bumped := Some(v);
    }
    var shorter: Option<real> := None;
    if t.steps > 1 {
      var thetaTree := ThetaTree(m, bs, t, maturity, dt);
      if thetaTree.Some? {
        var v := InPlaceSweep(thetaTree.value);
        shorter := Some(v);
      }
    }
    g := TreeGreeks(bs.s0, opt.notional, center, up, down,
                    VegaValue(opt.notional, center, bumped),
                    ThetaValue(opt.notional, center, shorter, dt));
  }

  /** The engine run: the same checks, and every tree swept in place. */
  method Run(m: Math, ctx: PricingContext, inst: Instrument) returns (res: Result<PricingResult>)
    requires ExpPositive(m)
    ensures res == Price(m, ctx, inst)
  {
    if ctx.model.None? || ctx.settings.treeSteps < 1 || !inst.Vanilla? {
      return Price(m, ctx, inst);
    }
    var opt := inst.vanilla;
    var t :- Setup(m, ctx, opt);
    var center := InPlaceSweep(t);
    var g := RunSensitivities(m, ctx.model.value, opt, t, center);
    VanillaOfSetup(m, ctx, opt, t);
    res := Ok(PricingResult(Scaled(opt.notional, center), g, 0.0));
  }

  // ---- properties of the engine ----

  /** The errors of the engine and the cases that raise them. */
  lemma PriceErrors(m: Math, ctx: PricingContext, inst: Instrument)
    requires ExpPositive(m)
    ensures ctx.model.None? ==> IsInvalid(Price(m, ctx, inst))
    ensures ctx.model.Some? && ctx.settings.treeSteps < 1 ==> IsInvalid(Price(m, ctx, inst))
    ensures ctx.model.Some? && ctx.settings.treeSteps >= 1 && !inst.Vanilla? ==>
              IsUnsupported(Price(m, ctx, inst))
    ensures inst.Vanilla? && Price(m, ctx, inst).Err? ==> IsInvalid(Price(m, ctx, inst))
    ensures inst.Vanilla? && Price(m, ctx, inst).Ok? ==>
              VanillaValid(inst.vanilla, false) && ctx.model.value.BlackScholesModel?
  {
  }

  /** The vanilla visit once the tree is set up. */
  lemma VanillaOfSetup(m: Math, ctx: PricingContext, opt: VanillaOption, t: TriTree)
    requires ExpPositive(m) && ctx.model.Some? && ctx.settings.treeSteps >= 1
    requires Setup(m, ctx, opt) == Ok(t)
    ensures PriceVanilla(m, ctx, opt) ==
              Ok(PricingResult(Scaled(opt.notional, Swept(t, 0, 0)), Sensitivities(m, ctx.model.value, opt, t), 0.0))
  {
  }

  /** Which Greeks a priced option carries. */
  lemma PriceShape(m: Math, ctx: PricingContext, opt: VanillaOption)
    requires ExpPositive(m)
    requires Price(m, ctx, Vanilla(opt)).Ok?
    ensures var g := Price(m, ctx, Vanilla(opt)).value.greeks;
            g.rho.None? && Price(m, ctx, Vanilla(opt)).value.mcStdError == 0.0 &&
            (g.delta.Some? <==> ctx.model.value.s0 != 0.0) &&
            (g.gamma.Some? <==> ctx.model.value.s0 != 0.0) &&
            (g.theta.Some? <==> ctx.settings.treeSteps > 1) &&
            g.deltaStdError.None? && g.vegaStdError.None?
  {
    assert Price(m, ctx, Vanilla(opt)) == PriceVanilla(m, ctx, opt);
    var t := Setup(m, ctx, opt).value;
    VanillaOfSetup(m, ctx, opt, t);
    var bs := ctx.model.value;
    var maturity := opt.exercise.value.dates[0];
    var dt := maturity / t.steps as real;
    if t.steps > 1 {
      ThetaStepIsStep(maturity, t.steps);
      assert ThetaTree(m, bs, t, maturity, dt).Some?;
    }
  }

  /** The present value is the notional times the root of the library's sweep. */
  lemma PriceNpv(m: Math, ctx: PricingContext, opt: VanillaOption)
    requires ExpPositive(m)
    requires Price(m, ctx, Vanilla(opt)).Ok?
    ensures Setup(m, ctx, opt).Ok?
    ensures Price(m, ctx, Vanilla(opt)).value.npv == Scaled(opt.notional, Swept(Setup(m, ctx, opt).value, 0, 0))
  {
    assert Price(m, ctx, Vanilla(opt)) == PriceVanilla(m, ctx, opt);
    var t := Setup(m, ctx, opt).value;
    VanillaOfSetup(m, ctx, opt, t);
  }

  /** Past the probability guard the price of a vanilla option is never negative. */
  lemma PriceNonNegative(m: Math, ctx: PricingContext, opt: VanillaOption)
    requires ExpPositive(m)
    requires Price(m, ctx, Vanilla(opt)).Ok?
    ensures Price(m, ctx, Vanilla(opt)).value.npv >= 0.0
  {
    PriceNpv(m, ctx, opt);
    SweptNonNegative(Setup(m, ctx, opt).value, 0, 0);
  }

  /** Exercise style only switches the tree's early-exercise flag. */
  lemma SetupAmerican(m: Math, ctx: PricingContext, opt: VanillaOption)
    requires ExpPositive(m)
    requires opt.exercise.Some? && opt.exercise.value.kind == European
    requires ctx.model.Some? && ctx.settings.treeSteps >= 1 && Setup(m, ctx, opt).Ok?
    ensures var amOpt := opt.(exercise := Some(opt.exercise.value.(kind := American)));
            Setup(m, ctx, amOpt) == Ok(Setup(m, ctx, opt).value.(american := true))
  {
  }

  /** The same option priced American is worth at least the European price. */
  lemma AmericanAtLeastEuropean(m: Math, ctx: PricingContext, opt: VanillaOption)
    requires ExpPositive(m)
    requires opt.exercise.Some? && opt.exercise.value.kind == European
    requires Price(m, ctx, Vanilla(opt)).Ok?
    ensures var amOpt := opt.(exercise := Some(opt.exercise.value.(kind := American)));
            Price(m, ctx, Vanilla(amOpt)).Ok? &&
            Price(m, ctx, Vanilla(amOpt)).value.npv >= Price(m, ctx, Vanilla(opt)).value.npv
  {
    var amOpt := opt.(exercise := Some(opt.exercise.value.(kind := American)));
    PriceNpv(m, ctx, opt);
    var t := Setup(m, ctx, opt).value;
    SetupAmerican(m, ctx, opt);
    VanillaOfSetup(m, ctx, amOpt, t.(american := true));
    assert Price(m, ctx, Vanilla(amOpt)) == PriceVanilla(m, ctx, amOpt);
    SweptAmericanDominates(t, 0, 0);
    assert t.(american := false) == t;
    NotionalScales(opt.notional, Swept(t.(american := true), 0, 0), Swept(t, 0, 0));
  }
}
