// What the tree and PDE engines share: the tree engines' input checks, the bump sizes
// of the finite-difference Greeks and the formulas that turn re-priced
// values into Greeks.
module EngineCommon {
  import opened Core
  import opened Instruments
  import opened Validation

  const TreeRules: VanillaRules := VanillaRules(None, "VanillaExercise must contain exactly one date (maturity)")

  /** The tree engines' checks: both accept American exercise. */
  function Validate(opt: VanillaOption): (o: Outcome)
    ensures o.Pass? <==> VanillaValid(opt, false)
    ensures o.Fail? ==> o.error.InvalidInput?
  {
    ValidateVanilla(opt, TreeRules)
  }

  const SpotBump: real := 0.01
  const VolBump: real := 0.01

  /**
   * The Greeks from the tree values: delta and gamma are central
   * differences over `dS = 1% of S0`; rho is never set.
   */
  function TreeGreeks(s0: real, notional: real, center: real, up: real, down: real,
                      vega: Option<real>, theta: Option<real>): Greeks
  {
    var dS := s0 * SpotBump;
    Greeks(
      Ratio(notional * (up - down), 2.0 * dS),
      Ratio(notional * (up - 2.0 * center + down), dS * dS),
      vega, theta, None, None, None, None, None, None)
  }

  function VegaValue(notional: real, center: real, bumped: Option<real>): Option<real>
  {
    if bumped.None? then None else Some(notional * (bumped.value - center) / VolBump)
  }

  function ThetaValue(notional: real, center: real, shorter: Option<real>, dt: real): Option<real>
    requires dt != 0.0
  {
    if shorter.None? then None else Some(-notional * (center - shorter.value) / dt)
  }

  /** A tree value scaled by the option's notional. */
  function Scaled(notional: real, value: real): real
  {
    notional * value
  }

  /**
   * The theta tree's step is the main tree's: `(T - T/n) / (n - 1) = T/n`,
   * so the theta tree is built with the same factors.
   */
  lemma ThetaStepIsStep(maturity: real, n: nat)
    requires n > 1
    ensures (maturity - maturity / n as real) / ((n - 1) as real) == maturity / n as real
  {
    var dt := maturity / n as real;
    assert dt * n as real == maturity;
    assert maturity - dt == dt * ((n - 1) as real);
  }

  /** A larger tree value is worth more once scaled by a positive notional. */
  lemma NotionalScales(n: real, a: real, b: real)
    requires n > 0.0 && a >= b
    ensures Scaled(n, a) >= Scaled(n, b)
  {
  }
}
