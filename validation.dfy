// The input checks the option engines run before pricing. Every vanilla
// engine checks the same fields in the same order; the engines restricted
// to European exercise add one check after the null checks, and the Asian
// engines stop after the date count.
module Validation {
  import opened Core
  import opened Instruments

  /**
   * What distinguishes one engine's vanilla checks from another's: the
   * message of the European-only check (absent for the tree engines, which
   * accept American exercise) and the message of the date-count check.
   */
  datatype VanillaRules = VanillaRules(europeanOnly: Option<string>, dateMessage: string)

  /** A vanilla option every check accepts. */
  ghost predicate VanillaValid(opt: VanillaOption, europeanOnly: bool)
  {
    opt.payoff.Some? && opt.exercise.Some? &&
    (europeanOnly ==> opt.exercise.value.kind == European) &&
    |opt.exercise.value.dates| == 1 &&
    opt.exercise.value.dates[0] > 0.0 &&
    opt.notional > 0.0 &&
    opt.payoff.value.strike > 0.0
  }

  /**
   * The checks in the library's order: null payoff, null exercise,
   * European only (where the engine demands it), one date, maturity,
   * notional, strike. Only the exercise-type check is an unsupported
   * instrument; every other failure is an invalid input.
   */
  function ValidateVanilla(opt: VanillaOption, rules: VanillaRules): (o: Outcome)
    ensures o.Pass? <==> VanillaValid(opt, rules.europeanOnly.Some?)
    ensures o.Fail? && o.error.UnsupportedInstrument? <==>
              rules.europeanOnly.Some? && opt.payoff.Some? && opt.exercise.Some? &&
              opt.exercise.value.kind != European
  {
    if opt.payoff.None? then Fail(InvalidInput("VanillaOption.payoff is null"))
    else if opt.exercise.None? then Fail(InvalidInput("VanillaOption.exercise is null"))
    else if rules.europeanOnly.Some? && opt.exercise.value.kind != European then
      Fail(UnsupportedInstrument(rules.europeanOnly.value))
    else if |opt.exercise.value.dates| != 1 then Fail(InvalidInput(rules.dateMessage))
    else if !(opt.exercise.value.dates[0] > 0.0) then Fail(InvalidInput("Maturity T must be > 0"))
    else if !(opt.notional > 0.0) then Fail(InvalidInput("Notional must be > 0"))
    else if !(opt.payoff.value.strike > 0.0) then Fail(InvalidInput("Strike must be > 0"))
    else Pass
  }

  /**
   * The checks of the Black-Scholes Monte Carlo and analytic engines:
   * European exercise only, then the common ones.
   */
  function ValidateEuropean(opt: VanillaOption): (o: Outcome)
    ensures o.Pass? <==> VanillaValid(opt, true)
    ensures o.Fail? && o.error.UnsupportedInstrument? <==>
              opt.payoff.Some? && opt.exercise.Some? && opt.exercise.value.kind != European
  {
    ValidateVanilla(opt, VanillaRules(Some("Non-European exercise is not supported by this engine"),
                                      "EuropeanExercise must contain exactly one date (maturity)"))
  }

  /** An Asian option the Asian engines accept. */
  ghost predicate AsianValid(opt: AsianOption)
  {
    opt.payoff.Some? && opt.exercise.Some? &&
    opt.exercise.value.kind == European && |opt.exercise.value.dates| == 1
  }

  /**
   * The Asian engines' checks: null payoff, null exercise, European only,
   * one date. Maturity, notional and strike are not checked.
   */
  function ValidateAsian(opt: AsianOption): (o: Outcome)
    ensures o.Pass? <==> AsianValid(opt)
    ensures o.Fail? && o.error.UnsupportedInstrument? <==>
              opt.payoff.Some? && opt.exercise.Some? && opt.exercise.value.kind != European
  {
    if opt.payoff.None? then Fail(InvalidInput("AsianOption.payoff is null"))
    else if opt.exercise.None? then Fail(InvalidInput("AsianOption.exercise is null"))
    else if opt.exercise.value.kind != European then
      Fail(UnsupportedInstrument("Non-European exercise is not supported by this engine"))
    else if |opt.exercise.value.dates| != 1 then
      Fail(InvalidInput("Expected single maturity date for European Asian option"))
    else Pass
  }
}
