// Equity and rates instruments: payoffs, exercise schedules, vanilla and
// Asian options, the equity future and the two bonds, gathered into one
// closed sum that every engine dispatches on.
module Instruments {
  import opened Core

  datatype ExerciseType = European | American

  /** An exercise schedule: its style and its dates as year fractions. */
  datatype Exercise = Exercise(kind: ExerciseType, dates: seq<real>)

  function EuropeanExercise(maturity: real): (e: Exercise)
    ensures e.kind == European && e.dates == [maturity]
  {
    Exercise(European, [maturity])
  }

  function AmericanExercise(maturity: real): (e: Exercise)
    ensures e.kind == American && e.dates == [maturity]
  {
    Exercise(American, [maturity])
  }

  /**
   * The three payoff kinds. Each is `max(x - K, 0)` for a call and
   * `max(K - x, 0)` for a put; for the Asian payoffs `x` is the average
   * the engine computed, for the plain one the spot.
   */
  datatype Payoff =
    | PlainVanillaPayoff(optionType: OptionType, strike: real)
    | ArithmeticAsianPayoff(optionType: OptionType, strike: real)
    | GeometricAsianPayoff(optionType: OptionType, strike: real)
  {
    function Apply(x: real): (v: real)
    {
      match optionType
      case Call => Max(x - strike, 0.0)
      case Put => Max(strike - x, 0.0)
    }
  }

  datatype VanillaOption = VanillaOption(
    payoff: Option<Payoff>, exercise: Option<Exercise>, notional: real := 1.0)

  datatype AsianAverageType = Arithmetic | Geometric

  datatype AsianOption = AsianOption(
    payoff: Option<Payoff>, exercise: Option<Exercise>,
    averageType: AsianAverageType := Arithmetic, notional: real := 1.0)

  datatype EquityFuture = EquityFuture(strike: real, maturity: real, notional: real := 1.0)

  datatype ZeroCouponBond = ZeroCouponBond(maturity: real, notional: real := 1.0)

  datatype FixedRateBond = FixedRateBond(
    couponRate: real, maturity: real, couponFrequency: int := 1, notional: real := 1.0)

  /** Every instrument an engine can be asked to price. */
  datatype Instrument =
    | Vanilla(vanilla: VanillaOption)
    | Asian(asian: AsianOption)
    | Future(future: EquityFuture)
    | ZeroCoupon(zero: ZeroCouponBond)
    | FixedRate(bond: FixedRateBond)

  /** The visitor's name for an instrument, used in "unsupported" messages. */
  function InstrumentName(inst: Instrument): string
  {
    match inst
    case Vanilla(_) => "VanillaOption"
    case Asian(_) => "AsianOption"
    case Future(_) => "EquityFuture"
    case ZeroCoupon(_) => "ZeroCouponBond"
    case FixedRate(_) => "FixedRateBond"
  }

  /** `EngineBase::unsupported`: the error an engine raises for a foreign instrument. */
  function Unsupported<T>(inst: Instrument): (r: Result<T>)
    ensures IsUnsupported(r)
  {
    Err(UnsupportedInstrument("Engine does not support instrument: " + InstrumentName(inst)))
  }

  // ---- properties of the payoffs ----

  lemma PayoffNonNegative(p: Payoff, x: real)
    ensures p.Apply(x) >= 0.0
    ensures p.Apply(p.strike) == 0.0
  {
  }

  lemma CallPutPayoffParity(k: real, x: real)
    ensures PlainVanillaPayoff(Call, k).Apply(x) - PlainVanillaPayoff(Put, k).Apply(x) == x - k
  {
  }

  /** The call pays the excess of `x` over the strike, and only that. */
  lemma CallPayoffValue(p: Payoff, x: real)
    requires p.optionType == Call
    ensures x > p.strike ==> p.Apply(x) == x - p.strike
    ensures x <= p.strike ==> p.Apply(x) == 0.0
  {
  }

  lemma PutPayoffValue(p: Payoff, x: real)
    requires p.optionType == Put
    ensures x < p.strike ==> p.Apply(x) == p.strike - x
    ensures x >= p.strike ==> p.Apply(x) == 0.0
  {
  }

  /** The kind of average is not part of the payoff: all three agree. */
  lemma PayoffKindIrrelevant(t: OptionType, k: real, x: real)
    ensures ArithmeticAsianPayoff(t, k).Apply(x) == GeometricAsianPayoff(t, k).Apply(x)
    ensures ArithmeticAsianPayoff(t, k).Apply(x) == PlainVanillaPayoff(t, k).Apply(x)
  {
  }

  /** Calls are non-decreasing in `x`, puts non-increasing. */
  lemma PayoffMonotone(p: Payoff, x: real, y: real)
    requires x <= y
    ensures p.optionType == Call ==> p.Apply(x) <= p.Apply(y)
    ensures p.optionType == Put ==> p.Apply(x) >= p.Apply(y)
  {
  }

  lemma OptionDefaults(p: Option<Payoff>, e: Option<Exercise>)
    ensures VanillaOption(p, e).notional == 1.0
    ensures VanillaOption(p, e).payoff == p && VanillaOption(p, e).exercise == e
    ensures AsianOption(p, e).averageType == Arithmetic && AsianOption(p, e).notional == 1.0
  {
  }
}
