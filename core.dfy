// Shared vocabulary of the pricing library: optional values, the two
// pricing errors, the result record, and the real-valued elementary
// functions the engines call (passed around as a record of functions so
// that each proof states exactly which laws of them it relies on).
module Core {

  datatype Option<T> = None | Some(value: T)

  /** The two exception types every engine may raise. */
  datatype PricingError =
    | InvalidInput(message: string)
    | UnsupportedInstrument(message: string)

  datatype Result<T> = Ok(value: T) | Err(error: PricingError)
  {
    predicate IsFailure() { Err? }

    function PropagateFailure<U>(): Result<U>
      requires Err?
    {
      Err(error)
    }

    function Extract(): T
      requires Ok?
    {
      value
    }
  }

  /** An outcome that carries no value: the result of a `validate` routine. */
  datatype Outcome = Pass | Fail(error: PricingError)
  {
    predicate IsFailure() { Fail? }

    function PropagateFailure<U>(): Result<U>
      requires Fail?
    {
      Err(error)
    }
  }

  predicate IsInvalid<T>(r: Result<T>) { r.Err? && r.error.InvalidInput? }
  predicate IsUnsupported<T>(r: Result<T>) { r.Err? && r.error.UnsupportedInstrument? }

  datatype OptionType = Call | Put

  /**
   * Sensitivities of one pricing run. A Greek an engine does not compute
   * is `None`; Monte Carlo engines also fill the standard errors.
   */
  datatype Greeks = Greeks(
    delta: Option<real>, gamma: Option<real>, vega: Option<real>,
    theta: Option<real>, rho: Option<real>,
    deltaStdError: Option<real>, gammaStdError: Option<real>,
    vegaStdError: Option<real>, thetaStdError: Option<real>,
    rhoStdError: Option<real>)

  const NoGreeks: Greeks :=
    Greeks(None, None, None, None, None, None, None, None, None, None)

  datatype PricingResult = PricingResult(npv: real, greeks: Greeks, mcStdError: real)

  /** A result with only a present value (`mc_std_error` keeps its default 0). */
  function NpvOnly(npv: real): (r: PricingResult)
    ensures r.npv == npv && r.greeks == NoGreeks && r.mcStdError == 0.0
  {
    PricingResult(npv, NoGreeks, 0.0)
  }

  /**
   * The elementary functions: `exp`, `log`, `sqrt`, the standard normal
   * `cdf` and `pdf`, and `cos`, `sin` and `pi` used by Box-Muller.
   * Nothing is assumed about them except the laws below, each required
   * only by the statements that need it.
   */
  datatype Math = Math(
    exp: real -> real, log: real -> real, sqrt: real -> real,
    cdf: real -> real, pdf: real -> real,
    cos: real -> real, sin: real -> real, pi: real)

  // Every use of the elementary functions goes through these wrappers,
  // so that a value computed in a function and one computed in a lemma or
  // method are the same term.
  function Exp(m: Math, x: real): real { m.exp(x) }
  function Log(m: Math, x: real): real { m.log(x) }
  function Sqrt(m: Math, x: real): real { m.sqrt(x) }
  function Cdf(m: Math, x: real): real { m.cdf(x) }
  function Pdf(m: Math, x: real): real { m.pdf(x) }
  function Cos(m: Math, x: real): real { m.cos(x) }
  function Sin(m: Math, x: real): real { m.sin(x) }

  ghost predicate ExpPositive(m: Math) { forall x :: Exp(m, x) > 0.0 }

  /** `exp(a + b)`, named so that the additivity law fires only on request. */
  function ExpOfSum(m: Math, a: real, b: real): real { Exp(m, a + b) }

  ghost predicate ExpAdditive(m: Math)
  {
    forall a, b {:trigger ExpOfSum(m, a, b)} :: Exp(m, a) * Exp(m, b) == ExpOfSum(m, a, b)
  }

  ghost predicate ExpMonotone(m: Math)
  {
    forall a, b {:trigger Exp(m, a), Exp(m, b)} :: a <= b ==> Exp(m, a) <= Exp(m, b)
  }

  ghost predicate ExpOfLog(m: Math) { forall x :: x > 0.0 ==> Exp(m, Log(m, x)) == x }

  ghost predicate CdfBounded(m: Math) { forall x :: 0.0 <= Cdf(m, x) <= 1.0 }

  /** `N(-x)`, named so that the symmetry law fires only on request. */
  function CdfOfNegation(m: Math, x: real): real { Cdf(m, -x) }

  ghost predicate CdfSymmetric(m: Math)
  {
    forall x {:trigger CdfOfNegation(m, x)} :: Cdf(m, x) + CdfOfNegation(m, x) == 1.0
  }

  /** `exp(y) <= 1 / (1 - y)` below 1, the upper bound convexity gives the exponential. */
  ghost predicate ExpReciprocalBound(m: Math)
  {
    forall y :: y < 1.0 ==> Exp(m, y) * (1.0 - y) <= 1.0
  }

  /** `sqrt` is the non-negative square root. */
  ghost predicate SqrtSquares(m: Math)
  {
    forall x :: x >= 0.0 ==> Sqrt(m, x) >= 0.0 && Sqrt(m, x) * Sqrt(m, x) == x
  }

  lemma ExpAdd(m: Math, a: real, b: real)
    requires ExpAdditive(m)
    ensures Exp(m, a) * Exp(m, b) == Exp(m, a + b)
  {
    assert Exp(m, a) * Exp(m, b) == ExpOfSum(m, a, b);
  }

  /** An additive, positive exponential maps 0 to 1. */
  lemma ExpZero(m: Math)
    requires ExpPositive(m) && ExpAdditive(m)
    ensures Exp(m, 0.0) == 1.0
  {
    var one := Exp(m, 0.0);
    ExpAdd(m, 0.0, 0.0);
    ProductNonZero(one, one - 1.0);
  }

  /** `ExpAdd` with the sum named `c`, for callers whose sum is another term. */
  lemma ExpAddTo(m: Math, a: real, b: real, c: real)
    requires ExpAdditive(m) && a + b == c
    ensures Exp(m, a) * Exp(m, b) == Exp(m, c)
  {
    ExpAdd(m, a, b);
  }

  /** The logarithm of a number in (0, 1) is not positive. */
  lemma LogBelowOne(m: Math, x: real)
    requires ExpPositive(m) && ExpAdditive(m) && ExpMonotone(m) && ExpOfLog(m)
    requires 0.0 < x < 1.0
    ensures Log(m, x) <= 0.0
  {
    if Log(m, x) > 0.0 {
      ExpZero(m);
      ExpLe(m, 0.0, Log(m, x));
      assert false;
    }
  }

  lemma ExpLe(m: Math, a: real, b: real)
    requires ExpMonotone(m) && a <= b
    ensures Exp(m, a) <= Exp(m, b)
  {
  }

  lemma CdfSym(m: Math, x: real)
    requires CdfSymmetric(m)
    ensures Cdf(m, x) + Cdf(m, -x) == 1.0
  {
    assert Cdf(m, x) + CdfOfNegation(m, x) == 1.0;
  }

  /**
   * A quotient the library computes without checking its divisor. A zero
   * divisor produces an infinity or a NaN there; the model reports no value.
   */
  function Ratio(a: real, b: real): (r: Option<real>)
    ensures r.Some? <==> b != 0.0
    ensures r.Some? ==> r.value * b == a
  {
    if b == 0.0 then None else Some(a / b)
  }

  /**
   * A quotient by a spot, a volatility or a maturity that the library
   * does not check. When that divisor is 0 the library produces an
   * infinity or a NaN; the model takes 0 there, and each engine's results
   * say whether the Greek built from it is reported.
   */
  function GuardedQuotient(a: real, b: real): (r: real)
    ensures b != 0.0 ==> r * b == a
    ensures b == 0.0 ==> r == 0.0
  {
    if b == 0.0 then 0.0 else a / b
  }

  /** A quotient that divides evenly. */
  lemma RatioOfProduct(x: real, a: real, d: real)
    requires d != 0.0 && x == a * d
    ensures Ratio(x, d) == Some(a)
  {
    assert (a * d) / d == a;
  }

  /** Scaling by a non-negative factor keeps an order. */
  lemma ScaleMonotone(c: real, x: real, y: real)
    requires c >= 0.0 && x <= y
    ensures c * x <= c * y
  {
  }

  /** A non-negative mix of two values is monotone in each. */
  lemma MixMonotone(p: real, q: real, a: real, b: real, a2: real, b2: real)
    requires p >= 0.0 && q >= 0.0 && a <= a2 && b <= b2
    ensures p * a + q * b <= p * a2 + q * b2
  {
    ScaleMonotone(p, a, a2);
    ScaleMonotone(q, b, b2);
  }

  lemma ProductNonZero(x: real, y: real)
    ensures x * y == 0.0 <==> x == 0.0 || y == 0.0
  {
    if x != 0.0 && y != 0.0 {
      assert (x * y) / y == x;
    }
  }

  /** The drift of the log-spot under the risk-neutral measure: `r - q - sigma^2 / 2`. */
  function Drift(r: real, q: real, sigma: real): real
  {
    r - q - 0.5 * sigma * sigma
  }

  function Max(a: real, b: real): (r: real)
    ensures r >= a && r >= b && (r == a || r == b)
  {
    if a >= b then a else b
  }

  function Min(a: real, b: real): (r: real)
    ensures r <= a && r <= b && (r == a || r == b)
  {
    if a <= b then a else b
  }

  function Abs(a: real): (r: real)
    ensures r >= 0.0 && (r == a || r == -a)
  {
    if a >= 0.0 then a else -a
  }

  function MaxInt(a: int, b: int): (r: int)
    ensures r >= a && r >= b && (r == a || r == b)
  {
    if a >= b then a else b
  }

  /** `x` raised to a natural power by repeated multiplication. */
  function NatPow(x: real, n: nat): real
  {
    if n == 0 then 1.0 else x * NatPow(x, n - 1)
  }

  /** `std::pow(x, n)` for an integer exponent; a negative one divides. */
  function IntPow(x: real, n: int): real
    requires x != 0.0
  {
    if n >= 0 then NatPow(x, n)
    else
      NatPowNonZero(x, -n);
      1.0 / NatPow(x, -n)
  }

  lemma {:induction false} NatPowPositive(x: real, n: nat)
    requires x > 0.0
    ensures NatPow(x, n) > 0.0
  {
    if n > 0 {
      NatPowPositive(x, n - 1);
    }
  }

  lemma {:induction false} NatPowNonZero(x: real, n: nat)
    requires x != 0.0
    ensures NatPow(x, n) != 0.0
  {
    if n > 0 {
      NatPowNonZero(x, n - 1);
    }
  }

  /** `std::pow(x, y)` for a positive base and a real exponent. */
  function RealPow(m: Math, x: real, y: real): real
  {
    Exp(m, y * Log(m, x))
  }

  /**
   * `static_cast<int>` of a real: truncation toward zero (Dafny's
   * `Floor` rounds toward minus infinity, so negatives are mirrored).
   */
  function Truncate(x: real): (r: int)
    ensures x >= 0.0 ==> r == x.Floor
    ensures x < 0.0 ==> r == -((-x).Floor)
    ensures Abs(r as real) <= Abs(x) < Abs(r as real) + 1.0
  {
    if x >= 0.0 then x.Floor else -((-x).Floor)
  }

  /** Truncation toward zero never decreases as its argument grows. */
  lemma TruncateMonotone(x: real, y: real)
    requires x <= y
    ensures Truncate(x) <= Truncate(y)
  {
    if y < 0.0 {
      assert (-y).Floor <= (-x).Floor;
    }
  }

  /** `std::round`: nearest integer, halves away from zero. */
  function Round(x: real): (r: int)
    ensures Abs(x - r as real) <= 0.5
    ensures x >= 0.0 ==> r >= 0
    ensures Abs(x - r as real) == 0.5 ==> Abs(r as real) > Abs(x)
  {
    if x >= 0.0 then (x + 0.5).Floor else -((-x + 0.5).Floor)
  }

  /** Taking one more element of a sequence appends that element. */
  lemma TakeOneMore<T>(s: seq<T>, j: nat)
    requires j < |s|
    ensures s[..j + 1] == s[..j] + [s[j]]
  {
  }
}
