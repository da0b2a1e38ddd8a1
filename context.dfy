// The pricing context every engine is built from: the model, the market
// view and the numerical settings, together with the two checks every
// engine performs on the model before it prices anything.
module Pricing {
  import opened Core
  import opened DiscountCurves

  /**
   * The two models of the library. The Black-Scholes model (spot, rate,
   * dividend yield, flat volatility) serves every equity engine; the flat
   * rate model serves the bond engines.
   */
  datatype Model =
    | BlackScholesModel(s0: real, r: real, q: real, sigma: real)
    | FlatRateModel(rate: real)

  function ModelName(m: Model): string
  {
    match m
    case BlackScholesModel(_, _, _, _) => "BlackScholesModel"
    case FlatRateModel(_) => "FlatRateModel"
  }

  /** The interfaces an engine can demand of its model. */
  datatype ModelInterface = LocalVol | BlackScholes | FlatRate

  /** Which interfaces each model implements. */
  predicate Implements(m: Model, iface: ModelInterface)
  {
    match iface
    case LocalVol => m.BlackScholesModel?
    case BlackScholes => m.BlackScholesModel?
    case FlatRate => m.FlatRateModel?
  }

  /** Numerical settings, in the order the adapters fill them. */
  datatype PricingSettings = PricingSettings(
    mcPaths: int, mcSeed: int, mcAntithetic: bool,
    treeSteps: int, pdeSpaceSteps: int, pdeTimeSteps: int)

  /** Market data beside the model: an optional discount curve. */
  datatype MarketView = MarketView(discount: Option<DiscountCurve>)

  /** A missing model (a null pointer in the library) is `None`. */
  datatype PricingContext = PricingContext(
    market: MarketView, settings: PricingSettings, model: Option<Model>)

  /** The check of the engine base constructor: a model must be present. */
  function CheckModelPresent(ctx: PricingContext): (o: Outcome)
    ensures o.Pass? <==> ctx.model.Some?
    ensures o.Fail? ==> o.error == InvalidInput("PricingContext.model is null")
  {
    if ctx.model.None? then Fail(InvalidInput("PricingContext.model is null")) else Pass
  }

  /**
   * `require_model`: the context's model if it implements `iface`,
   * InvalidInput naming the engine and the model otherwise.
   */
  function RequireModel(ctx: PricingContext, iface: ModelInterface, engineName: string): (r: Result<Model>)
    requires ctx.model.Some?
    ensures r.Ok? <==> Implements(ctx.model.value, iface)
    ensures r.Ok? ==> r.value == ctx.model.value
    ensures r.Err? ==> r.error == InvalidInput(engineName + " requires model interface: " + ModelName(ctx.model.value))
  {
    if Implements(ctx.model.value, iface) then Ok(ctx.model.value)
    else Err(InvalidInput(engineName + " requires model interface: " + ModelName(ctx.model.value)))
  }

  /** Every equity interface is served only by the Black-Scholes model. */
  lemma EquityInterfacesNeedBlackScholes(ctx: PricingContext, iface: ModelInterface, name: string)
    requires ctx.model.Some? && iface != FlatRate
    ensures RequireModel(ctx, iface, name).Ok? <==> ctx.model.value.BlackScholesModel?
    ensures RequireModel(ctx, FlatRate, name).Ok? <==> ctx.model.value.FlatRateModel?
  {
  }

  /** No model implements both the equity interfaces and the rates one. */
  lemma InterfacesExclusive(m: Model)
    ensures !(Implements(m, LocalVol) && Implements(m, FlatRate))
    ensures Implements(m, LocalVol) <==> Implements(m, BlackScholes)
  {
  }
}
