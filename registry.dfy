// The pricing registry: a table from (instrument kind, model kind, engine
// kind) to the function that prices such a request, filled once with the
// library's default entries. A request whose key has no entry is refused
// as an unsupported instrument.
module Registry {
  import opened Core

  datatype InstrumentKind =
    | EquityVanillaOption | EquityAmericanVanillaOption | EquityAsianOption
    | EquityFuture | ZeroCouponBond | FixedRateBond

  datatype ModelKind = BlackScholes | FlatRate

  datatype EngineKind = Analytic | MonteCarlo | BinomialTree | TrinomialTree | PDEFiniteDifference

  /** The enumerators' positions in their declarations. */
  function InstrumentOrdinal(k: InstrumentKind): (n: bv64)
    ensures n < 6
  {
    match k
    case EquityVanillaOption => 0
    case EquityAmericanVanillaOption => 1
    case EquityAsianOption => 2
    case EquityFuture => 3
    case ZeroCouponBond => 4
    case FixedRateBond => 5
  }

  function ModelOrdinal(k: ModelKind): (n: bv64)
    ensures n < 2
  {
    match k
    case BlackScholes => 0
    case FlatRate => 1
  }

  function EngineOrdinal(k: EngineKind): (n: bv64)
    ensures n < 5
  {
    match k
    case Analytic => 0
    case MonteCarlo => 1
    case BinomialTree => 2
    case TrinomialTree => 3
    case PDEFiniteDifference => 4
  }

  datatype RegistryKey = RegistryKey(instrument: InstrumentKind, model: ModelKind, engine: EngineKind)

  /** `(instrument << 16) ^ (model << 8) ^ engine` on a 64-bit `size_t`. */
  function Mix(instrument: bv64, model: bv64, engine: bv64): bv64
  {
    (instrument << 16) ^ (model << 8) ^ engine
  }

  function KeyHash(key: RegistryKey): bv64
  {
    Mix(InstrumentOrdinal(key.instrument), ModelOrdinal(key.model), EngineOrdinal(key.engine))
  }

  // ---- the registered functions ----

  /**
   * What a default entry does with a request: which adapter it calls and
   * with which engine kind.
   */
  datatype Pricer =
    | VanillaPricer(engine: EngineKind)
    | AmericanPricer(engine: EngineKind)
    | AsianPricer(engine: EngineKind)
    | FuturePricer
    | ZeroCouponPricer
    | FixedRatePricer

  /** A request names its key and carries an adapter input of type `I`. */
  datatype PricingRequest<I> = PricingRequest(
    instrument: InstrumentKind, model: ModelKind, engine: EngineKind, input: I)

  function KeyOf<I>(request: PricingRequest<I>): RegistryKey
  {
    RegistryKey(request.instrument, request.model, request.engine)
  }

  /**
   * The adapters that build an instrument, a model and a context from an
   * input and run an engine on them. The American one is given only its
   * tree engines; its engine switch is part of this model.
   */
  datatype Adapters<!I> = Adapters(
    vanilla: (I, EngineKind) -> Result<PricingResult>,
    americanTree: (I, EngineKind) -> Result<PricingResult>,
    asian: (I, EngineKind) -> Result<PricingResult>,
    future: I -> Result<PricingResult>,
    zeroCoupon: I -> Result<PricingResult>,
    fixedRate: I -> Result<PricingResult>)

  /**
   * The American adapter: the tree engines price, the PDE engine is
   * refused as unsupported, and any other engine is an invalid input.
   */
  function AmericanAdapter<I>(a: Adapters<I>, input: I, engine: EngineKind): (r: Result<PricingResult>)
    ensures engine == BinomialTree || engine == TrinomialTree ==> r == a.americanTree(input, engine)
    ensures engine == PDEFiniteDifference ==> IsUnsupported(r)
    ensures engine == Analytic || engine == MonteCarlo ==> IsInvalid(r)
  {
    match engine
    case BinomialTree => a.americanTree(input, BinomialTree)
    case TrinomialTree => a.americanTree(input, TrinomialTree)
    case PDEFiniteDifference =>
      Err(UnsupportedInstrument("PDE finite difference method is only supported for European vanilla options"))
    case _ => Err(InvalidInput("Unsupported engine for American vanilla options"))
  }

  /** Running a registered function on a request's input. */
  function Invoke<I>(a: Adapters<I>, p: Pricer, input: I): Result<PricingResult>
  {
    match p
    case VanillaPricer(e) => a.vanilla(input, e)
    case AmericanPricer(e) => AmericanAdapter(a, input, e)
    case AsianPricer(e) => a.asian(input, e)
    case FuturePricer => a.future(input)
    case ZeroCouponPricer => a.zeroCoupon(input)
    case FixedRatePricer => a.fixedRate(input)
  }

  const NoPricer: string := "No pricer registered for the requested instrument/model/engine."

  class PricingRegistry {
    var table: map<RegistryKey, Pricer>

    constructor()
      ensures table == map[]
    {
      table := map[];
    }

    /** Inserts or overwrites: the last registration for a key wins. */
    method RegisterPricer(key: RegistryKey, fn: Pricer)
      modifies this
      ensures table == old(table)[key := fn]
    {
      table := table[key := fn];
    }

    /** The registered function's result, or UnsupportedInstrument for an unknown key. */
    method Price<I>(a: Adapters<I>, request: PricingRequest<I>) returns (r: Result<PricingResult>)
      ensures KeyOf(request) !in table ==> r == Err(UnsupportedInstrument(NoPricer))
      ensures KeyOf(request) in table ==> r == Invoke(a, table[KeyOf(request)], request.input)
    {
      var key := RegistryKey(request.instrument, request.model, request.engine);
      if key !in table {
        return Err(UnsupportedInstrument(NoPricer));
      }
      r := Invoke(a, table[key], request.input);
    }
  }

  /** Registering twice under one key keeps only the second function. */
  method RegisterTwice(reg: PricingRegistry, key: RegistryKey, first: Pricer, second: Pricer)
    modifies reg
    ensures reg.table == old(reg.table)[key := second]
  {
    reg.RegisterPricer(key, first);
    reg.RegisterPricer(key, second);
  }

  // ---- the default registry ----

  /** The first five registrations: the European vanilla option under every engine. */
  function VanillaEntries(): map<RegistryKey, Pricer>
  {
    map[]
      [RegistryKey(EquityVanillaOption, BlackScholes, Analytic) := VanillaPricer(Analytic)]
      [RegistryKey(EquityVanillaOption, BlackScholes, MonteCarlo) := VanillaPricer(MonteCarlo)]
      [RegistryKey(EquityVanillaOption, BlackScholes, PDEFiniteDifference) := VanillaPricer(PDEFiniteDifference)]
      [RegistryKey(EquityVanillaOption, BlackScholes, BinomialTree) := VanillaPricer(BinomialTree)]
      [RegistryKey(EquityVanillaOption, BlackScholes, TrinomialTree) := VanillaPricer(TrinomialTree)]
  }

  /** The next four: the American vanilla option under its three engines, the Asian option analytically. */
  function OptionEntries(): map<RegistryKey, Pricer>
  {
    VanillaEntries()
      [RegistryKey(EquityAmericanVanillaOption, BlackScholes, BinomialTree) := AmericanPricer(BinomialTree)]
      [RegistryKey(EquityAmericanVanillaOption, BlackScholes, TrinomialTree) := AmericanPricer(TrinomialTree)]
      [RegistryKey(EquityAmericanVanillaOption, BlackScholes, PDEFiniteDifference) := AmericanPricer(PDEFiniteDifference)]
      [RegistryKey(EquityAsianOption, BlackScholes, Analytic) := AsianPricer(Analytic)]
  }

  /** The equity entries: the Asian option by simulation, then the future. */
  function EquityEntries(): map<RegistryKey, Pricer>
  {
    OptionEntries()
      [RegistryKey(EquityAsianOption, BlackScholes, MonteCarlo) := AsianPricer(MonteCarlo)]
      [RegistryKey(EquityFuture, BlackScholes, Analytic) := FuturePricer]
  }

  /** The default table: the registrations in order, the two bonds last. */
  function DefaultTable(): map<RegistryKey, Pricer>
  {
    EquityEntries()
      [RegistryKey(ZeroCouponBond, FlatRate, Analytic) := ZeroCouponPricer]
      [RegistryKey(FixedRateBond, FlatRate, Analytic) := FixedRatePricer]
  }

  /** `default_registry`: thirteen successive registrations into an empty registry. */
  method DefaultRegistry() returns (reg: PricingRegistry)
    ensures fresh(reg)
    ensures reg.table == DefaultTable()
  {
    reg := new PricingRegistry();
    reg.RegisterPricer(RegistryKey(EquityVanillaOption, BlackScholes, Analytic), VanillaPricer(Analytic));
    reg.RegisterPricer(RegistryKey(EquityVanillaOption, BlackScholes, MonteCarlo), VanillaPricer(MonteCarlo));
    reg.RegisterPricer(RegistryKey(EquityVanillaOption, BlackScholes, PDEFiniteDifference), VanillaPricer(PDEFiniteDifference));
    reg.RegisterPricer(RegistryKey(EquityVanillaOption, BlackScholes, BinomialTree), VanillaPricer(BinomialTree));
    reg.RegisterPricer(RegistryKey(EquityVanillaOption, BlackScholes, TrinomialTree), VanillaPricer(TrinomialTree));
    reg.RegisterPricer(RegistryKey(EquityAmericanVanillaOption, BlackScholes, BinomialTree), AmericanPricer(BinomialTree));
    reg.RegisterPricer(RegistryKey(EquityAmericanVanillaOption, BlackScholes, TrinomialTree), AmericanPricer(TrinomialTree));
    reg.RegisterPricer(RegistryKey(EquityAmericanVanillaOption, BlackScholes, PDEFiniteDifference), AmericanPricer(PDEFiniteDifference));
    reg.RegisterPricer(RegistryKey(EquityAsianOption, BlackScholes, Analytic), AsianPricer(Analytic));
    reg.RegisterPricer(RegistryKey(EquityAsianOption, BlackScholes, MonteCarlo), AsianPricer(MonteCarlo));
    reg.RegisterPricer(RegistryKey(EquityFuture, BlackScholes, Analytic), FuturePricer);
    reg.RegisterPricer(RegistryKey(ZeroCouponBond, FlatRate, Analytic), ZeroCouponPricer);
    reg.RegisterPricer(RegistryKey(FixedRateBond, FlatRate, Analytic), FixedRatePricer);
  }

  /** The keys of the default table, described by kind. */
  predicate DefaultSupports(k: RegistryKey)
  {
    match k.instrument
    case EquityVanillaOption => k.model == BlackScholes
    case EquityAmericanVanillaOption =>
      k.model == BlackScholes && (k.engine == BinomialTree || k.engine == TrinomialTree || k.engine == PDEFiniteDifference)
    case EquityAsianOption => k.model == BlackScholes && (k.engine == Analytic || k.engine == MonteCarlo)
    case EquityFuture => k.model == BlackScholes && k.engine == Analytic
    case ZeroCouponBond => k.model == FlatRate && k.engine == Analytic
    case FixedRateBond => k.model == FlatRate && k.engine == Analytic
  }

  // ---- properties ----

  /** Below 256 the three fields occupy disjoint bytes, so the mix is injective. */
  lemma MixInjective(i: bv64, m: bv64, e: bv64, i2: bv64, m2: bv64, e2: bv64)
    requires i < 256 && m < 256 && e < 256 && i2 < 256 && m2 < 256 && e2 < 256
    requires Mix(i, m, e) == Mix(i2, m2, e2)
    ensures i == i2 && m == m2 && e == e2
  {
  }

  /** Distinct keys hash differently. */
  lemma KeyHashInjective(a: RegistryKey, b: RegistryKey)
    ensures KeyHash(a) == KeyHash(b) <==> a == b
  {
    if KeyHash(a) == KeyHash(b) {
      MixInjective(InstrumentOrdinal(a.instrument), ModelOrdinal(a.model), EngineOrdinal(a.engine),
                   InstrumentOrdinal(b.instrument), ModelOrdinal(b.model), EngineOrdinal(b.engine));
    }
  }

  /** The default table holds exactly the supported combinations... */
  lemma DefaultKeys(k: RegistryKey)
    ensures k in DefaultTable() <==> DefaultSupports(k)
  {
    match k.engine {
      case Analytic => {}
      case MonteCarlo => {}
      case BinomialTree => {}
      case TrinomialTree => {}
      case PDEFiniteDifference => {}
    }
  }

  /** The European vanilla entries are five distinct keys. */
  lemma VanillaEntriesSize()
    ensures |VanillaEntries()| == 5
  {
    var t0: map<RegistryKey, Pricer> := map[];
    var t1 := t0[RegistryKey(EquityVanillaOption, BlackScholes, Analytic) := VanillaPricer(Analytic)];
    assert RegistryKey(EquityVanillaOption, BlackScholes, Analytic) !in t0;
    assert |t1| == 1;
    var t2 := t1[RegistryKey(EquityVanillaOption, BlackScholes, MonteCarlo) := VanillaPricer(MonteCarlo)];
    assert RegistryKey(EquityVanillaOption, BlackScholes, MonteCarlo) !in t1;
    assert |t2| == 2;
    var t3 := t2[RegistryKey(EquityVanillaOption, BlackScholes, PDEFiniteDifference) := VanillaPricer(PDEFiniteDifference)];
    assert RegistryKey(EquityVanillaOption, BlackScholes, PDEFiniteDifference) !in t2;
    assert |t3| == 3;
    var t4 := t3[RegistryKey(EquityVanillaOption, BlackScholes, BinomialTree) := VanillaPricer(BinomialTree)];
    assert RegistryKey(EquityVanillaOption, BlackScholes, BinomialTree) !in t3;
    assert |t4| == 4;
    var t5 := t4[RegistryKey(EquityVanillaOption, BlackScholes, TrinomialTree) := VanillaPricer(TrinomialTree)];
    assert RegistryKey(EquityVanillaOption, BlackScholes, TrinomialTree) !in t4;
    assert |t5| == 5;
    assert t5 == VanillaEntries();
  }

  /** The European vanilla entries are all for the vanilla option. */
  lemma VanillaEntriesKeys(k: RegistryKey)
    requires k in VanillaEntries()
    ensures k.instrument == EquityVanillaOption
  {
  }

  /** The option entries add the American option and the analytic Asian one. */
  lemma OptionEntriesKeys(k: RegistryKey)
    requires k in OptionEntries()
    ensures k.instrument == EquityVanillaOption || k.instrument == EquityAmericanVanillaOption ||
            (k.instrument == EquityAsianOption && k.engine == Analytic)
  {
    if k in VanillaEntries() {
      VanillaEntriesKeys(k);
    }
  }

  /** Four more distinct keys make nine. */
  lemma OptionEntriesSize()
    ensures |OptionEntries()| == 9
  {
    VanillaEntriesSize();
    var t0 := VanillaEntries();
    var a1 := RegistryKey(EquityAmericanVanillaOption, BlackScholes, BinomialTree);
    var a2 := RegistryKey(EquityAmericanVanillaOption, BlackScholes, TrinomialTree);
    var a3 := RegistryKey(EquityAmericanVanillaOption, BlackScholes, PDEFiniteDifference);
    var a4 := RegistryKey(EquityAsianOption, BlackScholes, Analytic);
    if a1 in t0 { VanillaEntriesKeys(a1); }
    if a2 in t0 { VanillaEntriesKeys(a2); }
    if a3 in t0 { VanillaEntriesKeys(a3); }
    if a4 in t0 { VanillaEntriesKeys(a4); }
    var t1 := t0[a1 := AmericanPricer(BinomialTree)];
    assert |t1| == 6;
    var t2 := t1[a2 := AmericanPricer(TrinomialTree)];
    assert |t2| == 7;
    var t3 := t2[a3 := AmericanPricer(PDEFiniteDifference)];
    assert |t3| == 8;
    var t4 := t3[a4 := AsianPricer(Analytic)];
    assert |t4| == 9;
  }

  /** Two more distinct keys make eleven. */
  lemma EquityEntriesSize()
    ensures |EquityEntries()| == 11
  {
    OptionEntriesSize();
    var t0 := OptionEntries();
    var m := RegistryKey(EquityAsianOption, BlackScholes, MonteCarlo);
    var f := RegistryKey(EquityFuture, BlackScholes, Analytic);
    if m in t0 { OptionEntriesKeys(m); }
    if f in t0 { OptionEntriesKeys(f); }
    var t1 := t0[m := AsianPricer(MonteCarlo)];
    assert |t1| == 10;
    assert f !in t1;
  }

  /** ...thirteen of them. */
  lemma DefaultSize()
    ensures |DefaultTable()| == 13
  {
    EquityEntriesSize();
    var t0 := EquityEntries();
    var z := RegistryKey(ZeroCouponBond, FlatRate, Analytic);
    var f := RegistryKey(FixedRateBond, FlatRate, Analytic);
    if z in t0 {
      EquityEntriesModel(z);
    }
    if f in t0 {
      EquityEntriesModel(f);
    }
    var t1 := t0[z := ZeroCouponPricer];
    assert |t1| == 12;
    assert f !in t1;
  }

  /** The equity entries are all under the Black-Scholes model. */
  lemma EquityEntriesModel(k: RegistryKey)
    requires k in EquityEntries()
    ensures k.model == BlackScholes
  {
  }

  /** Every default entry runs its adapter with the engine named in its key. */
  lemma DefaultEnginesMatch(k: RegistryKey)
    requires k in DefaultTable()
    ensures DefaultTable()[k].VanillaPricer? ==> k.instrument == EquityVanillaOption && DefaultTable()[k].engine == k.engine
    ensures DefaultTable()[k].AmericanPricer? ==> k.instrument == EquityAmericanVanillaOption && DefaultTable()[k].engine == k.engine
    ensures DefaultTable()[k].AsianPricer? ==> k.instrument == EquityAsianOption && DefaultTable()[k].engine == k.engine
  {
  }

  /** Bonds are priced only under the flat-rate model, equity instruments only under Black-Scholes. */
  lemma DefaultModels(k: RegistryKey)
    requires k in DefaultTable()
    ensures k.instrument == ZeroCouponBond || k.instrument == FixedRateBond <==> k.model == FlatRate
  {
  }

  /** The American PDE entry exists, yet every request to it is refused as unsupported. */
  lemma AmericanPdeRefused<I>(a: Adapters<I>, input: I)
    ensures RegistryKey(EquityAmericanVanillaOption, BlackScholes, PDEFiniteDifference) in DefaultTable()
    ensures IsUnsupported(Invoke(a, DefaultTable()[RegistryKey(EquityAmericanVanillaOption, BlackScholes, PDEFiniteDifference)], input))
  {
  }
}
