// What the two Monte Carlo engines share: the six per-path estimators
// (payoff, pathwise delta, likelihood-ratio vega and rho, common-random-
// number gamma and theta), the Welford accumulators they are pushed into,
// and the sign facts the price and delta inherit from their samples.
module McStats {
  import opened Core
  import opened Welford

  /** What one path (or one antithetic pair) contributes to each accumulator. */
  datatype Sample = Sample(payoff: real, delta: real, vega: real, rho: real, gamma: real, theta: real)

  // ---- the accumulators ----

  datatype Field = PayoffField | DeltaField | VegaField | RhoField | GammaField | ThetaField

  function Component(s: Sample, f: Field): real
  {
    match f
    case PayoffField => s.payoff
    case DeltaField => s.delta
    case VegaField => s.vega
    case RhoField => s.rho
    case GammaField => s.gamma
    case ThetaField => s.theta
  }

  /** One estimator's values across the samples. */
  function Column(ss: seq<Sample>, f: Field): (c: seq<real>)
    ensures |c| == |ss|
    ensures forall i :: 0 <= i < |ss| ==> c[i] == Component(ss[i], f)
  {
    seq(|ss|, i requires 0 <= i < |ss| => Component(ss[i], f))
  }

  /** The sample count and the six accumulators the results are read from. */
  datatype Stats = Stats(n: nat, payoff: Acc, delta: Acc, vega: Acc, rho: Acc, gamma: Acc, theta: Acc)

  const NoStats: Stats := Stats(0, Empty, Empty, Empty, Empty, Empty, Empty)

  /** `welford_push` and the updates that follow it: count the sample, then update each accumulator. */
  function Push(st: Stats, s: Sample): Stats
  {
    var n := st.n + 1;
    Stats(n, Update(st.payoff, s.payoff, n), Update(st.delta, s.delta, n),
          Update(st.vega, s.vega, n), Update(st.rho, s.rho, n),
          Update(st.gamma, s.gamma, n), Update(st.theta, s.theta, n))
  }

  /** What the accumulators should hold after the samples `ss`. */
  function StatsOf(ss: seq<Sample>): Stats
  {
    Stats(|ss|, Summary(Column(ss, PayoffField)), Summary(Column(ss, DeltaField)),
          Summary(Column(ss, VegaField)), Summary(Column(ss, RhoField)),
          Summary(Column(ss, GammaField)), Summary(Column(ss, ThetaField)))
  }

  lemma NoStatsIsEmpty()
    ensures StatsOf([]) == NoStats
  {
    assert Column([], PayoffField) == [];
  }

  lemma ColumnAppend(ss: seq<Sample>, s: Sample, f: Field)
    ensures Column(ss + [s], f) == Column(ss, f) + [Component(s, f)]
  {
  }

  /** One push keeps every accumulator equal to the statistics of the samples so far. */
  lemma PushStats(ss: seq<Sample>, s: Sample)
    ensures Push(StatsOf(ss), s) == StatsOf(ss + [s])
  {
    forall f: Field
      ensures Update(Summary(Column(ss, f)), Component(s, f), |ss| + 1) == Summary(Column(ss + [s], f))
    {
      ColumnAppend(ss, s, f);
      UpdateSummary(Column(ss, f), Component(s, f));
    }
    assert Push(StatsOf(ss), s).payoff == Update(Summary(Column(ss, PayoffField)), s.payoff, |ss| + 1);
  }

  /** The first `k` draws make exactly `i` whole blocks of `d` draws. */
  predicate Consumed(k: nat, i: nat, d: nat)
    decreases i
  {
    if i == 0 then k == 0 else k >= d && Consumed(k - d, i - 1, d)
  }

  lemma {:induction false} ConsumedIsProduct(k: nat, i: nat, d: nat)
    ensures Consumed(k, i, d) <==> k == i * d
    decreases i
  {
    if i > 0 {
      if k >= d {
        ConsumedIsProduct(k - d, i - 1, d);
      }
    }
  }

  /** The samples of `count` consecutive blocks of `d` draws each. */
  function Blocks(sample: seq<real> -> Sample, zs: seq<real>, d: nat, count: nat): (ss: seq<Sample>)
    requires Consumed(|zs|, count, d)
    ensures |ss| == count
    decreases count
  {
    if count == 0 then []
    else
      var k := |zs| - d;
      Blocks(sample, zs[..k], d, count - 1) + [sample(zs[k..])]
  }

  lemma {:induction false} ConsumedUnique(k: nat, k': nat, i: nat, d: nat)
    requires Consumed(k, i, d) && Consumed(k', i, d)
    ensures k == k'
    decreases i
  {
    if i > 0 {
      ConsumedUnique(k - d, k' - d, i - 1, d);
    }
  }

  /** The first `i + 1` blocks are the first `i` and the block after them. */
  lemma BlocksStep(sample: seq<real> -> Sample, zs: seq<real>, d: nat, count: nat, i: nat, k: nat)
    requires i < count && Consumed(|zs|, count, d) && Consumed(k, i, d)
    ensures k + d <= |zs| && Consumed(k + d, i + 1, d)
    ensures Blocks(sample, zs[..k + d], d, i + 1) == Blocks(sample, zs[..k], d, i) + [sample(zs[k..k + d])]
  {
    ConsumedIsProduct(k, i, d);
    ConsumedIsProduct(|zs|, count, d);
    MulMono(i + 1, count, d);
    assert k + d == (i + 1) * d;
    var front := zs[..k + d];
    assert front[..k] == zs[..k];
    assert front[k..] == zs[k..k + d];
  }

  /** The accumulators over the first `i + 1` blocks: those over the first `i`, then block `i` pushed. */
  lemma PushedStep(sample: seq<real> -> Sample, zs: seq<real>, d: nat, count: nat, i: nat, k: nat, st: Stats, s: Sample)
    requires i < count && Consumed(|zs|, count, d) && Consumed(k, i, d) && k + d <= |zs|
    requires st == PushAll(NoStats, Blocks(sample, zs[..k], d, i)) && s == sample(zs[k..k + d])
    ensures Consumed(k + d, i + 1, d)
    ensures Push(st, s) == PushAll(NoStats, Blocks(sample, zs[..k + d], d, i + 1))
  {
    BlocksStep(sample, zs, d, count, i, k);
    PushAllStep(NoStats, Blocks(sample, zs[..k], d, i), s);
  }

  /** Once all `count` blocks are consumed, the prefix read so far is the whole run. */
  lemma PushedAll(sample: seq<real> -> Sample, zs: seq<real>, d: nat, count: nat, k: nat, st: Stats)
    requires Consumed(|zs|, count, d) && Consumed(k, count, d) && k <= |zs|
    requires st == PushAll(NoStats, Blocks(sample, zs[..k], d, count))
    ensures k == |zs| && st == PushAll(NoStats, Blocks(sample, zs, d, count))
  {
    ConsumedUnique(k, |zs|, count, d);
    assert zs[..k] == zs;
  }

  lemma MulMono(a: nat, b: nat, d: nat)
    requires a <= b
    ensures a * d <= b * d
  {
  }

  /** The accumulators after pushing the samples `ss` in order onto `st`. */
  function PushAll(st: Stats, ss: seq<Sample>): Stats
  {
    if |ss| == 0 then st else Push(PushAll(st, ss[..|ss| - 1]), ss[|ss| - 1])
  }

  /** Pushing one more sample after the others. */
  lemma PushAllStep(st: Stats, ss: seq<Sample>, s: Sample)
    ensures PushAll(st, ss + [s]) == Push(PushAll(st, ss), s)
  {
    assert (ss + [s])[..|ss|] == ss;
  }

  lemma {:induction false} PushAllAppend(st: Stats, a: seq<Sample>, b: seq<Sample>)
    ensures PushAll(PushAll(st, a), b) == PushAll(st, a + b)
  {
    if |b| > 0 {
      var init := b[..|b| - 1];
      PushAllAppend(st, a, init);
      assert (a + b)[..|a + b| - 1] == a + init;
    } else {
      assert a + b == a;
    }
  }

  /** Pushing any samples from empty gives their statistics. */
  lemma {:induction false} PushAllIsStatsOf(ss: seq<Sample>)
    ensures PushAll(NoStats, ss) == StatsOf(ss)
  {
    if |ss| == 0 {
      NoStatsIsEmpty();
    } else {
      var init := ss[..|ss| - 1];
      PushAllIsStatsOf(init);
      PushStats(init, ss[|ss| - 1]);
      assert init + [ss[|ss| - 1]] == ss;
    }
  }

  /** A sample with a non-negative payoff and a delta of the option's sign. */
  predicate Signed(s: Sample, t: OptionType)
  {
    s.payoff >= 0.0 && (t == Call ==> s.delta >= 0.0) && (t == Put ==> s.delta <= 0.0)
  }

  /** Scaling by a positive factor keeps a quotient's sign. */
  lemma ScaledQuotient(a: real, b: real, e: real)
    requires e > 0.0 && (GuardedQuotient(a, b) >= 0.0 || a == b)
    ensures GuardedQuotient(a * e, b) >= 0.0
  {
    if b != 0.0 {
      assert (a * e) / b == (a / b) * e;
      assert a == b ==> a / b == 1.0;
    }
  }

  /** The mean of a column of signed samples has the sign of its entries. */
  lemma ColumnSigns(ss: seq<Sample>, t: OptionType)
    requires forall i :: 0 <= i < |ss| ==> Signed(ss[i], t)
    ensures Mean(Column(ss, PayoffField)) >= 0.0
    ensures t == Call ==> Mean(Column(ss, DeltaField)) >= 0.0
    ensures t == Put ==> Mean(Column(ss, DeltaField)) <= 0.0
  {
    MeanSign(Column(ss, PayoffField));
    MeanSign(Column(ss, DeltaField));
  }
}
