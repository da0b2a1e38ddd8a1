// Welford's one-pass accumulators, as the Monte Carlo engines use them:
// a running mean and a running sum of squared deviations (`M2`), updated
// with the sample count after the sample is counted. The specification
// side defines the mean and the squared deviations of the whole sample
// directly.
module Welford {
  import opened Core

  /** The sum of a sample, accumulated from the front. */
  function Sum(xs: seq<real>): real
  {
    if |xs| == 0 then 0.0 else Sum(xs[..|xs| - 1]) + xs[|xs| - 1]
  }

  /** The arithmetic mean; an empty sample has mean 0, the accumulator's start. */
  function Mean(xs: seq<real>): real
  {
    if |xs| == 0 then 0.0 else Sum(xs) / |xs| as real
  }

  /** `sum (x - c)^2` over the sample. */
  function SquaredDeviations(xs: seq<real>, c: real): real
  {
    if |xs| == 0 then 0.0
    else SquaredDeviations(xs[..|xs| - 1], c) + (xs[|xs| - 1] - c) * (xs[|xs| - 1] - c)
  }

  /** `M2`: the squared deviations from the sample's own mean. */
  function SumSqDev(xs: seq<real>): real
  {
    SquaredDeviations(xs, Mean(xs))
  }

  /** A pair of running statistics: the mean and `M2`. */
  datatype Acc = Acc(mean: real, m2: real)

  const Empty: Acc := Acc(0.0, 0.0)

  /** What the accumulator should hold after seeing `xs`. */
  function Summary(xs: seq<real>): Acc
  {
    Acc(Mean(xs), SumSqDev(xs))
  }

  /**
   * `welford_update(x, mean, M2, n)`: move the mean by `(x - mean) / n`
   * and add the product of the deviations before and after the move.
   * `n` is the count including `x`.
   */
  function Update(a: Acc, x: real, n: nat): Acc
    requires n >= 1
  {
    var delta := x - a.mean;
    var mean := a.mean + delta / n as real;
    Acc(mean, a.m2 + delta * (x - mean))
  }

  // ---- Welford's invariant ----

  lemma SumAppend(xs: seq<real>, x: real)
    ensures Sum(xs + [x]) == Sum(xs) + x
  {
    assert (xs + [x])[..|xs|] == xs;
  }

  /** A sample that is `c` times another, entry by entry, sums to `c` times its sum. */
  lemma {:induction false} SumScaled(xs: seq<real>, ys: seq<real>, c: real)
    requires |xs| == |ys| && forall i :: 0 <= i < |xs| ==> xs[i] == c * ys[i]
    ensures Sum(xs) == c * Sum(ys)
  {
    if |xs| > 0 {
      var k := |xs| - 1;
      SumScaled(xs[..k], ys[..k], c);
      assert Sum(xs) == Sum(xs[..k]) + xs[k];
      assert Sum(ys) == Sum(ys[..k]) + ys[k];
    }
  }

  /** ... and has `c` times its mean. */
  lemma MeanScaled(xs: seq<real>, ys: seq<real>, c: real)
    requires |xs| == |ys| && forall i :: 0 <= i < |xs| ==> xs[i] == c * ys[i]
    ensures Mean(xs) == c * Mean(ys)
  {
    SumScaled(xs, ys, c);
    if |xs| > 0 {
      assert (c * Sum(ys)) / |xs| as real == c * (Sum(ys) / |ys| as real);
    }
  }

  lemma SquaredDeviationsAppend(xs: seq<real>, x: real, c: real)
    ensures SquaredDeviations(xs + [x], c) == SquaredDeviations(xs, c) + (x - c) * (x - c)
  {
    assert (xs + [x])[..|xs|] == xs;
  }

  /** `sum (x - c)^2 = sum x^2 - 2 c sum x + n c^2`, with `sum x^2` kept as the deviations from 0. */
  lemma {:induction false} SquaredDeviationsExpand(xs: seq<real>, c: real)
    ensures SquaredDeviations(xs, c) ==
            SquaredDeviations(xs, 0.0) - 2.0 * c * Sum(xs) + |xs| as real * c * c
  {
    if |xs| > 0 {
      var init, x := xs[..|xs| - 1], xs[|xs| - 1];
      SquaredDeviationsExpand(init, c);
      assert (x - c) * (x - c) == (x - 0.0) * (x - 0.0) - 2.0 * c * x + c * c;
    }
  }

  /** The squared deviations from the mean are the squares minus `n * mean^2`. */
  lemma SumSqDevClosedForm(xs: seq<real>)
    ensures SumSqDev(xs) == SquaredDeviations(xs, 0.0) - |xs| as real * Mean(xs) * Mean(xs)
  {
    var mu, n, s := Mean(xs), |xs| as real, Sum(xs);
    SquaredDeviationsExpand(xs, mu);
    if |xs| > 0 {
      assert s == n * mu;
      ClosedFormAlgebra(n, mu, s);
    }
  }

  lemma ClosedFormAlgebra(n: real, mu: real, s: real)
    requires s == n * mu
    ensures -2.0 * mu * s + n * mu * mu == -(n * mu * mu)
  {
  }

  /** One update step keeps the accumulator equal to the statistics of the sample so far. */
  lemma UpdateSummary(xs: seq<real>, x: real)
    ensures Update(Summary(xs), x, |xs| + 1) == Summary(xs + [x])
  {
    var n := |xs| as real;
    var mu := Mean(xs);
    var next := Update(Summary(xs), x, |xs| + 1);
    SumAppend(xs, x);
    assert Sum(xs) == n * mu by {
      if |xs| > 0 {
        assert Sum(xs) / n == mu;
      }
    }
    // The new mean.
    var mu' := mu + (x - mu) / (n + 1.0);
    assert (n + 1.0) * mu' == n * mu + x;
    assert mu' == Mean(xs + [x]) by {
      assert Mean(xs + [x]) == (n * mu + x) / (n + 1.0);
    }
    assert next.mean == mu';
    // The new M2.
    SumSqDevClosedForm(xs);
    SumSqDevClosedForm(xs + [x]);
    SquaredDeviationsAppend(xs, x, 0.0);
    var q := SquaredDeviations(xs, 0.0);
    assert SumSqDev(xs + [x]) == q + x * x - (n + 1.0) * mu' * mu';
    assert SumSqDev(xs) == q - n * mu * mu;
    M2Step(n, mu, mu', x);
  }

  /** The algebra of the `M2` step, given `(n + 1) mu' = n mu + x`. */
  lemma M2Step(n: real, mu: real, mu': real, x: real)
    requires (n + 1.0) * mu' == n * mu + x
    ensures x * x - (n + 1.0) * mu' * mu' + n * mu * mu == (x - mu) * (x - mu')
  {
    assert (n + 1.0) * mu' * mu' == (n * mu + x) * mu';
  }

  /** The accumulator after pushing every sample of `xs` in order, from empty. */
  function Pushed(xs: seq<real>): Acc
  {
    if |xs| == 0 then Empty else Update(Pushed(xs[..|xs| - 1]), xs[|xs| - 1], |xs|)
  }

  /** Any number of pushes from empty give the sample's mean and `M2`. */
  lemma {:induction false} PushedIsSummary(xs: seq<real>)
    ensures Pushed(xs) == Summary(xs)
  {
    if |xs| > 0 {
      var init := xs[..|xs| - 1];
      PushedIsSummary(init);
      UpdateSummary(init, xs[|xs| - 1]);
      assert init + [xs[|xs| - 1]] == xs;
    }
  }

  // ---- consequences the engines rely on ----

  lemma {:induction false} SquaredDeviationsNonNegative(xs: seq<real>, c: real)
    ensures SquaredDeviations(xs, c) >= 0.0
  {
    if |xs| > 0 {
      SquaredDeviationsNonNegative(xs[..|xs| - 1], c);
      var d := xs[|xs| - 1] - c;
      assert d * d >= 0.0;
    }
  }

  /** `M2` is never negative, so the variance the standard error takes a root of is not either. */
  lemma SumSqDevNonNegative(xs: seq<real>)
    ensures SumSqDev(xs) >= 0.0
  {
    SquaredDeviationsNonNegative(xs, Mean(xs));
  }

  lemma {:induction false} SumNonNegative(xs: seq<real>)
    requires forall i :: 0 <= i < |xs| ==> xs[i] >= 0.0
    ensures Sum(xs) >= 0.0
  {
    if |xs| > 0 {
      SumNonNegative(xs[..|xs| - 1]);
    }
  }

  lemma {:induction false} SumNonPositive(xs: seq<real>)
    requires forall i :: 0 <= i < |xs| ==> xs[i] <= 0.0
    ensures Sum(xs) <= 0.0
  {
    if |xs| > 0 {
      SumNonPositive(xs[..|xs| - 1]);
    }
  }

  /** The mean of non-negative samples is non-negative, and of non-positive ones non-positive. */
  lemma MeanSign(xs: seq<real>)
    ensures (forall i :: 0 <= i < |xs| ==> xs[i] >= 0.0) ==> Mean(xs) >= 0.0
    ensures (forall i :: 0 <= i < |xs| ==> xs[i] <= 0.0) ==> Mean(xs) <= 0.0
  {
    if forall i :: 0 <= i < |xs| ==> xs[i] >= 0.0 {
      SumNonNegative(xs);
    }
    if forall i :: 0 <= i < |xs| ==> xs[i] <= 0.0 {
      SumNonPositive(xs);
    }
  }

  /**
   * The standard error of a mean over `n` samples: 0 for fewer than two,
   * `sqrt(M2 / (n - 1) / n)` otherwise.
   */
  function StdError(m: Math, a: Acc, n: nat): real
  {
    if n > 1 then Sqrt(m, a.m2 / (n - 1) as real / n as real) else 0.0
  }

  /** Over a real sample of two or more, the standard error's radicand is a non-negative variance. */
  lemma StdErrorRadicand(xs: seq<real>)
    requires |xs| > 1
    ensures Summary(xs).m2 / (|xs| - 1) as real / |xs| as real >= 0.0
  {
    SumSqDevNonNegative(xs);
  }
}
