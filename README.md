# quant-modeling option pricing, modelled in Dafny

This project models the pricing core of the quant-modeling library and the two
stateful helpers of its web API.

**Pricing engines.** Each engine visits an instrument and either fills a
`PricingResult` or raises `InvalidInput` / `UnsupportedInstrument`. The engines
modelled are:

- the closed-form Black-Scholes engine for European vanilla options;
- the closed-form engines for Asian options (Turnbull-Wakeman moment matching
  for the arithmetic average, Kemna-Vorst for the geometric one);
- the Cox-Ross-Rubinstein binomial tree and the Boyle trinomial tree
  (European and American exercise);
- the Crank-Nicolson PDE engine with its Thomas tridiagonal solver;
- the Monte Carlo engines for vanilla and Asian options. These come with the
  PCG32 generator, the Box-Muller normal sampler, the antithetic wrapper and
  Welford's running statistics;
- the flat-rate bond engines for zero-coupon and fixed-rate bonds, and the
  equity-future engine;
- the piecewise log-linear discount curve, the finite-difference Greek helpers
  and the registry that maps an instrument, model and engine kind to a pricer.

**Web API helpers.** The time-to-live cache and the market-rates router's
interpolation and forward-curve functions.

**How the model is written.**

- An engine run is a function from the pricing context and the instrument to a
  `Result<PricingResult>`.
- Where the library computes with loops over vectors, the model has a method
  with the same loops. It is proved equal to that function.
- Elementary functions are fields of a `Math` record passed as a parameter:
  `exp`, `log`, `sqrt`, the normal distribution function and density, `cos`
  and `sin`. Each lemma requires only the laws of those functions it uses, for
  example that `exp` is positive, additive or monotone.
- Integers are unbounded. Machine arithmetic is written out where the library
  relies on it: the 64-bit PCG state, the 32-bit output, truncating casts and
  `std::round`.


## Model

| member | source | states |
|---|---|---|
| Core.NpvOnly | include/quantModeling/core/results.hpp:20-25 | a result holding only a present value has no Greeks and a zero standard error |
| Core.Truncate | src/engines/mc/asian.cpp:30 | `static_cast<int>` truncates toward zero: the result is the floor for non-negative inputs and minus the floor of the negation otherwise, and lies within one of the input toward zero |
| Core.TruncateMonotone | src/engines/mc/asian.cpp:92-93 | truncation is monotone, so the bumped maturities never have fewer dates in the wrong direction |
| Core.Round | src/engines/analytic/bonds.cpp:37 | `std::round` lands within one half of its argument, is non-negative for non-negative arguments, and rounds a half away from zero |
| Instruments.EuropeanExercise | include/quantModeling/instruments/base.hpp:24-31 | a European exercise has kind European and the single date given |
| Instruments.AmericanExercise | src/pricers/adapters/equity_vanilla_american.cpp:20-21 | an American exercise has kind American and the single date given |
| Instruments.Unsupported | src/engines/base.cpp:14-17 | an engine's refusal of a foreign instrument is an `UnsupportedInstrument` error |
| Instruments.PayoffNonNegative | include/quantModeling/instruments/equity/vanilla.hpp:34-38 | every payoff is non-negative and pays nothing at the strike |
| Instruments.CallPutPayoffParity | include/quantModeling/instruments/equity/vanilla.hpp:34-38 | call payoff minus put payoff is `x - K` |
| Instruments.CallPayoffValue | include/quantModeling/instruments/equity/vanilla.hpp:35-36 | a call pays `x - K` above the strike and nothing at or below it |
| Instruments.PutPayoffValue | include/quantModeling/instruments/equity/vanilla.hpp:37 | a put pays `K - x` below the strike and nothing at or above it |
| Instruments.PayoffKindIrrelevant | include/quantModeling/instruments/equity/asian.hpp:53-58 | the arithmetic, geometric and plain vanilla payoffs are the same function of the (averaged) spot |
| Instruments.PayoffMonotone | include/quantModeling/instruments/equity/vanilla.hpp:34-38 | calls are non-decreasing and puts non-increasing in the spot |
| Instruments.OptionDefaults | include/quantModeling/instruments/equity/asian.hpp:24-26 | options default to notional 1 and Asian options to the arithmetic average, keeping the payoff and exercise given |
| Pricing.CheckModelPresent | src/engines/base.cpp:5-8 | construction passes exactly when the context has a model, and otherwise fails with "PricingContext.model is null" |
| Pricing.RequireModel | include/quantModeling/engines/base.hpp:24-35 | the model is returned exactly when it implements the interface; otherwise InvalidInput names the engine and the model |
| Pricing.EquityInterfacesNeedBlackScholes | include/quantModeling/models/equity/black_scholes.hpp:17-33 | every equity interface is served by the Black-Scholes model and only by it; the flat-rate interface only by the flat-rate model |
| Pricing.InterfacesExclusive | include/quantModeling/models/rates/flat_rate.hpp:11-24 | no model implements both the local-volatility and the flat-rate interface; local volatility and Black-Scholes go together |
| Validation.ValidateVanilla | src/engines/pde/european_vanilla.cpp:291-313 | the checks pass exactly for a valid option; only the exercise-type check is an UnsupportedInstrument error, and it fires exactly for a non-European option when the engine is European-only |
| Validation.ValidateEuropean | src/engines/analytic/black_scholes.cpp:91-113 | the analytic and Monte Carlo vanilla checks pass exactly for a valid European option, and fail as unsupported exactly for a non-European one |
| Validation.ValidateAsian | src/engines/analytic/asian.cpp:299-321 | the Asian checks pass exactly for a present payoff and a European exercise with one date, and fail as unsupported exactly for a non-European one |
| EngineCommon.Validate | src/engines/tree/binomial.cpp:235-253 | the tree checks pass exactly for a valid option of either exercise style, and every failure is InvalidInput |
| EngineCommon.ThetaStepIsStep | src/engines/tree/binomial.cpp:177-179 | the theta tree's step `(T - T/n)/(n - 1)` equals the main tree's step `T/n` |
| EngineCommon.NotionalScales | src/engines/tree/binomial.cpp:79 | scaling by a positive notional keeps the order of tree values |
| Binomial.Rollback | src/engines/tree/binomial.cpp:45-76 | rolling the vector of leaves back in place leaves in slot 0 the root of the two-level recurrence |
| Binomial.ContinuationNonNegative | src/engines/tree/binomial.cpp:63 | the discounted expectation of non-negative children is non-negative |
| Binomial.NodeNonNegative | src/engines/tree/binomial.cpp:45-76 | with a probability in [0,1] every node of the tree is non-negative |
| Binomial.ContinuationMonotone | src/engines/tree/binomial.cpp:63 | the continuation is monotone in both children |
| Binomial.SameContinuation | src/engines/tree/binomial.cpp:63 | the continuation depends only on the probability and the discount |
| Binomial.AmericanNodeDominates | src/engines/tree/binomial.cpp:66-74 | node by node, the American tree is worth at least the European one |
| Binomial.AmericanNodeBounds | src/engines/tree/binomial.cpp:66-70 | an American node is at least its continuation and at least its exercise value |
| Binomial.CrrTree | src/engines/tree/binomial.cpp:33-40 | the CRR tree has `u > 0`, `d = 1/u`, `u != d`, `p (u - d) = a - d` and a positive discount `e^(-r dt)` |
| Binomial.Setup | src/engines/tree/binomial.cpp:18-43 | a built tree comes from a valid option and the Black-Scholes model, has a probability in [0,1] and the model's spot, steps and payoff; every failure is InvalidInput |
| Binomial.RunSensitivities | src/engines/tree/binomial.cpp:85-210 | the Greeks computed by rolling back the bumped trees in place are the Greeks of the bumped recurrences |
| Binomial.Run | src/engines/tree/binomial.cpp:11-233 | the engine run, with every tree rolled back in place, gives the result of the engine's specification |
| Binomial.PriceErrors | src/engines/tree/binomial.cpp:11-16 | a missing model and fewer than one step are InvalidInput, a non-vanilla instrument is unsupported, a failed vanilla visit is InvalidInput, a priced one was valid |
| Binomial.PriceShape | src/engines/tree/binomial.cpp:85-210 | a priced option has no rho and no standard errors, delta and gamma exactly when the spot is non-zero, theta exactly when there is more than one step |
| Binomial.PriceNpv | src/engines/tree/binomial.cpp:79 | the present value is the notional times the root of the tree |
| Binomial.VanillaOfSetup | src/engines/tree/binomial.cpp:78-210 | once the tree is set up, the visit's result is the scaled root with the Greeks of the bumped trees |
| Binomial.PriceNonNegative | src/engines/tree/binomial.cpp:42-79 | past the probability guard, a vanilla price is never negative |
| Binomial.SetupAmerican | src/engines/tree/binomial.cpp:30 | the exercise style only switches the tree's early-exercise flag |
| Binomial.AmericanAtLeastEuropean | src/engines/tree/binomial.cpp:66-74 | the same option priced American is priced and worth at least the European price |
| Trinomial.InPlaceSweep | src/engines/tree/trinomial.cpp:52-85 | the library's in-place sweep returns the root of the as-written recurrence, in which the down child is the value just overwritten |
| Trinomial.SweepLevel | src/engines/tree/trinomial.cpp:64-84 | one level of the library's sweep overwrites the level's slots with the as-written recurrence, reading the level below from the slots |
| Trinomial.Rollback | src/engines/tree/trinomial.cpp:52-85 | the corrected in-place sweep, which keeps the old value below aside, returns the root of Boyle's three-child recurrence |
| Trinomial.RollLevel | src/engines/tree/trinomial.cpp:64-84 | one level of the corrected sweep overwrites the level's slots with Boyle's recurrence |
| Trinomial.ContinuationNonNegative | src/engines/tree/trinomial.cpp:72 | the discounted expectation of non-negative children with non-negative weights is non-negative |
| Trinomial.NodeNonNegative | src/engines/tree/trinomial.cpp:52-85 | with non-negative weights every node is non-negative |
| Trinomial.SweptNonNegative | src/engines/tree/trinomial.cpp:52-85 | the as-written sweep is non-negative too |
| Trinomial.ContinuationMonotone | src/engines/tree/trinomial.cpp:72 | the continuation is monotone in all three children |
| Trinomial.SameContinuation | src/engines/tree/trinomial.cpp:72 | the continuation depends only on the three probabilities and the discount |
| Trinomial.SweptAmericanDominates | src/engines/tree/trinomial.cpp:64-84 | node by node, the library's sweep of the American tree is worth at least its sweep of the European one |
| Trinomial.AmericanNodeDominates | src/engines/tree/trinomial.cpp:75-83 | node by node, the American tree is worth at least the European one, both in the library's sweep and in Boyle's recurrence |
| Trinomial.AmericanNodeBounds | src/engines/tree/trinomial.cpp:75-80 | an American node is at least its continuation and at least its exercise value |
| Trinomial.InPlaceSweepDiffers | src/engines/tree/trinomial.cpp:72 | on a two-step European call the as-written sweep gives 64/27 where Boyle's recurrence gives 60/27 |
| Trinomial.ExampleBoyleRoot | src/engines/tree/trinomial.cpp:64-84 | on the two-step example call, Boyle's recurrence values the root at 60/27 |
| Trinomial.ExampleSweptRoot | src/engines/tree/trinomial.cpp:64-84 | on the same call, the in-place sweep as written values the root at 64/27 |
| Trinomial.BoyleTree | src/engines/tree/trinomial.cpp:36-47 | the probabilities sum to 1 and match the mean and second moment of the log-spot step; `u = e^dx`; the discount is `e^(-r dt)`; a tree exists exactly when `dx != 0` |
| Trinomial.Setup | src/engines/tree/trinomial.cpp:18-50 | a built tree comes from a valid option and the Black-Scholes model, has every probability in [0,1] and the model's spot, steps and payoff; every failure is InvalidInput |
| Trinomial.VegaTree | src/engines/tree/trinomial.cpp:153-161 | the volatility-bumped tree has a positive up factor |
| Trinomial.ThetaTree | src/engines/tree/trinomial.cpp:190-201 | the tree with one step less has a positive up factor |
| Trinomial.RunSensitivities | src/engines/tree/trinomial.cpp:93-229 | the Greeks computed by sweeping the bumped trees in place are the Greeks of the library's sweep of the bumped trees |
| Trinomial.Run | src/engines/tree/trinomial.cpp:11-252 | the engine run, with every tree swept in place as the library does, gives the result of the engine's specification, which values each tree by the as-written sweep |
| Trinomial.PriceErrors | src/engines/tree/trinomial.cpp:11-16 | a missing model and fewer than one step are InvalidInput, a non-vanilla instrument is unsupported, a failed vanilla visit is InvalidInput, a priced one was valid |
| Trinomial.VanillaOfSetup | src/engines/tree/trinomial.cpp:86-229 | once the tree is set up, the visit's result is the scaled root of the library's sweep with the Greeks of the bumped trees |
| Trinomial.PriceShape | src/engines/tree/trinomial.cpp:149-229 | a priced option has no rho and no standard errors, delta and gamma exactly when the spot is non-zero, theta exactly when there is more than one step |
| Trinomial.PriceNpv | src/engines/tree/trinomial.cpp:88 | the present value is the notional times the root of the library's sweep |
| Trinomial.PriceNonNegative | src/engines/tree/trinomial.cpp:49-88 | past the probability guard, a vanilla price from the library's sweep is never negative |
| Trinomial.SetupAmerican | src/engines/tree/trinomial.cpp:18-50 | the exercise style only switches the tree's early-exercise flag |
| Trinomial.AmericanAtLeastEuropean | src/engines/tree/trinomial.cpp:75-83 | the same option priced American is priced and, with the library's sweep, worth at least the European price |
| Tridiagonal.Solve | src/engines/pde/european_vanilla.cpp:315-344 | the Thomas solver returns a fresh vector equal to the forward-sweep and back-substitution solution of the system |
| Tridiagonal.ForwardSweep | src/engines/pde/european_vanilla.cpp:327-336 | the sweep fills `c*` and `d*` with each row's eliminated coefficients |
| Tridiagonal.BackSubstitute | src/engines/pde/european_vanilla.cpp:338-343 | back substitution from the last row up yields the solution |
| Tridiagonal.InteriorRow | src/engines/pde/european_vanilla.cpp:333-342 | for an interior row, elimination and back substitution satisfy `a x[i-1] + b x[i] + c x[i+1] = d` |
| Tridiagonal.LastRow | src/engines/pde/european_vanilla.cpp:339 | the last row, which has no super-diagonal, is satisfied |
| Tridiagonal.FirstRow | src/engines/pde/european_vanilla.cpp:328-329 | the first row, which has no sub-diagonal, is satisfied |
| Tridiagonal.PivotFacts | src/engines/pde/european_vanilla.cpp:333-335 | pivot times `c*` is `c`, and pivot times `d*` is `d` minus the sub-diagonal times the previous `d*` |
| Tridiagonal.ThomasSolves | src/engines/pde/european_vanilla.cpp:315-344 | when every pivot is non-zero, the Thomas solution satisfies every equation of the system |
| Tridiagonal.UnitEndRows | src/engines/pde/european_vanilla.cpp:113-116 | unit boundary rows pin the first and last unknowns to the right-hand side |
| Pde.MakeScheme | src/engines/pde/european_vanilla.cpp:36-71 | the grid is well shaped, `N dt = T`, the implicit off-diagonals sum to `-alpha lambda` and an implicit row sums to `1 + r dt / 2` |
| Pde.FillRhs | src/engines/pde/european_vanilla.cpp:82-102 | the right-hand side vector is refilled with the explicit step inside and the boundary values at the ends |
| Pde.FillMatrix | src/engines/pde/european_vanilla.cpp:105-116 | the three diagonals are refilled with the implicit coefficients and the unit boundary rows |
| Pde.Backward | src/engines/pde/european_vanilla.cpp:58-121 | the backward time loop leaves the values of the recursive Crank-Nicolson specification at step 0 |
| Pde.ValuesStep | src/engines/pde/european_vanilla.cpp:79-121 | each level is one step back from the level after it |
| Pde.Load | src/engines/pde/european_vanilla.cpp:58-61 | the terminal values are a fresh copy of the payoff vector |
| Pde.StepOnce | src/engines/pde/european_vanilla.cpp:82-120 | one loop iteration produces the next level as a fresh vector and leaves the unused corners `a[0]`, `c[M]` zero |
| Pde.LeftNode | src/engines/pde/european_vanilla.cpp:137-140 | the truncated index is the grid node at or left of `x0`, below the last node |
| Pde.Weight | src/engines/pde/european_vanilla.cpp:141 | the right neighbour's weight lies in [0, 1) |
| Pde.InterpolationBetweenNeighbours | src/engines/pde/european_vanilla.cpp:135-143 | inside the grid the value lies between the two neighbouring node values |
| Pde.InterpolationClamps | src/engines/pde/european_vanilla.cpp:127-134 | outside the grid the value is clamped to the nearer end |
| Pde.InterpolationAtNode | src/engines/pde/european_vanilla.cpp:124-143 | at a grid node the interpolation returns that node's value |
| Pde.PivotOppositeSigns | src/engines/pde/european_vanilla.cpp:333 | when the off-diagonals have opposite signs, the next pivot is at least the diagonal |
| Pde.PivotBothNegative | src/engines/pde/european_vanilla.cpp:333 | when both off-diagonals are negative, the next pivot is at least `mid + lo` |
| Pde.InteriorPivot | src/engines/pde/european_vanilla.cpp:105-110 | every interior pivot of the implicit matrix is positive, with the two bounds above |
| Pde.CrankNicolsonSolvable | src/engines/pde/european_vanilla.cpp:105-119 | the implicit matrix is non-singular whenever its rows sum to a positive `1 + r dt / 2` |
| Pde.StepBoundaries | src/engines/pde/european_vanilla.cpp:92-102 | every step pins the ends to the boundary values: 0 and `S_M - K df` for a call, `K df` and 0 for a put |
| Pde.ValuesBoundaries | src/engines/pde/european_vanilla.cpp:92-102 | every level before maturity carries the boundary values at its ends |
| Pde.ValuesSolveSystem | src/engines/pde/european_vanilla.cpp:119 | each level solves the implicit system for the right-hand side built from the level after it |
| Pde.Validate | src/engines/pde/european_vanilla.cpp:291-313 | the checks pass exactly for a valid European option, and fail as unsupported exactly for a non-European one |
| Pde.MainScheme | src/engines/pde/european_vanilla.cpp:31-71 | the main solve's scheme uses the option's strike, type and maturity with `N dt = T` and the model's rates |
| Pde.BumpedScheme | src/engines/pde/european_vanilla.cpp:176 | a re-solve at a bumped spot only scales the call's upper boundary by `spot / S0` |
| Pde.EdgeKeepsMatrix | src/engines/pde/european_vanilla.cpp:183-192 | the boundary data leave the implicit matrix and its solvability unchanged |
| Pde.Setup | src/engines/pde/european_vanilla.cpp:22-71 | a built scheme comes from a valid European option and the Black-Scholes model, is solvable and is the main scheme; the error is unsupported exactly for a non-European option |
| Pde.RunBumped | src/engines/pde/european_vanilla.cpp:154-208 | a re-solve at a bumped spot, run through the time loop, gives the specification's bumped value |
| Pde.RunSensitivities | src/engines/pde/european_vanilla.cpp:151-266 | the delta and gamma from the two looped re-solves are those of the specification |
| Pde.VanillaOfSetup | src/engines/pde/european_vanilla.cpp:124-268 | once the scheme is set up, the visit's result is the notional times the interpolated centre value, with the re-solve Greeks |
| Pde.Run | src/engines/pde/european_vanilla.cpp:11-289 | the engine run, with every grid stepped by the loop, gives the result of the engine's specification |
| Pde.PriceErrors | src/engines/pde/european_vanilla.cpp:11-20 | a missing model or fewer than 2 space steps or 1 time step is InvalidInput, a non-vanilla instrument is unsupported, a vanilla one is unsupported exactly when it is American, a priced one was valid |
| Pde.PriceShape | src/engines/pde/european_vanilla.cpp:145-266 | a priced option has delta and gamma exactly when the spot is non-zero, and no vega, theta, rho or standard errors |
| Pde.NonNegativeRateSolvable | src/engines/pde/european_vanilla.cpp:105-119 | with a non-negative rate a valid option always gets past setup |
| Welford.SumAppend | src/engines/mc/black_scholes.cpp:75-81 | the running sum of a sample grows by the new value |
| Welford.SumScaled | src/engines/mc/black_scholes.cpp:292-322 | a sample scaled entry by entry by `c` sums to `c` times the sum |
| Welford.MeanScaled | src/engines/mc/black_scholes.cpp:292-322 | a sample scaled by `c` has `c` times the mean, so scaling every path by the notional scales the estimate |
| Welford.SquaredDeviationsAppend | src/engines/mc/black_scholes.cpp:75-81 | the squared deviations from a fixed centre grow by the new square |
| Welford.SquaredDeviationsExpand | src/engines/mc/black_scholes.cpp:75-81 | `sum (x - c)^2 = sum x^2 - 2 c sum x + n c^2` |
| Welford.SumSqDevClosedForm | src/engines/mc/black_scholes.cpp:75-81 | `M2` is the sum of squares minus `n` times the squared mean |
| Welford.UpdateSummary | src/engines/mc/black_scholes.cpp:75-81 | one `welford_update` turns the mean and `M2` of a sample into those of the sample with one more value |
| Welford.M2Step | src/engines/mc/black_scholes.cpp:77-80 | the `M2` increment is the product of the deviations before and after the mean moves |
| Welford.PushedIsSummary | src/engines/mc/black_scholes.cpp:83-88 | any number of pushes from empty give the sample's exact mean and `M2` |
| Welford.SquaredDeviationsNonNegative | src/engines/mc/black_scholes.cpp:80 | squared deviations are never negative |
| Welford.SumSqDevNonNegative | src/engines/mc/black_scholes.cpp:276-282 | `M2` is never negative |
| Welford.SumNonNegative | src/engines/mc/black_scholes.cpp:285 | a sample of non-negative values has a non-negative sum |
| Welford.SumNonPositive | src/engines/mc/black_scholes.cpp:295 | a sample of non-positive values has a non-positive sum |
| Welford.MeanSign | src/engines/mc/black_scholes.cpp:285-295 | the mean of non-negative values is non-negative, and of non-positive ones non-positive |
| Welford.StdErrorRadicand | src/engines/mc/black_scholes.cpp:276-286 | for two or more samples the standard error's radicand `M2 / (n - 1) / n` is non-negative |
| McStats.Column | src/engines/mc/black_scholes.cpp:137-145 | one estimator's column has one entry per sample, holding that sample's component |
| McStats.NoStatsIsEmpty | src/engines/mc/black_scholes.cpp:49-73 | the accumulators start as the statistics of no samples |
| McStats.ColumnAppend | src/engines/mc/black_scholes.cpp:137-145 | one more sample adds its component to every column |
| McStats.PushStats | src/engines/mc/black_scholes.cpp:122-145 | one push keeps every accumulator equal to the statistics of the samples so far |
| McStats.ConsumedIsProduct | src/engines/mc/black_scholes.cpp:154-156 | after `i` blocks of `d` draws exactly `i * d` draws have been consumed |
| McStats.Blocks | src/engines/mc/black_scholes.cpp:154-224 | `count` consecutive blocks of draws give `count` samples |
| McStats.ConsumedUnique | src/engines/mc/black_scholes.cpp:154-156 | the number of draws consumed by `i` blocks is unique |
| McStats.BlocksStep | src/engines/mc/black_scholes.cpp:154-224 | the first `i + 1` blocks are the first `i` followed by the block after them |
| McStats.PushedStep | src/engines/mc/black_scholes.cpp:154-224 | pushing the next block's sample gives the accumulators over one more block |
| McStats.PushedAll | src/engines/mc/black_scholes.cpp:154-224 | once every block is consumed, the accumulators are those of the whole run |
| McStats.PushAllStep | src/engines/mc/black_scholes.cpp:83-88 | pushing one more sample after the others |
| McStats.PushAllAppend | src/engines/mc/black_scholes.cpp:226-273 | pushing two runs in turn is pushing their concatenation, as the odd path after the pairs |
| McStats.PushAllIsStatsOf | src/engines/mc/black_scholes.cpp:83-145 | pushing any samples from empty gives their statistics |
| McStats.ScaledQuotient | src/engines/mc/black_scholes.cpp:106 | scaling by a positive factor keeps the sign of a quotient |
| McStats.ColumnSigns | src/engines/mc/black_scholes.cpp:103-111 | over signed samples, the mean payoff is non-negative and the mean delta has the option's sign |
| McVanilla.Batch | src/engines/mc/black_scholes.cpp:94-146 | one loop over the draws produces exactly one sample per draw, in order |
| McVanilla.BatchAppend | src/engines/mc/black_scholes.cpp:94-146 | one more draw appends one more sample |
| McVanilla.Accumulate | src/engines/mc/black_scholes.cpp:94-146 | a path loop leaves the accumulators holding every sample of the normals it drew pushed in order, and leaves the generators in the state after those draws |
| McVanilla.Simulate | src/engines/mc/black_scholes.cpp:91-274 | the path loops push the pairs and then the odd path (or the plain paths) of the generator's normals, and leave the generators after exactly that many draws |
| McVanilla.Draws | src/engines/mc/black_scholes.cpp:96 | a run draws exactly as many normals as it pushes samples |
| McVanilla.RunVanilla | src/engines/mc/black_scholes.cpp:8-326 | the vanilla visit with the generator objects gives the result of the engine's specification |
| McVanilla.RunSimulation | src/engines/mc/black_scholes.cpp:20-323 | the generator set-up, the path loops and the estimates give the simulation of the engine's specification |
| McVanilla.Run | src/engines/mc/black_scholes.cpp:8-374 | the engine run gives the result of the engine's specification |
| McVanilla.PairIsAverage | src/engines/mc/black_scholes.cpp:154-224 | an antithetic pair's sample is, estimator by estimator, the average of the plain paths of `z` and `-z` |
| McVanilla.GammaLinear | src/engines/mc/black_scholes.cpp:211 | gamma of pair-averaged payoffs is the average of the two gammas |
| McVanilla.ThetaLinear | src/engines/mc/black_scholes.cpp:212 | theta of pair-averaged payoffs is the average of the two thetas |
| McVanilla.SampleCount | src/engines/mc/black_scholes.cpp:151-152 | standard mode draws one normal per path, antithetic mode `(paths + 1) / 2`, and a negative count runs no path except an odd one |
| McVanilla.PathModelSignPreserving | src/engines/mc/black_scholes.cpp:29-46 | the forward-moved spot is the initial spot times a positive exponential, and the discount factors are positive |
| McVanilla.SpotRatio | src/engines/mc/black_scholes.cpp:106 | every terminal spot is a non-negative multiple of the initial spot |
| McVanilla.PathwiseDeltaSign | src/engines/mc/black_scholes.cpp:103-111 | the pathwise delta is non-negative for a call and non-positive for a put |
| McVanilla.PathSigned | src/engines/mc/black_scholes.cpp:97-111 | every plain path and every pair pays a non-negative amount with a delta of the option's sign |
| McVanilla.SamplesSigned | src/engines/mc/black_scholes.cpp:91-274 | every sample of a run is signed |
| McVanilla.PriceSigns | src/engines/mc/black_scholes.cpp:284-295 | a priced option has a non-negative npv, and a delta that is non-negative for a call and non-positive for a put |
| McVanilla.SimulatedSigns | src/engines/mc/black_scholes.cpp:284-295 | the simulation of a valid option has a non-negative npv and a delta of the option's sign |
| McVanilla.EstimatesSigns | src/engines/mc/black_scholes.cpp:284-295 | signed samples give a non-negative price and a delta of the option's sign |
| McVanilla.GreeksPresent | src/engines/mc/black_scholes.cpp:288-323 | theta is always reported; delta and gamma exactly when the spot is non-zero; vega and rho exactly when the volatility is; each with its standard error |
| McVanilla.FewSamplesNoError | src/engines/mc/black_scholes.cpp:276-286 | with fewer than two samples every standard error is 0 |
| McVanilla.PriceErrors | src/engines/mc/black_scholes.cpp:328-374 | a missing model is "PricingContext.model is null", a non-vanilla instrument is unsupported, an American option is unsupported |
| McVanilla.PriceAccepts | src/engines/mc/black_scholes.cpp:328-352 | the engine prices only valid European vanilla options under the Black-Scholes model |
| McVanilla.RejectsOthers | src/engines/mc/black_scholes.cpp:354-374 | an Asian option, a future or a bond is refused as unsupported |
| McVanilla.RejectsAmerican | src/engines/mc/black_scholes.cpp:334-338 | American exercise is refused as unsupported |
| McAsian.DateCount | src/engines/mc/asian.cpp:31 | the number of monitoring dates is at least one and, above one, is `T * 252` rounded half up, within half a date of the daily count |
| McAsian.DateCountMonotone | src/engines/mc/asian.cpp:31 | a longer maturity never has fewer monitoring dates |
| McAsian.LaterLegLongest | src/engines/mc/asian.cpp:89-93 | the maturity a day later has the most dates, so a path takes that leg's count of draws; the earlier maturity is at least `1e-8` |
| McAsian.MaxDates | src/engines/mc/asian.cpp:139 | a path draws as many normals as its longest leg needs: at least each leg's count and equal to one of them |
| McAsian.Prefix | src/engines/mc/asian.cpp:143-166 | a leg reads the leading draws of the path, as many as it has dates |
| McAsian.PathSamples | src/engines/mc/asian.cpp:125-244 | a run of `count` paths gives `count` samples |
| McAsian.WalkAppend | src/engines/mc/asian.cpp:145-149 | one more draw moves the spot one step and adds the spot (or its logarithm) to the total |
| McAsian.PrefixStep | src/engines/mc/asian.cpp:143-166 | a leg steps on a draw only while it still has dates; afterwards its state stays put |
| McAsian.StepLeg | src/engines/mc/asian.cpp:143-166 | one date of one leg steps spot and total exactly when the date index is below the leg's count, and otherwise changes nothing |
| McAsian.AdvanceLeg | src/engines/mc/asian.cpp:143-166 | a leg's state after one more draw is the walk over its leading draws one draw longer |
| McAsian.StepLegs | src/engines/mc/asian.cpp:140-167 | one date of the three legs gives the three walks over one more draw |
| McAsian.WalkPath | src/engines/mc/asian.cpp:128-167 | the date loop leaves the three legs at their walks over the path's draws and the generator after exactly those draws |
| McAsian.DrawOfRun | src/engines/mc/asian.cpp:142 | each call of the antithetic wrapper returns the next draw of its run |
| McAsian.SimulatePath | src/engines/mc/asian.cpp:127-243 | one path's estimators are those of its draws, and the generator moves on by exactly `MaxDates` draws |
| McAsian.SimulateBlock | src/engines/mc/asian.cpp:127-243 | the path whose draws start at position `k` gives the sample of that block of draws |
| McAsian.SimulateNext | src/engines/mc/asian.cpp:125-244 | one turn of the path loop pushes the sample of the next block and moves the generator past it |
| McAsian.Simulate | src/engines/mc/asian.cpp:125-244 | the path loop leaves the accumulators holding the samples of the consecutive blocks of draws, in order, and the generator after all of them |
| McAsian.SimulatedDraws | src/engines/mc/asian.cpp:125-142 | a run draws `mc_paths * MaxDates` normals |
| McAsian.SimulateSeeded | src/engines/mc/asian.cpp:33-35 | the factory, stream and wrapper set up from the settings give the accumulators of the engine's specification |
| McAsian.RunAsian | src/engines/mc/asian.cpp:15-296 | the Asian visit with the generator objects gives the result of the engine's specification |
| McAsian.Run | src/engines/mc/asian.cpp:15-421 | the engine run gives the result of the engine's specification |
| McAsian.SimulateLeg | src/engines/mc/asian.cpp:298-409 | the single-leg helpers return the payoff of the leg's average over their draws, and that average, and leave the generator after `numDates` draws |
| McAsian.SigmaScore | src/engines/mc/asian.cpp:225-234 | the volatility score is 0 at a volatility of at most `1e-10` |
| McAsian.RateScore | src/engines/mc/asian.cpp:225-234 | the rate score is 0 at a volatility of at most `1e-10` |
| McAsian.WalkSpot | src/engines/mc/asian.cpp:145 | after `k` draws the spot is `S0 growth^k exp(volStep (z_1 + ... + z_k))` |
| McAsian.WalkStep | src/engines/mc/asian.cpp:145 | the spot after the draws is the spot after all but the last moved on by the last |
| McAsian.WalkPositive | src/engines/mc/asian.cpp:145-149 | from a positive spot every spot stays positive and the arithmetic running sum non-negative |
| McAsian.AverageNonNegative | src/engines/mc/asian.cpp:172-183 | from a positive spot both averages are non-negative and the geometric one positive |
| McAsian.AverageDeltaSign | src/engines/mc/asian.cpp:190-198 | the pathwise delta is non-negative for a call and non-zero only above the strike; non-positive for a put and non-zero only below it |
| McAsian.AsianModelSignPreserving | src/engines/mc/asian.cpp:82-112 | the engine's discount factors and growth factors are positive for any non-negative spot |
| McAsian.PathSigned | src/engines/mc/asian.cpp:185-200 | every path pays a non-negative amount and has a delta of the option's sign |
| McAsian.PathSamplesSigned | src/engines/mc/asian.cpp:125-244 | every sample of a run is signed |
| McAsian.EstimatesSigns | src/engines/mc/asian.cpp:254-265 | signed samples and a non-negative notional give a non-negative npv and a delta of the option's sign |
| McAsian.PriceSigns | src/engines/mc/asian.cpp:254-265 | a priced option with non-negative spot and notional has a non-negative npv and a delta that is non-negative for a call and non-positive for a put |
| McAsian.SmallVolatilityGreeks | src/engines/mc/asian.cpp:228-241 | at a volatility of at most `1e-10` the reported vega is 0 and the reported rho is `-T` times the npv |
| McAsian.SmallVolatilityEstimates | src/engines/mc/asian.cpp:228-285 | the same for any path constants with such a volatility |
| McAsian.EstimatesScoresVanish | src/engines/mc/asian.cpp:277-285 | means with vanishing scores report a vega of 0 and a rho of `-T` times the npv |
| McAsian.SamplesScoresVanish | src/engines/mc/asian.cpp:228-243 | at such a volatility the mean vega is 0 and the mean rho `-T` times the mean payoff |
| McAsian.PathScoresVanish | src/engines/mc/asian.cpp:228-237 | at such a volatility a path's vega is 0 and its rho `-T` times its payoff |
| McAsian.SampleCount | src/engines/mc/asian.cpp:125 | the accumulators see exactly `mc_paths` samples, none for a non-positive count, whatever the antithetic flag |
| McAsian.AntitheticFlipsDraws | src/engines/mc/asian.cpp:72-80 | the antithetic flag changes only the signs of the draws: every odd-numbered draw is negated |
| McAsian.FewPathsNoError | src/engines/mc/asian.cpp:246-293 | with at most one path every standard error is 0 |
| McAsian.PriceErrors | src/engines/mc/asian.cpp:411-421 | a missing model is invalid input; another instrument or a non-European exercise is unsupported |
| McAsian.RejectsOthers | include/quantModeling/engines/mc/asian.hpp:26-30 | a vanilla option, a future or a bond is refused as unsupported |
| McAsian.RejectsNonEuropean | src/engines/mc/asian.cpp:417-418 | a non-European exercise is refused as unsupported |
| McAsian.PriceAsianSucceeds | src/engines/mc/asian.cpp:15-18 | the Asian visit succeeds exactly for a valid option under the Black-Scholes model |
| McAsian.PriceSucceeds | src/engines/mc/asian.cpp:15-421 | the engine prices exactly the valid Asian options under the Black-Scholes model |
| Rng.Add64 | include/quantModeling/utils/rng.hpp:28 | 64-bit unsigned addition wraps modulo 2^64 |
| Rng.StreamIncrement | include/quantModeling/utils/rng.hpp:20 | the stream increment is always odd and encodes the stream id without its top bit |
| Rng.Rotation | include/quantModeling/utils/rng.hpp:38 | the rotation amount, the top five bits of the old state, is below 32 |
| Rng.Rotr | include/quantModeling/utils/rng.hpp:39 | the shift-or expression with `(-rot) & 31` is a right rotation by `rot`, the case `rot == 0` included |
| Rng.RotrIsRotation | include/quantModeling/utils/rng.hpp:39 | the same, as a fact about bit-vectors |
| Rng.Output | include/quantModeling/utils/rng.hpp:34-39 | the output is the xor-shifted old state rotated right by the rotation amount |
| Rng.Pcg32.constructor | include/quantModeling/utils/rng.hpp:17-22 | a new generator holds the odd increment of its stream and the state seeding leaves |
| Rng.Pcg32.SeedRng | include/quantModeling/utils/rng.hpp:24-30 | seeding resets the state to zero, steps, adds the seed and steps again |
| Rng.Pcg32.Next | include/quantModeling/utils/rng.hpp:32-40 | one call advances the state by one multiply-add step and returns the output of the old state |
| Rng.RngFactory.constructor | include/quantModeling/utils/rng.hpp:84 | the factory keeps its master seed |
| Rng.RngFactory.Make | include/quantModeling/utils/rng.hpp:86 | stream `id` is a fresh generator seeded with the master seed on that stream's increment |
| Rng.SeedBits | include/quantModeling/utils/rng.hpp:84 | an `int` seed converts to 64 bits modulo 2^64, unchanged when non-negative |
| Rng.Uniform01 | include/quantModeling/utils/rng.hpp:46-52 | a uniform lies strictly inside (0, 1) and is the midpoint of its output's cell of width 2^-32 |
| Rng.UniformBounds | include/quantModeling/utils/rng.hpp:50 | every 32-bit output maps strictly inside (0, 1) |
| Rng.DrawUniform | include/quantModeling/utils/rng.hpp:46-52 | one uniform draw is one call of the generator and lies strictly inside (0, 1) |
| Rng.SampleStep | include/quantModeling/utils/rng.hpp:59-78 | a call with a cached spare returns it and clears the cache; otherwise it draws two outputs and caches a spare |
| Rng.NormalBoxMuller.constructor | include/quantModeling/utils/rng.hpp:56-57 | a new sampler has no spare |
| Rng.NormalBoxMuller.Next | include/quantModeling/utils/rng.hpp:59-78 | the sampler object's call is the sampler's step on its state and the generator's |
| Rng.Drawn | include/quantModeling/utils/rng.hpp:59-78 | `k` calls give `k` values |
| Rng.DrawnStep | include/quantModeling/utils/rng.hpp:59-78 | one more call appends the next value and advances the state by one call |
| Rng.DrawnAdd | include/quantModeling/utils/rng.hpp:59-78 | `a + b` calls are `a` calls followed by `b` calls from where those left the state |
| Rng.Normals | include/quantModeling/utils/rng.hpp:59-78 | `k` calls of the sampler give `k` normals |
| Rng.NormalsStep | include/quantModeling/utils/rng.hpp:59-78 | one more call of the sampler appends its next normal |
| Rng.NormalsAdd | include/quantModeling/utils/rng.hpp:59-78 | `a + b` calls of the sampler are `a` calls followed by `b` |
| Rng.SamplerConsumption | include/quantModeling/utils/rng.hpp:59-78 | from no spare, `2 j` calls consume `2 j` outputs and leave no spare; one more call consumes two more and leaves a spare |
| Rng.TwoCalls | include/quantModeling/utils/rng.hpp:59-78 | from no spare, the first call draws two outputs and caches a spare and the second returns it |
| Rng.StepNAdd | include/quantModeling/utils/rng.hpp:35 | `a` steps then `b` steps are `a + b` steps |
| Rng.AntitheticGaussianGenerator.constructor | include/quantModeling/utils/rng.hpp:97-99 | a new wrapper has a fresh sampler, is disabled and has count 0 |
| Rng.AntitheticGaussianGenerator.Next | include/quantModeling/utils/rng.hpp:106-119 | one call of the wrapper is the wrapper's step on its state and the generator's, and keeps the flag |
| Rng.AntitheticGaussianGenerator.EnableAntithetic | include/quantModeling/utils/rng.hpp:121 | the wrapper is enabled afterwards |
| Rng.AntitheticGaussianGenerator.DisableAntithetic | include/quantModeling/utils/rng.hpp:122 | the wrapper is disabled afterwards |
| Rng.AntitheticGaussianGenerator.ResetCallCount | include/quantModeling/utils/rng.hpp:123 | the count is 0 afterwards |
| Rng.AntitheticSign | include/quantModeling/utils/rng.hpp:110-116 | the sign is -1 exactly when the wrapper is enabled and its count is odd, and +1 otherwise |
| Rng.AntitheticStepIs | include/quantModeling/utils/rng.hpp:106-119 | a call that signs the inner value and counts as the wrapper does is one call of the generic wrapper |
| Rng.AntitheticDraws | include/quantModeling/utils/rng.hpp:106-119 | `k` calls of the wrapper make `k` inner calls, the `i`-th value negated exactly when enabled at an odd count, and the count advances only when enabled |
| Rng.GeneratedDraws | include/quantModeling/utils/rng.hpp:95-124 | the same for the library's wrapper, in terms of the sampler's normals |
| Rng.GeneratorIsAntithetic | include/quantModeling/utils/rng.hpp:95-124 | the library's wrapper is the generic wrapper around the Box-Muller sampler |
| Rng.DrawnAgree | include/quantModeling/utils/rng.hpp:106-119 | two draws that agree on every state make the same calls |
| Rng.Visited | include/quantModeling/utils/rng.hpp:106-119 | the states of `k` calls are the start and the state after each call |
| Rng.DrawnAt | include/quantModeling/utils/rng.hpp:106-119 | call `i` returns the value at the state after `i` calls |
| Rng.GeneratorRun | include/quantModeling/utils/rng.hpp:106-119 | from any state, `k` calls of the wrapper make a run |
| Rng.RunStep | include/quantModeling/utils/rng.hpp:106-119 | call `j` of a run returns its `j`-th draw and leaves its next state |
| Rng.RunSlice | include/quantModeling/utils/rng.hpp:106-119 | a stretch of a run is a run |
| Rng.AntitheticPairNegatesFreshDraw | include/quantModeling/utils/rng.hpp:89-119 | the second value of an enabled pair is minus the sampler's next normal (the Box-Muller sine partner), not minus the first value |
| Rng.AntitheticPairNotMirrored | include/quantModeling/utils/rng.hpp:89-119 | with elementary functions where the sine vanishes the pair is (1, 0), so the pair is not `z, -z` |
| FdGreeks.ShorterMaturity | src/utils/greeks.cpp:45 | the lower maturity is at least `1e-8` and at least `T` minus the time bump |
| FdGreeks.EvaluationPoints | src/utils/greeks.cpp:14-48 | the pricing function is evaluated at nine points, the first being the unbumped one |
| FdGreeks.GammaDivisor | src/utils/greeks.cpp:25-26 | the gamma divisor is zero exactly when the spot or the spot bump is |
| FdGreeks.Prices | src/utils/greeks.cpp:14-48 | the nine prices are the pricing function at the nine points |
| FdGreeks.NineEvaluations | src/utils/greeks.cpp:6-55 | two pricing functions that agree at the nine points give the same Greeks |
| FdGreeks.ConstantPriceZeroGreeks | src/utils/greeks.cpp:6-55 | a constant price has rho and theta 0, delta and gamma 0 unless the spot is zero (then absent), vega 0 unless the volatility is zero (then absent) |
| FdGreeks.LinearPriceExact | src/utils/greeks.cpp:16-52 | the central differences recover the coefficients of a price linear in each argument: delta, vega and rho exactly, gamma 0, theta minus the maturity slope |
| FdGreeks.LinearSpotExact | src/utils/greeks.cpp:18-26 | on a price linear in the spot, the central spot difference gives the spot coefficient as delta and the second difference gives gamma 0 |
| FdGreeks.LinearVegaExact | src/utils/greeks.cpp:30-33 | on a price linear in the volatility, the central volatility difference gives its coefficient as vega |
| FdGreeks.LinearRhoThetaExact | src/utils/greeks.cpp:37-52 | away from the maturity clamp, the rate and maturity differences give the rate coefficient as rho and minus the maturity coefficient as theta |
| FdGreeks.QuadraticSpotExact | src/utils/greeks.cpp:16-26 | on the price `S0^2` delta is `2 S0` and gamma is 2 exactly |
| FdGreeks.ThetaClampedDivisor | src/utils/greeks.cpp:45-52 | when the lower maturity is clamped, theta is still divided by twice the time bump |
| DiscountCurves.PillarCheckPasses | src/market/discount_curve.cpp:57-66 | the pillar loop from index `i` passes exactly when every later pillar is strictly after its predecessor with a positive factor, and fails only with InvalidInput |
| DiscountCurves.CurveCheckIsWellFormed | src/market/discount_curve.cpp:46-67 | the checks accept exactly the curves with matching non-empty lists, positive increasing times and positive factors, and reject with InvalidInput |
| DiscountCurves.ValidateCurve | src/market/discount_curve.cpp:46-67 | the validation loop gives the outcome of the checks, in the source's order |
| DiscountCurves.FlatCurve | src/market/discount_curve.cpp:10-13 | the flat constructor keeps the rate, uses it and has no pillars |
| DiscountCurves.PillarCurve | src/market/discount_curve.cpp:15-19 | the pillar constructor succeeds exactly on a well-formed curve, keeps the pillars with flat rate 0, and otherwise fails with InvalidInput |
| DiscountCurves.UpperBound | src/market/discount_curve.cpp:34-35 | the search returns the first index whose time exceeds `t` |
| DiscountCurves.DiscountCases | src/market/discount_curve.cpp:21-32 | the discount factor is 1 at or before today, `exp(-r t)` on a flat or empty curve, and the first or last factor outside the pillars |
| DiscountCurves.BracketInside | src/market/discount_curve.cpp:34-37 | strictly inside the pillars the search brackets `t` between two pillars |
| DiscountCurves.WeightInUnitInterval | src/market/discount_curve.cpp:40 | the interpolation weight lies in [0, 1) |
| DiscountCurves.DiscountInside | src/market/discount_curve.cpp:34-43 | strictly inside the pillars the factor is the log-linear interpolation of the bracketing pillars |
| DiscountCurves.LogLinearBetween | src/market/discount_curve.cpp:42-43 | log-linear interpolation of two positive factors lies between them |
| DiscountCurves.InterpolatedBetweenPillars | src/market/discount_curve.cpp:21-44 | an interpolated factor lies between its two bracketing pillar factors |
| DiscountCurves.MidpointBracket | src/market/discount_curve.cpp:34-40 | the midpoint of two adjacent pillars lies strictly inside the curve and the search lands on the later of the two |
| DiscountCurves.BetweenPillars | src/market/discount_curve.cpp:34-35 | a time in `[times[i-1], times[i])` has upper bound `i` |
| DiscountCurves.MidpointIsGeometricMean | src/market/discount_curve.cpp:21-44 | at the midpoint of two adjacent pillars the discount factor is the geometric mean of their factors |
| DiscountCurves.SortedStrict | src/market/discount_curve.cpp:57-66 | the validated times are strictly increasing across any two indices |
| AnalyticBs.CdfPair | src/engines/analytic/black_scholes.cpp:55 | the put branch's `N(-x)` is `1 - N(x)` for a symmetric distribution function |
| AnalyticBs.BlackNpvParity | src/engines/analytic/black_scholes.cpp:42-55 | call minus put Black price is `notional df_r (F - K)` |
| AnalyticBs.BlackParity | src/engines/analytic/black_scholes.cpp:40-65 | the call and put branches' npvs satisfy put-call parity |
| AnalyticBs.DeltaParity | src/engines/analytic/black_scholes.cpp:46-59 | both deltas are reported and call delta minus put delta is `notional df_q`, whatever the distribution function |
| AnalyticBs.RhoParity | src/engines/analytic/black_scholes.cpp:49-62 | both rhos are reported and call rho minus put rho is `notional T K df_r` |
| AnalyticBs.ThetaParity | src/engines/analytic/black_scholes.cpp:50-64 | each theta is reported exactly when `sqrt T` is non-zero, and then call minus put theta is `notional (q S0 df_q - r K df_r)` |
| AnalyticBs.GammaVegaShared | src/engines/analytic/black_scholes.cpp:47-61 | gamma and vega do not depend on the option type; gamma is reported exactly when `S0 stddev` is non-zero, vega always |
| AnalyticBs.BlackBounds | src/engines/analytic/black_scholes.cpp:42-55 | with a distribution function in [0, 1] the call is worth at most `notional df_r F` and the put at most `notional df_r K` |
| AnalyticBs.VanillaDiscounts | src/engines/analytic/black_scholes.cpp:27-28 | the discount factors are the flat `exp(-r T)` and `exp(-q T)`, both positive |
| AnalyticBs.VanillaForward | src/engines/analytic/black_scholes.cpp:27-35 | the forward satisfies `F df_r = S0 df_q`, and `d2 = d1 - sigma sqrt T` |
| AnalyticBs.VanillaParity | src/engines/analytic/black_scholes.cpp:12-68 | the engine's call and put satisfy `C - P = notional (S0 df_q - K df_r)` |
| AnalyticBs.VanillaBounds | src/engines/analytic/black_scholes.cpp:12-68 | with a positive spot the call is worth at most `notional S0 df_q` and the put at most `notional K df_r` |
| AnalyticBs.PriceErrors | src/engines/analytic/black_scholes.cpp:70-89 | a missing model is invalid input and every instrument other than a vanilla option is unsupported |
| AnalyticBs.PriceRefusesAmerican | src/engines/analytic/black_scholes.cpp:97-100 | American exercise is refused as unsupported |
| AnalyticBs.PriceAccepts | src/engines/analytic/black_scholes.cpp:12-113 | the engine succeeds exactly on a valid vanilla option under the Black-Scholes model, and then returns the closed form |
| AnalyticBs.FormulaShape | src/engines/analytic/black_scholes.cpp:37-65 | the closed form reports delta, vega and rho, theta exactly when `sqrt T` is non-zero, and no standard error |
| AnalyticAsian.SecondMoment | src/engines/analytic/asian.cpp:66-77 | the second moment of the average is defined exactly when `alpha + beta` is non-zero |
| AnalyticAsian.MatchedStddev | src/engines/analytic/asian.cpp:58-111 | the matched log-deviation is reported only above the `1e-14` floor, with a positive volatility and a positive average forward |
| AnalyticAsian.ArithmeticBranch | src/engines/analytic/asian.cpp:33-111 | the spot-intrinsic branch is taken exactly when the spot, strike or maturity is not positive; otherwise the branch carries `exp(-r T)` and the average forward, and the Black branch a deviation above the floor |
| AnalyticAsian.IntrinsicParity | src/engines/analytic/asian.cpp:36-60 | a call's intrinsic value less a put's is `x - K` |
| AnalyticAsian.BranchParity | src/engines/analytic/asian.cpp:33-124 | in every branch `C - P` is `notional (S0 - K)` for the spot fallback and `notional df_r (F_A - K)` otherwise |
| AnalyticAsian.ArithmeticNpv | src/engines/analytic/asian.cpp:14-124 | the engine's npv is the price in the branch it selects |
| AnalyticAsian.ChainRuleDeltaParity | src/engines/analytic/asian.cpp:130-138 | with the corrected chain-rule delta, call delta minus put delta is `notional df_r F_A / S0` |
| AnalyticAsian.ChainRuleDeltaSigns | src/engines/analytic/asian.cpp:130-138 | with the corrected chain-rule delta a call's delta is non-negative and a put's non-positive |
| AnalyticAsian.EngineBranchFits | src/engines/analytic/asian.cpp:33-111 | the branch the engine selects fits the model and the deal and has a positive discount |
| AnalyticAsian.AsWrittenPutDelta | src/engines/analytic/asian.cpp:138 | the library reports a put's delta with the call's formula: never negative, and above the chain-rule put delta by `notional df_r dF_A/dS0` |
| AnalyticAsian.EnginePutDelta | src/engines/analytic/asian.cpp:130-138 | the engine reports a delta exactly in the Black branch; a put's equals the call's, is never negative, and exceeds the corrected put delta by `notional df_r F_A / S0` |
| AnalyticAsian.AsWrittenRatioBelowOne | src/engines/analytic/asian.cpp:170-178 | the library's bumped moment ratio stays below 1 for every total variance up to 1/2 |
| AnalyticAsian.LogStddevBelowOne | src/engines/analytic/asian.cpp:186-191 | below a moment ratio of 1 the matched deviation is 0 |
| AnalyticAsian.AsWrittenBumpedFlat | src/engines/analytic/asian.cpp:150-207 | with the library's ratio, a bumped price at total variance up to 1/2 equals the price at zero volatility |
| AnalyticAsian.AsWrittenVegaVanishes | src/engines/analytic/asian.cpp:209-214 | the library's central-difference vega is 0 whenever both bumped volatilities have total variance up to 1/2 |
| AnalyticAsian.EngineVegaVanishes | src/engines/analytic/asian.cpp:150-214 | under the same condition the engine reports a vega of 0 from the Black branch and none from the others |
| AnalyticAsian.AsWrittenVegaAtTwentyPercent | src/engines/analytic/asian.cpp:209-214 | at a 20% volatility over one year the engine's vega is 0 whenever it reports one |
| AnalyticAsian.MomentRatioIsSecondMoment | src/engines/analytic/asian.cpp:66-77 | the corrected ratio is the unbumped pricer's second moment over `S0^2` at zero drift |
| AnalyticAsian.VegaBump | src/engines/analytic/asian.cpp:210 | the volatility bump is positive |
| AnalyticAsian.RhoBump | src/engines/analytic/asian.cpp:216 | the rate bump is positive |
| AnalyticAsian.GeometricClosedForm | src/engines/analytic/asian.cpp:248-252 | the geometric average's variance rate is a third of the spot's and its carry is `(r - q) / 2 - sigma^2 / 12` |
| AnalyticAsian.GeometricSides | src/engines/analytic/asian.cpp:232-297 | the geometric engine prices a call and a put on the same Black inputs and terms |
| AnalyticAsian.GeometricParity | src/engines/analytic/asian.cpp:232-297 | the geometric call and put npvs differ by `notional df_r (F - K)` |
| AnalyticAsian.GeometricGreekParity | src/engines/analytic/asian.cpp:267-295 | geometric deltas differ by `notional df_q`, rhos by `notional T K df_r`; gamma and vega are shared |
| AnalyticAsian.ArithmeticEngineErrors | include/quantModeling/engines/analytic/asian.hpp:25-28 | a missing model is invalid input, a vanilla option gets the engine's own refusal, other instruments and non-European exercise are unsupported |
| AnalyticAsian.ArithmeticEngineAccepts | src/engines/analytic/asian.cpp:14-308 | the arithmetic engine succeeds exactly on a valid Asian option under the Black-Scholes model, with the arithmetic result, whose delta and bumped Greeks are the library's as written |
| AnalyticAsian.GeometricEngineErrors | include/quantModeling/engines/analytic/asian.hpp:47-50 | the same error cases for the geometric engine |
| AnalyticAsian.GeometricEngineAccepts | src/engines/analytic/asian.cpp:232-320 | the geometric engine succeeds exactly on a valid Asian option under the Black-Scholes model, with the geometric result |
| Bonds.ValidateZero | src/engines/analytic/bonds.cpp:61-67 | a zero-coupon bond passes exactly with a positive maturity and a non-zero notional; failures are InvalidInput, the maturity checked first |
| Bonds.ValidateFixed | src/engines/analytic/bonds.cpp:69-79 | a fixed-rate bond passes exactly with a positive maturity, a non-zero notional, a non-negative coupon rate and a frequency of at least 1; failures are InvalidInput, the maturity checked first |
| Bonds.CouponCount | src/engines/analytic/bonds.cpp:37 | at least one coupon, and the rounded `T * frequency` whenever that is at least 1 |
| Bonds.Run | src/engines/analytic/bonds.cpp:12-59 | the engine run with the coupon loop gives the engine's specified result |
| Bonds.RunFixedRate | src/engines/analytic/bonds.cpp:28-59 | the coupon loop and principal give the fixed-rate npv |
| Bonds.SumCoupons | src/engines/analytic/bonds.cpp:46-51 | the loop sums the `n` coupons discounted from `dt, 2 dt, ..., n dt` |
| Bonds.ConstructedCurvesShaped | src/market/discount_curve.cpp:10-19 | both curve constructors build curves the engine can look up |
| Bonds.PriceErrors | include/quantModeling/engines/analytic/bonds.hpp:23-34 | a missing model is invalid input, an equity instrument is unsupported, and every bond error is InvalidInput |
| Bonds.PriceAccepts | src/engines/analytic/bonds.cpp:12-31 | a bond is priced exactly when it passes its checks under a flat-rate model, and no Greeks are reported |
| Bonds.ZeroCouponPrice | src/engines/analytic/bonds.cpp:12-26 | a priced zero-coupon bond is worth `notional exp(-r T)` without a curve and the notional times the curve's factor at maturity with one |
| Bonds.LastCouponAtMaturity | src/engines/analytic/bonds.cpp:37-38 | the last coupon date is the maturity |
| Bonds.NoCoupons | src/engines/analytic/bonds.cpp:46-51 | a zero coupon contributes nothing on any number of dates |
| Bonds.ZeroRateIsZeroCoupon | src/engines/analytic/bonds.cpp:28-59 | a fixed-rate bond with a zero coupon rate is worth the zero-coupon bond |
| Bonds.OnePeriod | src/engines/analytic/bonds.cpp:28-59 | with one period the bond pays `(notional c T + notional) df(T)` |
| Bonds.CouponsNonNegative | src/engines/analytic/bonds.cpp:46-51 | under a flat rate non-negative coupons have a non-negative present value |
| Bonds.CouponsAddValue | src/engines/analytic/bonds.cpp:28-59 | under a flat rate a bond with positive notional and non-negative coupon rate is worth at least its principal leg |
| Future.ValidateFuture | src/engines/analytic/future.cpp:52-60 | a future passes exactly with a positive maturity, a non-zero notional and a positive strike; failures are InvalidInput, the maturity checked first |
| Future.PriceErrors | src/engines/analytic/future.cpp:32-50 | a missing model is invalid input, every other instrument is unsupported, and every future error is InvalidInput |
| Future.PriceAccepts | src/engines/analytic/future.cpp:11-30 | a future is priced exactly when it passes its checks under the Black-Scholes model, with its cost-of-carry value and no Greeks |
| Future.AtForwardWorthless | src/engines/analytic/future.cpp:22-26 | struck at the forward, the future is worth nothing |
| Future.LinearInNotional | src/engines/analytic/future.cpp:26 | a position of size `k` is worth `k` unit positions |
| Future.ValueSign | src/engines/analytic/future.cpp:22-26 | a long position is worth more than nothing exactly when the forward is above the strike, and nothing exactly when it equals the strike |
| Future.DiscountedForward | src/engines/analytic/future.cpp:22-26 | the value is `notional (S0 e^{-qT} - K e^{-rT})` |
| Future.CarryDiscount | src/engines/analytic/future.cpp:22-23 | growing at the carry and discounting at the rate is discounting at the yield |
| Registry.InstrumentOrdinal | include/quantModeling/pricers/registry.hpp:15-23 | the instrument kinds are numbered below 6, in declaration order |
| Registry.ModelOrdinal | include/quantModeling/pricers/registry.hpp:25-29 | the model kinds are numbered below 2 |
| Registry.EngineOrdinal | include/quantModeling/pricers/registry.hpp:31-38 | the engine kinds are numbered below 5 |
| Registry.MixInjective | src/pricers/registry.cpp:12-18 | below 256 the three shifted fields occupy disjoint bytes, so the hash mix is injective |
| Registry.KeyHashInjective | src/pricers/registry.cpp:12-18 | two keys hash alike exactly when they are equal |
| Registry.AmericanAdapter | src/pricers/adapters/equity_vanilla_american.cpp:41-59 | the tree engines price the American option, the PDE engine is refused as unsupported, any other engine is invalid input |
| Registry.PricingRegistry.constructor | src/pricers/registry.cpp:40 | a new registry is empty |
| Registry.PricingRegistry.RegisterPricer | src/pricers/registry.cpp:20-23 | registering inserts or overwrites the key's function and changes no other entry |
| Registry.PricingRegistry.Price | src/pricers/registry.cpp:25-34 | an unknown key is refused as unsupported; a known key runs its function on the request's input |
| Registry.RegisterTwice | src/pricers/registry.cpp:20-23 | registering twice under one key keeps only the second function |
| Registry.DefaultRegistry | src/pricers/registry.cpp:36-150 | the default registry holds exactly the thirteen registrations, in order |
| Registry.DefaultKeys | src/pricers/registry.cpp:36-150 | the default table holds exactly the supported instrument, model and engine combinations |
| Registry.VanillaEntriesSize | src/pricers/registry.cpp:42-80 | the European vanilla registrations are five distinct keys |
| Registry.VanillaEntriesKeys | src/pricers/registry.cpp:42-80 | the first five registrations are all for the vanilla option |
| Registry.OptionEntriesKeys | src/pricers/registry.cpp:42-112 | the next four add the American option and the analytic Asian option |
| Registry.OptionEntriesSize | src/pricers/registry.cpp:42-112 | nine distinct keys after the American and analytic Asian registrations |
| Registry.EquityEntriesSize | src/pricers/registry.cpp:42-128 | eleven distinct keys after the Monte Carlo Asian and the future |
| Registry.EquityEntriesModel | src/pricers/registry.cpp:42-128 | every equity registration is under the Black-Scholes model |
| Registry.DefaultSize | src/pricers/registry.cpp:36-150 | the default table has thirteen entries: no registration overwrites another |
| Registry.DefaultEnginesMatch | src/pricers/registry.cpp:42-120 | every option entry runs its adapter with the instrument and the engine named in its key |
| Registry.DefaultModels | src/pricers/registry.cpp:36-150 | bonds are registered only under the flat-rate model and equity instruments only under Black-Scholes |
| Registry.AmericanPdeRefused | src/pricers/registry.cpp:98-104 | the American PDE entry exists, yet every request to it is refused as unsupported |
| Cache.Find | api/app/cache.py:20 | the position of the key's first entry, or -1 exactly when no entry has the key |
| Cache.TtlCache.constructor | api/app/cache.py:11-15 | a new cache is empty and keeps its size bound and time to live |
| Cache.TtlCache.Get | api/app/cache.py:17-27 | `get` returns the live value of the key or nothing, and leaves the store with an expired entry dropped or a live one moved to the recent end; keys stay distinct |
| Cache.TtlCache.Set | api/app/cache.py:29-35 | `set` stores the entry as the most recent and evicts from the least recent end down to the size bound; with a negative bound it empties the store and raises |
| Cache.RemovePreservesDistinct | api/app/cache.py:24 | popping a key keeps the other keys distinct and leaves the key absent |
| Cache.AppendAbsent | api/app/cache.py:32-33 | appending an entry under an absent key keeps the keys distinct |
| Cache.RemoveMultiset | api/app/cache.py:24 | popping a present key takes exactly its entry out of the store |
| Cache.RemoveKeepsRest | api/app/cache.py:24 | every entry under another key survives the pop |
| Cache.RemoveOnlyRest | api/app/cache.py:24 | what survives the pop was stored, under another key |
| Cache.RemoveKeepsOthers | api/app/cache.py:24 | popping a key removes exactly its entry: the survivors are the entries under other keys |
| Cache.GetMiss | api/app/cache.py:20-21 | a `get` of an absent key returns nothing and changes nothing |
| Cache.GetExpired | api/app/cache.py:22-25 | a `get` of an expired entry returns nothing and drops that entry alone |
| Cache.GetHit | api/app/cache.py:22-27 | a `get` hit returns the stored value and only reorders the store, the key becoming the most recent |
| Cache.SetBounded | api/app/cache.py:29-35 | after `set` the store holds at most `max_size` entries and no key twice |
| Cache.SetEvictsOldest | api/app/cache.py:32-35 | `set` keeps the most recent entries, a suffix of the store with the new entry appended, and the new entry is the most recent |
| Cache.SetThenGet | api/app/cache.py:17-35 | reading a key before its new expiry returns what `set` stored |
| MarketRates.RoundHalfEven | api/app/routers/market_rates.py:52 | rounding lands within one half of the value, and on an exact tie picks the even integer |
| MarketRates.NormalizeClose | api/app/routers/market_rates.py:51-52 | the normalised period is a whole number of millionths within half a millionth of the input |
| MarketRates.RoundWhole | api/app/routers/market_rates.py:52 | rounding an integer gives it back |
| MarketRates.NormalizeIdempotent | api/app/routers/market_rates.py:51-52 | normalising twice is normalising once |
| MarketRates.Insert | api/app/routers/market_rates.py:80 | inserting a point adds exactly that point |
| MarketRates.SortByX | api/app/routers/market_rates.py:80 | the sort keeps the length and the set of points |
| MarketRates.InsertSorted | api/app/routers/market_rates.py:80 | inserting into points sorted by tenor keeps them sorted |
| MarketRates.SortByXSpec | api/app/routers/market_rates.py:80 | the sort orders the points by tenor |
| MarketRates.SortByXPermutes | api/app/routers/market_rates.py:80 | the sort keeps every point, each as often as given |
| MarketRates.InsertStable | api/app/routers/market_rates.py:80 | inserting a point puts it after the points of its tenor already there and keeps their order |
| MarketRates.SortByXStable | api/app/routers/market_rates.py:80 | the sort is stable: the points of each tenor keep their input order |
| MarketRates.SortSorted | api/app/routers/market_rates.py:80 | points already in tenor order are left as they are |
| MarketRates.Interpolated | api/app/routers/market_rates.py:77-79 | interpolation fails (the ValueError) exactly when there are no points |
| MarketRates.Interpolate | api/app/routers/market_rates.py:77-95 | the scan over the sorted points gives the interpolation's result |
| MarketRates.ConvexBlend | api/app/routers/market_rates.py:92-93 | a blend with weight in [0, 1] stays between the two rates |
| MarketRates.BlendBetween | api/app/routers/market_rates.py:89-93 | for `x` between the tenors the blend lies between the two rates |
| MarketRates.SegmentBracket | api/app/routers/market_rates.py:86-95 | strictly inside the range the scan stops at a bracketing pair and the result lies between its rates |
| MarketRates.InterpolatedInside | api/app/routers/market_rates.py:77-95 | inside the range of tenors the result lies between the rates of two adjacent sorted points that bracket `x` |
| MarketRates.InterpolatedBelow | api/app/routers/market_rates.py:81-82 | at or below every tenor the result is the rate of an input with the least tenor |
| MarketRates.InterpolatedAbove | api/app/routers/market_rates.py:83-84 | at or above every tenor, and above some, the result is the rate of an input with the greatest tenor |
| MarketRates.GreatestTenor | api/app/routers/market_rates.py:83 | the last sorted point has the greatest tenor |
| MarketRates.InterpolatedWithin | api/app/routers/market_rates.py:77-95 | interpolation never leaves the range of the given rates |
| MarketRates.InterpolatesNodes | api/app/routers/market_rates.py:77-95 | points with strictly increasing tenors are reproduced at their own tenors |
| MarketRates.SegmentAtNode | api/app/routers/market_rates.py:86-93 | the scan at a node's tenor blends onto that node's rate |
| MarketRates.TenorsUpToSpec | api/app/routers/market_rates.py:108 | the comprehension keeps exactly the tenors at or below the cutoff |
| MarketRates.InsertDistinctSpec | api/app/routers/market_rates.py:111 | inserting into a strictly increasing sequence keeps it strictly increasing and adds exactly the value |
| MarketRates.SortedSetSpec | api/app/routers/market_rates.py:111 | `sorted(set(ts))` is strictly increasing and holds exactly the given values |
| MarketRates.ForwardsAt | api/app/routers/market_rates.py:113-120 | one forward point per start tenor, at that tenor, with the forward rate from the two interpolated zero rates |
| MarketRates.ForwardCurve | api/app/routers/market_rates.py:98-121 | the source's loops give the forward curve |
| MarketRates.ForwardPoints | api/app/routers/market_rates.py:113-121 | the loop over the start tenors gives their forward points |
| MarketRates.CollectTenors | api/app/routers/market_rates.py:108 | the comprehension's loop gives the tenors up to the cutoff |
| MarketRates.StartTenorsSpec | api/app/routers/market_rates.py:108-111 | the start tenors are non-empty, strictly increasing, hold every tenor up to the cutoff, lie at or below it, and include a value within `1e-10` of it |
| MarketRates.ForwardCurveEmpty | api/app/routers/market_rates.py:98-106 | the curve is empty exactly with fewer than two points, a non-positive period, or a cutoff at or below the least tenor |
| MarketRates.ForwardCurveStarts | api/app/routers/market_rates.py:102-121 | above the least tenor the curve is the points at the start tenors, bounded by the least tenor and the cutoff and strictly increasing |
| MarketRates.ForwardCurveTenors | api/app/routers/market_rates.py:98-121 | every forward starts between the least tenor and the cutoff, in strictly increasing order, and every tenor up to the cutoff starts one |
| MarketRates.StartTenorsBounds | api/app/routers/market_rates.py:104-111 | above the least tenor the start tenors lie between it and the cutoff |
| MarketRates.LeastTenor | api/app/routers/market_rates.py:102-105 | the first sorted point has the least tenor |
| MarketRates.ForwardsAtTenors | api/app/routers/market_rates.py:113-120 | points at strictly increasing start tenors in a range have those tenors, in order |
| MarketRates.FlatForwards | api/app/routers/market_rates.py:98-121 | a flat zero curve gives the same flat forward curve |
| MarketRates.FlatForwardsAt | api/app/routers/market_rates.py:113-120 | at every start tenor a flat zero curve gives its own rate as the forward |
| MarketRates.FlatRatio | api/app/routers/market_rates.py:118 | equal zero rates at both ends give that rate as the forward |

## Left out

- Floating point: every quantity is an exact real. Rounding error, infinities and NaN are not modelled. Where the library tests `std::isfinite` or `!(x > 0)` to catch a NaN, the model keeps the test on the real value.
- Elementary functions: `exp`, `log`, `sqrt`, the normal distribution function and density, `cos` and `sin` are fields of a `Math` record. Only the laws each lemma states as a requirement are assumed of them.
- `std::expm1` is written as `exp(x) - 1`, which is the same value on exact reals.
- Core.Ratio: a division by zero that the library leaves unchecked gives no value here, where the library would produce an infinity or a NaN.
- Core.GuardedQuotient: the same unchecked division gives 0 here. Each engine's results say whether the Greek built from it is reported.
- Pde.Lambda, Pde.Mu: these require a non-zero space step. The library divides by it unchecked.
- Pde.BumpedScheme, Pde.BumpedValue, Pde.RunBumped: these require a non-zero spot. The re-solves divide by the spot unchecked.
- Pde.Sensitivities, Pde.Center, Pde.RunSensitivities: these require a non-zero strike. The library takes `log(S / K)` unchecked.
- Pde.Price: when the implicit Crank-Nicolson matrix has a zero pivot, the model returns an `InvalidInput` error. The library has no such check and would carry an infinity or a NaN. `Pde.NonNegativeRateSolvable` shows this cannot happen with a non-negative rate.
- Tridiagonal.Solve, Tridiagonal.ForwardSweep: these require every pivot to be non-zero. The library divides by the pivots unchecked.
- EngineCommon.ThetaValue: this requires a non-zero time bump. The library divides by it unchecked.
- MarketRates.ForwardRate, MarketRates.ForwardAt, MarketRates.ForwardsAt, MarketRates.ForwardPoints: these require a non-zero period. The forward-curve function refuses a non-positive period before it reaches them.
- MarketRates.NormalizeClose: Python's `round(x, 6)` is modelled as round-half-even on the exact value of `x * 10^6`, not on its binary double.
- The market-rates router's `isfinite` filter is dropped, because every real is finite. `_latest_fred_observation`'s skipping of unparsable or NaN observations is not modelled.
- The FRED fetches (`_fetch_zero_points`, `_latest_fred_observation`) and the `rates_curve` endpoint are not modelled: they are network I/O and request handling around the modelled helpers.
- Cache.TtlCache: the lock is left out, because each method is modelled as one atomic step. `time.time()` becomes the `now` parameter of `Get` and `Set`.
- Rng.AntitheticGaussianGenerator: the call count is a `nat`. The library's `int` would overflow after 2^31 calls, which is far beyond any path count the engines use.
- `int` arithmetic in the engines is unbounded here. Step and path counts are assumed to fit in 32 bits, and `static_cast<int>` and `std::round` are written out as exact truncation and rounding.
- The diagnostics string each engine writes into its result is not modelled. It carries no numeric content.
- The adapters under `src/pricers/adapters` are parameters of the registry (`Registry.Adapters`), except for the American adapter's engine switch, which is modelled. The Python bindings (`src/module.cpp`), the command-line driver (`main.cpp`), the API's other routers, its schemas and the pricing service are not part of this model.
- Registry: a request's input is one value of the adapters' input type. The library's `std::get` on a variant that holds another alternative throws `std::bad_variant_access`, and that has no counterpart here.
- AnalyticAsian.MomentRatio: the corrected ratio, like the library's formula, is the second moment at zero drift. With a non-zero carry the bumped prices still do not match the main pricer's moments exactly.
- AnalyticAsian.BranchGamma: the library's `gamma = 0` branch for a non-positive matched stddev is unreachable after the stddev floor, so the model leaves it out.
- Neither closed-form Asian engine reads the option's average type. The model, like the library, applies each engine's own formula to any Asian option.

## Findings

| source | as written | input that shows it | evidently intended | confidence | as-written member | corrected member |
|---|---|---|---|---|---|---|
| src/engines/tree/trinomial.cpp:64-84 | the backward sweep overwrites `values` in place from the bottom node up, so every node above the lowest reads as its down child the value just written for its lower neighbour at the same level | two-step European call, spot 4, strike 4, `u = 2`, all probabilities 1/3, no discounting: the sweep gives 64/27, Boyle's recurrence 60/27 | each node rolls back from the three children of the next level (Boyle's recurrence) | not executed | Trinomial.InPlaceSweepDiffers | Trinomial.Rollback |
| src/engines/analytic/asian.cpp:137-138 | the arithmetic Asian delta is `df_r N(d1) dF_A/dS0` for both option types | any put with a positive notional, discount and forward sensitivity: the reported delta is non-negative | a put's delta is `df_r (N(d1) - 1) dF_A/dS0`, the chain rule through Black's put formula | not executed | AnalyticAsian.AsWrittenPutDelta | AnalyticAsian.ChainRuleDeltaSigns |
| src/engines/analytic/asian.cpp:168-178 | the bumped pricer's moment ratio is `2 e^y (e^y - 1 - y) / x^2` with `y = x / 2`, and 0.25 below the cutoff; it lies below 1 for small `x`, so the bumped log-variance is non-positive and the bumped price falls back to intrinsic | volatility 20% over one year: both vega bumps fall back and the reported vega is 0 | the ratio `E[A^2] / E[A]^2 = 2 (e^x - 1 - x) / x^2`, with limit 1, which matches the second moment of the unbumped pricer | not executed | AnalyticAsian.AsWrittenVegaAtTwentyPercent | AnalyticAsian.MomentRatioIsSecondMoment |

The engines follow the library as written: the trinomial engine values every tree by the in-place sweep (`Trinomial.InPlaceSweep`), and the arithmetic Asian engine reports the call-formula delta and the bumped Greeks of the library's moment ratio. The corrected definitions (`Trinomial.Rollback`, `AnalyticAsian.ChainRuleDelta`, the `Corrected` moment-ratio rule) stand beside them with their properties proved.

The antithetic wrapper in `include/quantModeling/utils/rng.hpp:89-124` documents mirrored pairs (`z`, `-z`, `z'`, `-z'`). The code instead negates the normal sampler's next fresh draw on odd calls, so a pair is `(z1, -z2)`. The model follows the code. `Rng.AntitheticPairNegatesFreshDraw` states what a pair is, and `Rng.AntitheticPairNotMirrored` exhibits elementary functions under which the pair is `(1, 0)`, not `(1, -1)`. The vanilla Monte Carlo engine mirrors its own draws and does not use the wrapper's mode. The Asian Monte Carlo engine turns the mode on, so its antithetic draws are negated fresh draws, as the model's Asian simulation states.
