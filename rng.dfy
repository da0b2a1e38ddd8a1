// The random-number utilities of the Monte Carlo engines: the PCG32
// generator (a 64-bit linear congruential step followed by the XSH-RR
// output permutation), the uniform draw in (0,1), the Box-Muller normal
// sampler with its cached spare, the per-stream factory and the
// antithetic wrapper.
module Rng {
  import opened Core

  /** Unsigned 64-bit integers; arithmetic on them wraps modulo 2^64. */
  newtype u64 = x: int | 0 <= x < 0x1_0000_0000_0000_0000

  const Modulus: int := 0x1_0000_0000_0000_0000
  const Multiplier: int := 6364136223846793005

  /** Addition modulo 2^64. */
  function Add64(a: u64, b: u64): (r: u64)
    ensures r as int == (a as int + b as int) % Modulus
  {
    ((a as int + b as int) % Modulus) as u64
  }

  /** The stream increment: `(stream_id << 1) | 1`, always odd. */
  function StreamIncrement(streamId: u64): (inc: u64)
    ensures inc % 2 == 1
    ensures inc as int / 2 == streamId as int % 0x8000_0000_0000_0000
  {
    ((streamId as int * 2) % Modulus + 1) as u64
  }

  /** The state transition: multiply and add, modulo 2^64. */
  function Step(state: u64, inc: u64): u64
  {
    ((state as int * Multiplier + inc as int) % Modulus) as u64
  }

  /** The rotation amount: the top five bits of the old state. */
  function Rotation(prev: u64): (rot: bv32)
    ensures rot < 32
  {
    ((prev as bv64 >> 59) & 31) as bv32
  }

  /** The xor-shifted old state, truncated to its low 32 bits. */
  function XorShifted(prev: u64): bv32
  {
    var b := prev as bv64;
    ((((b >> 18) ^ b) >> 27) & 0xFFFF_FFFF) as bv32
  }

  /**
   * A right rotation as the source writes it: a right shift or-ed with a
   * left shift by `(-rot) & 31`, which is 0 rather than 32 when `rot` is 0.
   */
  function Rotr(x: bv32, rot: bv32): (r: bv32)
    requires rot < 32
    ensures r == x.RotateRight(rot as nat)
  {
    RotrIsRotation(x, rot);
    (x >> rot) | (x << ((-rot) & 31))
  }

  lemma RotrIsRotation(x: bv32, rot: bv32)
    requires rot < 32
    ensures (x >> rot) | (x << ((-rot) & 31)) == x.RotateRight(rot as nat)
  {
    var r := rot as nat;
    assert r < 32;
  }

  /** The output permutation: the xor-shifted word rotated right by `rot`. */
  function Output(prev: u64): (out: bv32)
    ensures out == XorShifted(prev).RotateRight(Rotation(prev) as nat)
  {
    Rotr(XorShifted(prev), Rotation(prev))
  }

  /** Seeding: state 0, one step, add the seed, one more step. */
  function SeededState(seed: u64, inc: u64): u64
  {
    Step(Add64(Step(0, inc), seed), inc)
  }

  /** `n` steps of the generator from `state`. */
  function StepN(state: u64, inc: u64, n: nat): u64
    decreases n
  {
    if n == 0 then state else StepN(Step(state, inc), inc, n - 1)
  }

  /** The PCG32 engine: a mutable 64-bit state and a fixed odd increment. */
  class Pcg32 {
    var state: u64
    var inc: u64

    constructor (seed: u64, streamId: u64)
      ensures inc == StreamIncrement(streamId)
      ensures state == SeededState(seed, inc)
    {
      inc := StreamIncrement(streamId);
      state := 0;
      new;
      SeedRng(seed);
    }

    method SeedRng(seed: u64)
      modifies this`state
      ensures state == SeededState(seed, inc)
    {
      state := 0;
      var _ := Next();
      state := Add64(state, seed);
      var _ := Next();
    }

    /** One call of the generator: the output depends only on the old state. */
    method Next() returns (out: bv32)
      modifies this`state
      ensures state == Step(old(state), inc)
      ensures out == Output(old(state))
    {
      var oldState := state;
      state := Step(oldState, inc);
      var xorShifted := XorShifted(oldState);
      var rot := Rotation(oldState);
      out := Rotr(xorShifted, rot);
    }
  }

  /** `RngFactory`: one master seed, one generator per stream. */
  class RngFactory {
    const masterSeed: u64

    constructor (seed: u64)
      ensures masterSeed == seed
    {
      masterSeed := seed;
    }

    method Make(streamId: u64) returns (rng: Pcg32)
      ensures fresh(rng)
      ensures rng.inc == StreamIncrement(streamId)
      ensures rng.state == SeededState(masterSeed, rng.inc)
    {
      rng := new Pcg32(masterSeed, streamId);
    }
  }

  /**
   * Where an engine's draws start: the generator `RngFactory(seed).make(0)`
   * and a fresh sampler without a spare.
   */
  function InitialSampler(seed: int): SamplerState
  {
    SamplerState(SeededState(SeedBits(seed), StreamIncrement(0)), false, 0.0)
  }

  /** The engines pass a signed `int` seed; it converts to 64 bits modulo 2^64. */
  function SeedBits(seed: int): (b: u64)
    ensures b as int == seed % Modulus
    ensures 0 <= seed ==> b as int == seed || seed >= Modulus
  {
    (seed % Modulus) as u64
  }

  const TwoTo32: real := 4294967296.0

  /** `uniform01`: the midpoint of the output's cell of width 2^-32. */
  function Uniform01(u: bv32): (x: real)
    ensures 0.0 < x < 1.0
    ensures x * TwoTo32 == u as real + 0.5
  {
    UniformBounds(u as real);
    (u as real + 0.5) / TwoTo32
  }

  lemma UniformBounds(v: real)
    requires 0.0 <= v <= 4294967295.0
    ensures 0.0 < (v + 0.5) / TwoTo32 < 1.0
  {
    var x := (v + 0.5) / TwoTo32;
    assert x * TwoTo32 == v + 0.5;
  }

  /** One uniform draw: one call of the generator. */
  method DrawUniform(rng: Pcg32) returns (x: real)
    modifies rng`state
    ensures rng.state == Step(old(rng.state), rng.inc)
    ensures x == Uniform01(Output(old(rng.state)))
    ensures 0.0 < x < 1.0
  {
    var u := rng.Next();
    x := (u as real + 0.5) / TwoTo32;
  }

  /** The Box-Muller radius `sqrt(-2 log u1)` and angle `2 pi u2`. */
  function Radius(m: Math, u1: real): real
  {
    Sqrt(m, -2.0 * Log(m, u1))
  }

  function Angle(m: Math, u2: real): real
  {
    2.0 * m.pi * u2
  }

  /** The pair of normals Box-Muller makes from two uniforms. */
  function BoxMullerCosine(m: Math, u1: real, u2: real): real
  {
    Radius(m, u1) * Cos(m, Angle(m, u2))
  }

  function BoxMullerSine(m: Math, u1: real, u2: real): real
  {
    Radius(m, u1) * Sin(m, Angle(m, u2))
  }

  /**
   * The state of a Box-Muller sampler together with the generator it
   * draws from: the functional view of the two objects.
   */
  datatype SamplerState = SamplerState(rngState: u64, hasSpare: bool, spare: real)

  /** One call of the sampler: the cached spare if there is one, else a fresh pair. */
  function SampleStep(m: Math, inc: u64, st: SamplerState): (res: (real, SamplerState))
    ensures st.hasSpare ==> res == (st.spare, SamplerState(st.rngState, false, st.spare))
    ensures !st.hasSpare ==> res.1.hasSpare && res.1.rngState == StepN(st.rngState, inc, 2)
  {
    if st.hasSpare then (st.spare, SamplerState(st.rngState, false, st.spare))
    else
      var s1 := Step(st.rngState, inc);
      var u1 := Uniform01(Output(st.rngState));
      var u2 := Uniform01(Output(s1));
      assert StepN(st.rngState, inc, 2) == Step(s1, inc);
      (BoxMullerCosine(m, u1, u2), SamplerState(Step(s1, inc), true, BoxMullerSine(m, u1, u2)))
  }

  /** The sampler as a function of its state. */
  function Sampler(m: Math, inc: u64): SamplerState -> (real, SamplerState)
  {
    st => SampleStep(m, inc, st)
  }

  /** The state after `k` calls of a stateful draw `f`. */
  function Advanced<S>(f: S -> (real, S), st: S, k: nat): S
    decreases k
  {
    if k == 0 then st else Advanced(f, f(st).1, k - 1)
  }

  /** The values of `k` successive calls of a stateful draw `f`. */
  function Drawn<S>(f: S -> (real, S), st: S, k: nat): (zs: seq<real>)
    ensures |zs| == k
    decreases k
  {
    if k == 0 then [] else [f(st).0] + Drawn(f, f(st).1, k - 1)
  }

  /** One more call appends the next value and advances the state by one call. */
  lemma {:induction false} DrawnStep<S>(f: S -> (real, S), st: S, k: nat)
    ensures Drawn(f, st, k + 1) == Drawn(f, st, k) + [f(Advanced(f, st, k)).0]
    ensures Advanced(f, st, k + 1) == f(Advanced(f, st, k)).1
    decreases k
  {
    if k > 0 {
      DrawnStep(f, f(st).1, k - 1);
    }
  }

  /** `a + b` calls are `a` calls followed by `b` calls from where those left the state. */
  lemma {:induction false} DrawnAdd<S>(f: S -> (real, S), st: S, a: nat, b: nat)
    ensures Drawn(f, st, a + b) == Drawn(f, st, a) + Drawn(f, Advanced(f, st, a), b)
    ensures Advanced(f, st, a + b) == Advanced(f, Advanced(f, st, a), b)
    decreases a
  {
    if a > 0 {
      DrawnAdd(f, f(st).1, a - 1, b);
      assert Drawn(f, st, a + b) == [f(st).0] + Drawn(f, f(st).1, a - 1 + b);
    }
  }

  /** The state of the sampler after `k` calls. */
  function SampleStates(m: Math, inc: u64, st: SamplerState, k: nat): SamplerState
  {
    Advanced(Sampler(m, inc), st, k)
  }

  /** The normals of `k` successive calls of the sampler. */
  function Normals(m: Math, inc: u64, st: SamplerState, k: nat): (zs: seq<real>)
    ensures |zs| == k
  {
    Drawn(Sampler(m, inc), st, k)
  }

  lemma NormalsStep(m: Math, inc: u64, st: SamplerState, k: nat)
    ensures Normals(m, inc, st, k + 1) ==
            Normals(m, inc, st, k) + [SampleStep(m, inc, SampleStates(m, inc, st, k)).0]
    ensures SampleStates(m, inc, st, k + 1) == SampleStep(m, inc, SampleStates(m, inc, st, k)).1
  {
    DrawnStep(Sampler(m, inc), st, k);
  }

  lemma NormalsAdd(m: Math, inc: u64, st: SamplerState, a: nat, b: nat)
    ensures Normals(m, inc, st, a + b) ==
            Normals(m, inc, st, a) + Normals(m, inc, SampleStates(m, inc, st, a), b)
    ensures SampleStates(m, inc, st, a + b) == SampleStates(m, inc, SampleStates(m, inc, st, a), b)
  {
    DrawnAdd(Sampler(m, inc), st, a, b);
  }

  /**
   * Starting without a spare, `2 j` calls consume `2 j` outputs of the
   * generator and leave no spare; one more call consumes two more and
   * leaves one.
   */
  lemma {:induction false} SamplerConsumption(m: Math, inc: u64, st: SamplerState, j: nat)
    requires !st.hasSpare
    ensures var even := SampleStates(m, inc, st, 2 * j);
            even.rngState == StepN(st.rngState, inc, 2 * j) && !even.hasSpare
    ensures var odd := SampleStates(m, inc, st, 2 * j + 1);
            odd.rngState == StepN(st.rngState, inc, 2 * j + 2) && odd.hasSpare
    decreases j
  {
    TwoCalls(m, inc, st);
    if j > 0 {
      var st2 := SampleStates(m, inc, st, 2);
      SamplerConsumption(m, inc, st2, j - 1);
      NormalsAdd(m, inc, st, 2, 2 * (j - 1));
      NormalsAdd(m, inc, st, 2, 2 * (j - 1) + 1);
      StepNAdd(st.rngState, inc, 2, 2 * (j - 1));
      StepNAdd(st.rngState, inc, 2, 2 * (j - 1) + 2);
    }
  }

  /** From no spare, one call draws two outputs and caches a spare; the next returns it. */
  lemma TwoCalls(m: Math, inc: u64, st: SamplerState)
    requires !st.hasSpare
    ensures var st1 := SampleStates(m, inc, st, 1);
            st1.hasSpare && st1.rngState == StepN(st.rngState, inc, 2) &&
            SampleStates(m, inc, st, 2) == SamplerState(StepN(st.rngState, inc, 2), false, st1.spare)
  {
    NormalsStep(m, inc, st, 0);
    NormalsStep(m, inc, st, 1);
  }

  lemma {:induction false} StepNAdd(state: u64, inc: u64, a: nat, b: nat)
    ensures StepN(StepN(state, inc, a), inc, b) == StepN(state, inc, a + b)
    decreases a
  {
    if a > 0 {
      StepNAdd(Step(state, inc), inc, a - 1, b);
    }
  }

  /** `NormalBoxMuller`: a cached spare normal and a flag saying it is there. */
  class NormalBoxMuller {
    var hasSpare: bool
    var spare: real

    constructor ()
      ensures !hasSpare && spare == 0.0
    {
      hasSpare := false;
      spare := 0.0;
    }

    method Next(m: Math, rng: Pcg32) returns (z: real)
      modifies this, rng`state
      ensures (z, SamplerState(rng.state, hasSpare, spare))
           == SampleStep(m, rng.inc, SamplerState(old(rng.state), old(hasSpare), old(spare)))
    {
      if hasSpare {
        hasSpare := false;
        z := spare;
        assert rng.state == old(rng.state);
        assert (z, SamplerState(rng.state, hasSpare, spare)) == SampleStep(m, rng.inc, SamplerState(old(rng.state), old(hasSpare), old(spare)));
        return;
      }
      ghost var s0 := rng.state;
      var u1 := DrawUniform(rng);
      var u2 := DrawUniform(rng);
      var r := Radius(m, u1);
      var theta := Angle(m, u2);
      var z0 := r * Cos(m, theta);
      var z1 := r * Sin(m, theta);
      spare := z1;
      hasSpare := true;
      z := z0;
      assert SampleStep(m, rng.inc, SamplerState(s0, false, old(spare))).0 == z0;
      assert SampleStep(m, rng.inc, SamplerState(s0, false, old(spare))).1 == SamplerState(rng.state, true, z1);
    }
  }

  /**
   * `AntitheticGaussianGenerator`: when enabled, the sampler's value is
   * negated on calls with an odd count, and the count advances.
   */
  class AntitheticGaussianGenerator {
    const inner: NormalBoxMuller
    var antitheticEnabled: bool
    var callCount: nat

    constructor ()
      ensures fresh(inner) && !inner.hasSpare && inner.spare == 0.0
      ensures !antitheticEnabled && callCount == 0
    {
      inner := new NormalBoxMuller();
      antitheticEnabled := false;
      callCount := 0;
    }

    /** The wrapper's state with its generator's, as the functional view sees it. */
    function State(rng: Pcg32): GeneratorState
      reads this, inner, rng
    {
      GeneratorState(SamplerState(rng.state, inner.hasSpare, inner.spare), callCount)
    }

    method Next(m: Math, rng: Pcg32) returns (z: real)
      modifies this, inner, rng`state
      ensures antitheticEnabled == old(antitheticEnabled)
      ensures (z, State(rng)) == GeneratorStep(m, rng.inc, antitheticEnabled, old(State(rng)))
    {
      z := inner.Next(m, rng);
      if antitheticEnabled {
        if callCount % 2 == 1 {
          z := -z;
        }
        callCount := callCount + 1;
      }
    }

    method EnableAntithetic()
      modifies this`antitheticEnabled
      ensures antitheticEnabled
    {
      antitheticEnabled := true;
    }

    method DisableAntithetic()
      modifies this`antitheticEnabled
      ensures !antitheticEnabled
    {
      antitheticEnabled := false;
    }

    method ResetCallCount()
      modifies this`callCount
      ensures callCount == 0
    {
      callCount := 0;
    }
  }

  /** The sign the antithetic wrapper applies: -1 exactly on odd counts when enabled. */
  function AntitheticSign(enabled: bool, count: nat): (s: real)
    ensures s == 1.0 || s == -1.0
    ensures s == -1.0 <==> enabled && count % 2 == 1
  {
    if enabled && count % 2 == 1 then -1.0 else 1.0
  }

  /** The wrapper's state: the sampler's state and the call count. */
  datatype GeneratorState = GeneratorState(sampler: SamplerState, callCount: nat)

  /** The wrapper around a stateful draw `f`: one call, as a function of its state. */
  function Antithetic(f: SamplerState -> (real, SamplerState), enabled: bool): GeneratorState -> (real, GeneratorState)
  {
    (g: GeneratorState) => (AntitheticSign(enabled, g.callCount) * f(g.sampler).0,
                            GeneratorState(f(g.sampler).1, if enabled then g.callCount + 1 else g.callCount))
  }

  /** A call that negates the inner draw's value as the wrapper does is one call of `Antithetic`. */
  lemma AntitheticStepIs(f: SamplerState -> (real, SamplerState), enabled: bool, g: GeneratorState,
                         z: real, g': GeneratorState)
    requires z == AntitheticSign(enabled, g.callCount) * f(g.sampler).0 && g'.sampler == f(g.sampler).1
    requires g'.callCount == if enabled then g.callCount + 1 else g.callCount
    ensures (z, g') == Antithetic(f, enabled)(g)
  {
  }

  /** One call of the library's wrapper around the Box-Muller sampler. */
  function GeneratorStep(m: Math, inc: u64, enabled: bool, g: GeneratorState): (real, GeneratorState)
  {
    var r := SampleStep(m, inc, g.sampler);
    (if enabled && g.callCount % 2 == 1 then -r.0 else r.0,
     GeneratorState(r.1, if enabled then g.callCount + 1 else g.callCount))
  }

  /** The library's wrapper as a function of its state. */
  function Generator(m: Math, inc: u64, enabled: bool): GeneratorState -> (real, GeneratorState)
  {
    g => GeneratorStep(m, inc, enabled, g)
  }

  /**
   * `k` calls of the wrapper make `k` calls of the inner draw and return
   * its values, the `i`-th negated exactly when the wrapper is enabled and
   * its count `c + i` is odd; the count advances only when enabled.
   */
  lemma {:induction false} AntitheticDraws(f: SamplerState -> (real, SamplerState), enabled: bool,
                                           st: SamplerState, c: nat, k: nat)
    ensures var g := Advanced(Antithetic(f, enabled), GeneratorState(st, c), k);
            g.sampler == Advanced(f, st, k) && g.callCount == (if enabled then c + k else c)
    ensures var zs := Drawn(Antithetic(f, enabled), GeneratorState(st, c), k);
            var inner := Drawn(f, st, k);
            forall i :: 0 <= i < k ==> zs[i] == AntitheticSign(enabled, c + i) * inner[i]
  {
    if k > 0 {
      var w := Antithetic(f, enabled);
      AntitheticDraws(f, enabled, st, c, k - 1);
      DrawnStep(w, GeneratorState(st, c), k - 1);
      DrawnStep(f, st, k - 1);
    }
  }

  /** The same for the library's wrapper, in terms of the sampler's normals. */
  lemma GeneratedDraws(m: Math, inc: u64, enabled: bool, st: SamplerState, c: nat, k: nat)
    ensures var g := Advanced(Generator(m, inc, enabled), GeneratorState(st, c), k);
            g.sampler == SampleStates(m, inc, st, k) && g.callCount == (if enabled then c + k else c)
    ensures var zs := Drawn(Generator(m, inc, enabled), GeneratorState(st, c), k);
            var ns := Normals(m, inc, st, k);
            forall i :: 0 <= i < k ==> zs[i] == AntitheticSign(enabled, c + i) * ns[i]
  {
    GeneratorIsAntithetic(m, inc, enabled);
    DrawnAgree(Generator(m, inc, enabled), Antithetic(Sampler(m, inc), enabled), GeneratorState(st, c), k);
    AntitheticDraws(Sampler(m, inc), enabled, st, c, k);
  }

  /** The library's wrapper is the generic wrapper around the Box-Muller sampler. */
  lemma GeneratorIsAntithetic(m: Math, inc: u64, enabled: bool)
    ensures forall g :: Generator(m, inc, enabled)(g) == Antithetic(Sampler(m, inc), enabled)(g)
  {
    forall g
      ensures Generator(m, inc, enabled)(g) == Antithetic(Sampler(m, inc), enabled)(g)
    {
      var r := SampleStep(m, inc, g.sampler);
      var next := GeneratorState(r.1, if enabled then g.callCount + 1 else g.callCount);
      assert Sampler(m, inc)(g.sampler) == r;
      AntitheticStepIs(Sampler(m, inc), enabled, g, AntitheticSign(enabled, g.callCount) * r.0, next);
      assert Generator(m, inc, enabled)(g) == (if enabled && g.callCount % 2 == 1 then -r.0 else r.0, next);
      assert (if enabled && g.callCount % 2 == 1 then -r.0 else r.0) == AntitheticSign(enabled, g.callCount) * r.0;
    }
  }

  /** Two draws that agree on every state make the same calls. */
  lemma {:induction false} DrawnAgree<S>(f: S -> (real, S), h: S -> (real, S), st: S, k: nat)
    requires forall x :: f(x) == h(x)
    ensures Drawn(f, st, k) == Drawn(h, st, k) && Advanced(f, st, k) == Advanced(h, st, k)
    decreases k
  {
    if k > 0 {
      DrawnAgree(f, h, f(st).1, k - 1);
    }
  }

  /**
   * A run of the wrapper: `states[i]` is the state before call `i`, and
   * that call returns `draws[i]` and leaves `states[i + 1]`.
   */
  predicate IsRun(m: Math, inc: u64, enabled: bool, states: seq<GeneratorState>, draws: seq<real>)
  {
    |states| == |draws| + 1 &&
    forall i {:trigger GeneratorStep(m, inc, enabled, states[i])} ::
      0 <= i < |draws| ==> GeneratorStep(m, inc, enabled, states[i]) == (draws[i], states[i + 1])
  }

  /** The states a stateful draw passes through in `k` calls, the start included. */
  function Visited<S>(f: S -> (real, S), st: S, k: nat): (ss: seq<S>)
    ensures |ss| == k + 1 && forall i :: 0 <= i <= k ==> ss[i] == Advanced(f, st, i)
  {
    seq(k + 1, i requires 0 <= i <= k => Advanced(f, st, i))
  }

  /** Call `i` of `k` returns the `i`-th value from the state after `i` calls. */
  lemma DrawnAt<S>(f: S -> (real, S), st: S, k: nat, i: nat)
    requires i < k
    ensures Drawn(f, st, k)[i] == f(Advanced(f, st, i)).0
    ensures Advanced(f, st, i + 1) == f(Advanced(f, st, i)).1
  {
    DrawnAdd(f, st, i + 1, k - i - 1);
    DrawnStep(f, st, i);
  }

  /** From any state, `k` calls of the wrapper make a run. */
  lemma GeneratorRun(m: Math, inc: u64, enabled: bool, g: GeneratorState, k: nat)
    ensures var f := Generator(m, inc, enabled);
            IsRun(m, inc, enabled, Visited(f, g, k), Drawn(f, g, k))
  {
    var f := Generator(m, inc, enabled);
    forall i | 0 <= i < k
      ensures GeneratorStep(m, inc, enabled, Visited(f, g, k)[i]) == (Drawn(f, g, k)[i], Visited(f, g, k)[i + 1])
    {
      DrawnAt(f, g, k, i);
    }
  }

  /** Call `j` of a run. */
  lemma RunStep(m: Math, inc: u64, enabled: bool, states: seq<GeneratorState>, draws: seq<real>, j: nat)
    requires IsRun(m, inc, enabled, states, draws) && j < |draws|
    ensures GeneratorStep(m, inc, enabled, states[j]) == (draws[j], states[j + 1])
  {
  }

  /** A stretch of a run is a run. */
  lemma RunSlice(m: Math, inc: u64, enabled: bool, states: seq<GeneratorState>, draws: seq<real>, a: nat, b: nat)
    requires IsRun(m, inc, enabled, states, draws) && a <= b <= |draws|
    ensures IsRun(m, inc, enabled, states[a..b + 1], draws[a..b])
  {
    forall i | 0 <= i < b - a
      ensures GeneratorStep(m, inc, enabled, states[a..b + 1][i]) == (draws[a..b][i], states[a..b + 1][i + 1])
    {
      assert states[a..b + 1][i] == states[a + i] && states[a..b + 1][i + 1] == states[a + i + 1];
    }
  }

  /** Two calls of the wrapper from a fresh sampler at an even count. */
  function AntitheticPair(m: Math, inc: u64, state: u64): (real, real)
  {
    var (z0, st1) := SampleStep(m, inc, SamplerState(state, false, 0.0));
    var (z1, _) := SampleStep(m, inc, st1);
    (AntitheticSign(true, 0) * z0, AntitheticSign(true, 1) * z1)
  }

  /**
   * What the wrapper really returns: the second value of a pair is minus
   * the sampler's NEXT value (the Box-Muller sine partner), not minus the
   * first value.
   */
  lemma AntitheticPairNegatesFreshDraw(m: Math, inc: u64, state: u64)
    ensures var u1 := Uniform01(Output(state));
            var u2 := Uniform01(Output(Step(state, inc)));
            AntitheticPair(m, inc, state) == (BoxMullerCosine(m, u1, u2), -BoxMullerSine(m, u1, u2))
  {
  }

  /**
   * Hence the wrapper does not hand out mirrored pairs: with
   * elementary functions where the sine vanishes and the rest are 1,
   * the pair is (1, 0), not (1, -1).
   */
  lemma AntitheticPairNotMirrored(inc: u64, state: u64)
    ensures var m := Math(x => 1.0, x => 1.0, x => 1.0, x => 0.5, x => 0.0, x => 1.0, x => 0.0, 3.0);
            AntitheticPair(m, inc, state) == (1.0, 0.0)
  {
    var m := Math(x => 1.0, x => 1.0, x => 1.0, x => 0.5, x => 0.0, x => 1.0, x => 0.0, 3.0);
    AntitheticPairNegatesFreshDraw(m, inc, state);
  }
}
