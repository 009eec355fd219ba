/**
 * The stochastic initial-condition samplers. Each walks the trajectory
 * seeds in order, reseeds the global generator with the seed and, except
 * for the definite sampler, draws a position and a momentum vector from
 * per-mode normal distributions and converts them to `z`.
 *
 * The generator is numpy's legacy global generator: a state, a seeding
 * function and a standard-normal draw, the last two taken as parameters.
 * A normal draw with mean `mu` and spread `sigma` is `mu + sigma * g` for
 * successive standard-normal values `g`, one per mode in order.
 */
module Samplers {
  import opened Wrappers
  import opened Numbers
  import opened Canonical

  /** The state of the generator: its key words, position and cached Gaussian. */
  datatype RngState = RngState(key: seq<int>, pos: int, hasGauss: bool, cachedGaussian: real)

  /** The global generator that `np.random.seed` and `np.random.normal` act on. */
  class Generator {
    var state: RngState
    /** `np.random.seed(v)`: the state after seeding with `v`, whatever it was before. */
    const reseed: int -> RngState
    /** One standard-normal draw and the state after it. */
    const gauss: RngState -> (real, RngState)

    constructor (initial: RngState, reseed: int -> RngState, gauss: RngState -> (real, RngState))
      ensures state == initial && this.reseed == reseed && this.gauss == gauss
    {
      state := initial;
      this.reseed := reseed;
      this.gauss := gauss;
    }
  }

  /** `np.random.normal(loc=mean, scale=std, size=|mean|)` from state `st`: the draws and the state after them. */
  function Normal(gauss: RngState -> (real, RngState), st: RngState, mean: seq<real>, std: seq<real>): (r: (seq<real>, RngState))
    requires |std| == |mean|
    ensures |r.0| == |mean|
    decreases |mean|
  {
    if mean == [] then ([], st)
    else
      var (g, st1) := gauss(st);
      var (rest, st2) := Normal(gauss, st1, mean[1..], std[1..]);
      ([mean[0] + std[0] * g] + rest, st2)
  }

  /** The per-mode means and spreads of position and momentum. */
  datatype Distribution = Distribution(muQ: seq<real>, stdQ: seq<real>, muP: seq<real>, stdP: seq<real>)
  {
    predicate Sized(n: nat)
    {
      |muQ| == n && |stdQ| == n && |muP| == n && |stdP| == n
    }
  }

  /** What the sampler needs of the constants: `ncc` modes with a mass and weight each. */
  ghost predicate SamplerInputs(sqrt: real -> real, d: Distribution, m: seq<real>, h: seq<real>)
  {
    IsSqrt(sqrt) && ValidModes(m, h) && d.Sized(|m|)
  }

  /** Row `s` of a Gaussian sampler, drawn right after reseeding with `v`, and the state it leaves. */
  function SampleRow(sqrt: real -> real, reseed: int -> RngState, gauss: RngState -> (real, RngState),
                     d: Distribution, m: seq<real>, h: seq<real>, v: int): (r: (seq<Complex>, RngState))
    requires SamplerInputs(sqrt, d, m, h)
    ensures |r.0| == |m|
  {
    var (q, st1) := Normal(gauss, reseed(v), d.muQ, d.stdQ);
    var (p, st2) := Normal(gauss, st1, d.muP, d.stdP);
    (QpToZVec(sqrt, q, p, m, h), st2)
  }

  /** The whole output of a Gaussian sampler, row by row. */
  function Rows(sqrt: real -> real, reseed: int -> RngState, gauss: RngState -> (real, RngState),
                d: Distribution, m: seq<real>, h: seq<real>, seeds: seq<int>): (out: seq<seq<Complex>>)
    requires SamplerInputs(sqrt, d, m, h)
    ensures |out| == |seeds|
    ensures forall s :: 0 <= s < |seeds| ==> |out[s]| == |m|
  {
    seq(|seeds|, s requires 0 <= s < |seeds| => SampleRow(sqrt, reseed, gauss, d, m, h, seeds[s]).0)
  }

  /**
   * The loop shared by the Boltzmann, Wigner and coherent-state samplers:
   * `out[s]` is drawn right after reseeding with `seeds[s]`, and the
   * generator is left as the last row left it.
   */
  method GaussianInitClassical(rng: Generator, sqrt: real -> real, d: Distribution, m: seq<real>, h: seq<real>, seeds: seq<int>)
    returns (out: array<seq<Complex>>)
    requires SamplerInputs(sqrt, d, m, h)
    modifies rng
    ensures fresh(out) && out.Length == |seeds|
    ensures out[..] == Rows(sqrt, rng.reseed, rng.gauss, d, m, h, seeds)
    ensures |seeds| > 0 ==> rng.state == SampleRow(sqrt, rng.reseed, rng.gauss, d, m, h, seeds[|seeds| - 1]).1
    ensures |seeds| == 0 ==> rng.state == old(rng.state)
  {
    out := new seq<Complex>[|seeds|](_ => Repeat(|m|, Zero));
    ghost var rows := Rows(sqrt, rng.reseed, rng.gauss, d, m, h, seeds);
    for s := 0 to |seeds|
      invariant out[..s] == rows[..s]
      invariant s > 0 ==> rng.state == SampleRow(sqrt, rng.reseed, rng.gauss, d, m, h, seeds[s - 1]).1
      invariant s == 0 ==> rng.state == old(rng.state)
    {
      out[s] := DrawRow(rng, sqrt, d, m, h, seeds[s]);
      assert out[..s + 1] == out[..s] + [out[s]];
    }
    assert out[..] == out[..|seeds|];
  }

  /** One pass of the sampler loop: reseed with `v`, draw `q`, then `p`, and convert them to `z`. */
  method DrawRow(rng: Generator, sqrt: real -> real, d: Distribution, m: seq<real>, h: seq<real>, v: int)
    returns (row: seq<Complex>)
    requires SamplerInputs(sqrt, d, m, h)
    modifies rng
    ensures (row, rng.state) == SampleRow(sqrt, rng.reseed, rng.gauss, d, m, h, v)
  {
    rng.state := rng.reseed(v);
    var drawQ := Normal(rng.gauss, rng.state, d.muQ, d.stdQ);
    rng.state := drawQ.1;
    var drawP := Normal(rng.gauss, rng.state, d.muP, d.stdP);
    rng.state := drawP.1;
    row := QpToZVec(sqrt, drawQ.0, drawP.0, m, h);
  }

  /** Row `s` depends on nothing but `seeds[s]`: equal seeds give equal rows, wherever they sit. */
  lemma RowDependsOnlyOnSeed(sqrt: real -> real, reseed: int -> RngState, gauss: RngState -> (real, RngState),
                             d: Distribution, m: seq<real>, h: seq<real>, seeds: seq<int>, other: seq<int>, s: nat, t: nat)
    requires SamplerInputs(sqrt, d, m, h)
    requires s < |seeds| && t < |other| && seeds[s] == other[t]
    ensures Rows(sqrt, reseed, gauss, d, m, h, seeds)[s] == Rows(sqrt, reseed, gauss, d, m, h, other)[t]
  {
  }

  /** Permuting the seeds permutes the rows the same way. */
  lemma RowsPermute(sqrt: real -> real, reseed: int -> RngState, gauss: RngState -> (real, RngState),
                    d: Distribution, m: seq<real>, h: seq<real>, seeds: seq<int>, perm: seq<nat>)
    requires SamplerInputs(sqrt, d, m, h)
    requires forall i :: 0 <= i < |perm| ==> perm[i] < |seeds|
    ensures var permuted := seq(|perm|, i requires 0 <= i < |perm| => seeds[perm[i]]);
      var rows := Rows(sqrt, reseed, gauss, d, m, h, seeds);
      Rows(sqrt, reseed, gauss, d, m, h, permuted) == seq(|perm|, i requires 0 <= i < |perm| => rows[perm[i]])
  {
  }

  /** Splitting the seeds into batches and concatenating the outputs gives the output of the whole. */
  lemma RowsSplit(sqrt: real -> real, reseed: int -> RngState, gauss: RngState -> (real, RngState),
                  d: Distribution, m: seq<real>, h: seq<real>, a: seq<int>, b: seq<int>)
    requires SamplerInputs(sqrt, d, m, h)
    ensures Rows(sqrt, reseed, gauss, d, m, h, a + b) == Rows(sqrt, reseed, gauss, d, m, h, a) + Rows(sqrt, reseed, gauss, d, m, h, b)
  {
  }

  // ---------------------------------------------------------------- the distributions

  /** Boltzmann statistics: zero means, spreads `sqrt(kBT / (m w^2))` and `sqrt(m kBT)`. */
  function BoltzmannDistribution(sqrt: real -> real, kBT: real, m: seq<real>, w: seq<real>): (d: Distribution)
    requires |w| == |m| && forall k :: 0 <= k < |m| ==> m[k] * (w[k] * w[k]) != 0.0
    ensures d.Sized(|m|)
  {
    var n := |m|;
    Distribution(
      Repeat(n, 0.0), seq(n, k requires 0 <= k < n => sqrt(kBT / (m[k] * (w[k] * w[k])))),
      Repeat(n, 0.0), seq(n, k requires 0 <= k < n => sqrt(m[k] * kBT)))
  }

  /** The spreads of the ground state of each oscillator: `sqrt(1 / (2 w m))` and `sqrt(m w / 2)`. */
  function GroundSpreads(sqrt: real -> real, m: seq<real>, w: seq<real>): (r: (seq<real>, seq<real>))
    requires |w| == |m| && forall k :: 0 <= k < |m| ==> w[k] * m[k] != 0.0
    ensures |r.0| == |m| && |r.1| == |m|
  {
    var n := |m|;
    (seq(n, k requires 0 <= k < n => GroundQ(sqrt, m[k], w[k])),
     seq(n, k requires 0 <= k < n => GroundP(sqrt, m[k], w[k])))
  }

  function GroundQ(sqrt: real -> real, m: real, w: real): real
    requires w * m != 0.0
  {
    sqrt(1.0 / (2.0 * w * m))
  }

  function GroundP(sqrt: real -> real, m: real, w: real): real
  {
    sqrt(m * w / 2.0)
  }

  /**
   * The Wigner distribution of the thermal oscillator: zero means; above
   * zero temperature the ground spreads are divided by `tanh(w / 2kBT)`
   * inside the root, at or below zero temperature they are the ground spreads.
   */
  function WignerDistribution(sqrt: real -> real, tanh: real -> real, kBT: real, m: seq<real>, w: seq<real>): (d: Distribution)
    requires |w| == |m| && forall k :: 0 <= k < |m| ==> w[k] * m[k] != 0.0
    requires kBT > 0.0 ==> forall k :: 0 <= k < |m| ==> tanh(w[k] / (2.0 * kBT)) != 0.0
    ensures d.Sized(|m|)
  {
    var n := |m|;
    if kBT > 0.0 then
      Distribution(
        Repeat(n, 0.0), seq(n, k requires 0 <= k < n => ThermalQ(sqrt, m[k], w[k], tanh(w[k] / (2.0 * kBT)))),
        Repeat(n, 0.0), seq(n, k requires 0 <= k < n => ThermalP(sqrt, m[k], w[k], tanh(w[k] / (2.0 * kBT)))))
    else
      var spreads := GroundSpreads(sqrt, m, w);
      Distribution(Repeat(n, 0.0), spreads.0, Repeat(n, 0.0), spreads.1)
  }

  /** One mode's thermal spreads, `sqrt(1 / (2 w m t))` and `sqrt(m w / 2t)` with `t = tanh(w / 2kBT)`. */
  function ThermalQ(sqrt: real -> real, m: real, w: real, t: real): real
    requires w * m != 0.0 && t != 0.0
  {
    sqrt(1.0 / (2.0 * w * m * t))
  }

  function ThermalP(sqrt: real -> real, m: real, w: real, t: real): real
    requires t != 0.0
  {
    sqrt(m * w / (2.0 * t))
  }

  /** One mode's coherent-state mean, `sqrt(2 / (m w))` times a part of the displacement. */
  function CoherentShift(sqrt: real -> real, m: real, w: real, x: real): real
    requires w * m != 0.0
  {
    sqrt(2.0 / (m * w)) * x
  }

  /** The Wigner distribution of the coherent state with displacement `a`: shifted means, ground spreads. */
  function CoherentDistribution(sqrt: real -> real, a: seq<Complex>, m: seq<real>, w: seq<real>): (d: Distribution)
    requires |w| == |m| && |a| == |m| && forall k :: 0 <= k < |m| ==> w[k] * m[k] != 0.0
    ensures d.Sized(|m|)
  {
    var n := |m|;
    var spreads := GroundSpreads(sqrt, m, w);
    Distribution(
      seq(n, k requires 0 <= k < n => CoherentShift(sqrt, m[k], w[k], a[k].re)), spreads.0,
      seq(n, k requires 0 <= k < n => CoherentShift(sqrt, m[k], w[k], a[k].im)), spreads.1)
  }

  /** At zero temperature the Wigner sampler draws from the coherent state of zero displacement. */
  lemma WignerZeroTemperature(sqrt: real -> real, tanh: real -> real, kBT: real, m: seq<real>, w: seq<real>)
    requires |w| == |m| && forall k :: 0 <= k < |m| ==> w[k] * m[k] != 0.0
    requires kBT <= 0.0
    ensures WignerDistribution(sqrt, tanh, kBT, m, w) == CoherentDistribution(sqrt, Repeat(|m|, Zero), m, w)
  {
    var d := WignerDistribution(sqrt, tanh, kBT, m, w);
    var e := CoherentDistribution(sqrt, Repeat(|m|, Zero), m, w);
    assert d.muQ == e.muQ;
    assert d.muP == e.muP;
  }

  /**
   * Boltzmann statistics obey equipartition: with zero means, every mode's
   * `m w^2 <q^2>` and `<p^2> / m` are both `kBT`.
   */
  lemma BoltzmannEquipartition(sqrt: real -> real, kBT: real, m: seq<real>, w: seq<real>, k: nat)
    requires IsSqrt(sqrt) && |w| == |m| && forall j :: 0 <= j < |m| ==> m[j] > 0.0 && w[j] != 0.0
    requires kBT >= 0.0 && k < |m|
    ensures forall j :: 0 <= j < |m| ==> m[j] * (w[j] * w[j]) != 0.0
    ensures var d := BoltzmannDistribution(sqrt, kBT, m, w);
      && d.muQ[k] == 0.0 && d.muP[k] == 0.0
      && m[k] * (w[k] * w[k]) * (d.stdQ[k] * d.stdQ[k]) == kBT
      && d.stdP[k] * d.stdP[k] == m[k] * kBT
  {
    forall j | 0 <= j < |m| ensures m[j] * (w[j] * w[j]) != 0.0 {
      EquipartitionMode(sqrt, kBT, m[j], w[j]);
    }
    EquipartitionMode(sqrt, kBT, m[k], w[k]);
  }

  /** One mode of `BoltzmannEquipartition`. */
  lemma EquipartitionMode(sqrt: real -> real, kBT: real, mk: real, wk: real)
    requires IsSqrt(sqrt) && mk > 0.0 && wk != 0.0 && kBT >= 0.0
    ensures mk * (wk * wk) > 0.0
    ensures var s := sqrt(kBT / (mk * (wk * wk))); mk * (wk * wk) * (s * s) == kBT
    ensures var s := sqrt(mk * kBT); s * s == mk * kBT
  {
    var sq := wk * wk;
    PositiveSquare(wk, sq);
    var denom := mk * sq;
    PositiveProduct(mk, sq, denom);
    var x := kBT / denom;
    assert x >= 0.0;
    assert denom * x == kBT;
    assert mk * kBT >= 0.0;
  }

  lemma PositiveProduct(a: real, b: real, p: real)
    requires a > 0.0 && b > 0.0 && p == a * b
    ensures p > 0.0
  {
  }

  lemma PositiveSquare(a: real, p: real)
    requires a != 0.0 && p == a * a
    ensures p > 0.0
  {
    if a > 0.0 {
      PositiveProduct(a, a, p);
    } else {
      PositiveProduct(-a, -a, p);
    }
  }

  /** The ground-state spreads are those of a minimum-uncertainty state: `std_q * std_p == 1/2`. */
  lemma GroundMinimumUncertainty(sqrt: real -> real, m: seq<real>, w: seq<real>, k: nat)
    requires IsSqrt(sqrt) && |w| == |m| && forall j :: 0 <= j < |m| ==> w[j] * m[j] > 0.0
    requires k < |m|
    ensures var s := GroundSpreads(sqrt, m, w); s.0[k] * s.1[k] == 0.5
  {
    var s := GroundSpreads(sqrt, m, w);
    var wm := w[k] * m[k];
    assert wm > 0.0;
    var a, b := GroundQ(sqrt, m[k], w[k]), GroundP(sqrt, m[k], w[k]);
    assert s.0[k] == a && s.1[k] == b;
    assert a * a == 1.0 / (2.0 * wm);
    assert b * b == wm / 2.0;
    assert (a * b) * (a * b) == (a * a) * (b * b);
    SqrtUnique(a * b, 0.5);
  }

  /**
   * Above zero temperature the Wigner spreads are the ground ones widened by
   * `1 / tanh(w / 2kBT)`: their product is `1 / (2 tanh(w / 2kBT))`.
   */
  lemma WignerThermalUncertainty(sqrt: real -> real, tanh: real -> real, kBT: real, m: seq<real>, w: seq<real>, k: nat)
    requires IsSqrt(sqrt) && |w| == |m| && forall j :: 0 <= j < |m| ==> w[j] * m[j] > 0.0
    requires kBT > 0.0 && forall j :: 0 <= j < |m| ==> tanh(w[j] / (2.0 * kBT)) > 0.0
    requires k < |m|
    ensures var d := WignerDistribution(sqrt, tanh, kBT, m, w);
      && d.muQ[k] == 0.0 && d.muP[k] == 0.0
      && d.stdQ[k] * d.stdP[k] * (2.0 * tanh(w[k] / (2.0 * kBT))) == 1.0
  {
    var d := WignerDistribution(sqrt, tanh, kBT, m, w);
    var t := tanh(w[k] / (2.0 * kBT));
    assert d.stdQ[k] == ThermalQ(sqrt, m[k], w[k], t) && d.stdP[k] == ThermalP(sqrt, m[k], w[k], t);
    ThermalMode(sqrt, m[k], w[k], t);
  }

  /** One mode of `WignerThermalUncertainty`. */
  lemma ThermalMode(sqrt: real -> real, m: real, w: real, t: real)
    requires IsSqrt(sqrt) && w * m > 0.0 && t > 0.0
    ensures ThermalQ(sqrt, m, w, t) * ThermalP(sqrt, m, w, t) * (2.0 * t) == 1.0
  {
    var wm, t2 := w * m, 2.0 * t;
    var p := 2.0 * w * m * t;
    assert p == wm * t2;
    PositiveProduct(wm, t2, p);
    var a, b := ThermalQ(sqrt, m, w, t), ThermalP(sqrt, m, w, t);
    var x, y := 1.0 / p, m * w / t2;
    PositiveQuotient(1.0, p, x);
    PositiveQuotient(wm, t2, y);
    var u, v := a * a, b * b;
    assert u == x && v == y;
    assert u * p == 1.0 && v * t2 == wm;
    var c := a * b * t2;
    assert c * c == (u * v) * (t2 * t2);
    assert (u * v) * (t2 * t2) == u * (v * t2) * t2;
    assert u * (v * t2) * t2 == u * p;
    assert c >= 0.0;
    SqrtUnique(c, 1.0);
  }

  lemma PositiveQuotient(x: real, y: real, q: real)
    requires x > 0.0 && y > 0.0 && q == x / y
    ensures q > 0.0
  {
  }

  /**
   * The coherent sampler's means, mapped to `z` with weights equal to the
   * frequencies: the real part is the displacement's, but the imaginary part
   * is the displacement's divided by `m w`, because the momentum mean carries
   * the position's prefactor `sqrt(2 / (m w))`.
   */
  lemma CoherentMeanCoordinate(sqrt: real -> real, a: seq<Complex>, m: seq<real>, w: seq<real>, k: nat)
    requires IsSqrt(sqrt) && |w| == |m| && |a| == |m| && forall j :: 0 <= j < |m| ==> w[j] * m[j] > 0.0
    requires k < |m|
    ensures var d := CoherentDistribution(sqrt, a, m, w);
      var z := QpToZ(sqrt, d.muQ[k], d.muP[k], m[k], w[k]);
      z.re == a[k].re && z.im * (m[k] * w[k]) == a[k].im
  {
    var d := CoherentDistribution(sqrt, a, m, w);
    assert d.muQ[k] == CoherentShift(sqrt, m[k], w[k], a[k].re);
    assert d.muP[k] == CoherentShift(sqrt, m[k], w[k], a[k].im);
    CoherentMode(sqrt, a[k], m[k], w[k]);
  }

  /** One mode of `CoherentMeanCoordinate`. */
  lemma CoherentMode(sqrt: real -> real, ak: Complex, m: real, w: real)
    requires IsSqrt(sqrt) && w * m > 0.0
    ensures ValidMode(m, w)
    ensures var z := QpToZ(sqrt, CoherentShift(sqrt, m, w, ak.re), CoherentShift(sqrt, m, w, ak.im), m, w);
      z.re == ak.re && z.im * (m * w) == ak.im
  {
    var mw := m * w;
    assert mw > 0.0;
    var s, r := sqrt(mw / 2.0), sqrt(2.0 / mw);
    PositiveQuotient(mw, 2.0, mw / 2.0);
    PositiveQuotient(2.0, mw, 2.0 / mw);
    ReciprocalRoots(s, r, mw);
    var z := QpToZ(sqrt, CoherentShift(sqrt, m, w, ak.re), CoherentShift(sqrt, m, w, ak.im), m, w);
    assert z.re == s * (r * ak.re);
    assert z.im * (2.0 * s) == r * ak.im;
    ImaginaryMean(s, r, mw, z.im, ak.im);
  }

  /** Two roots whose squares are `x / 2` and `2 / x` are reciprocal. */
  lemma ReciprocalRoots(s: real, r: real, x: real)
    requires x > 0.0 && s >= 0.0 && r >= 0.0 && s * s == x / 2.0 && r * r == 2.0 / x
    ensures s * r == 1.0
  {
    assert (s * r) * (s * r) == (s * s) * (r * r);
    SqrtUnique(s * r, 1.0);
  }

  /** Solving `y * 2s == r * v` for `y` when `s * r == 1` and `s * s == x / 2`. */
  lemma ImaginaryMean(s: real, r: real, x: real, y: real, v: real)
    requires s * r == 1.0 && s * s == x / 2.0 && y * (2.0 * s) == r * v
    ensures y * x == v
  {
    assert y * x == (y * (2.0 * s)) * s;
    assert (r * v) * s == (s * r) * v;
  }

  // ---------------------------------------------------------------- the three Gaussian samplers

  /** `harmonic_oscillator_boltzmann_init_classical`: the shared sampler loop on the Boltzmann distribution. */
  method HarmonicOscillatorBoltzmannInitClassical(rng: Generator, sqrt: real -> real, kBT: real, m: seq<real>, w: seq<real>,
                                                  h: seq<real>, seeds: seq<int>)
    returns (out: array<seq<Complex>>)
    requires IsSqrt(sqrt) && ValidModes(m, h) && |w| == |m|
    requires forall k :: 0 <= k < |m| ==> m[k] * (w[k] * w[k]) != 0.0
    modifies rng
    ensures fresh(out) && out[..] == Rows(sqrt, rng.reseed, rng.gauss, BoltzmannDistribution(sqrt, kBT, m, w), m, h, seeds)
    ensures |seeds| > 0 ==> rng.state == SampleRow(sqrt, rng.reseed, rng.gauss, BoltzmannDistribution(sqrt, kBT, m, w), m, h, seeds[|seeds| - 1]).1
    ensures |seeds| == 0 ==> rng.state == old(rng.state)
  {
    out := GaussianInitClassical(rng, sqrt, BoltzmannDistribution(sqrt, kBT, m, w), m, h, seeds);
  }

  /** `harmonic_oscillator_wigner_init_classical`: the shared sampler loop on the thermal Wigner distribution. */
  method HarmonicOscillatorWignerInitClassical(rng: Generator, sqrt: real -> real, tanh: real -> real, kBT: real,
                                               m: seq<real>, w: seq<real>, h: seq<real>, seeds: seq<int>)
    returns (out: array<seq<Complex>>)
    requires IsSqrt(sqrt) && ValidModes(m, h) && |w| == |m|
    requires forall k :: 0 <= k < |m| ==> w[k] * m[k] != 0.0
    requires kBT > 0.0 ==> forall k :: 0 <= k < |m| ==> tanh(w[k] / (2.0 * kBT)) != 0.0
    modifies rng
    ensures fresh(out) && out[..] == Rows(sqrt, rng.reseed, rng.gauss, WignerDistribution(sqrt, tanh, kBT, m, w), m, h, seeds)
    ensures |seeds| > 0 ==> rng.state == SampleRow(sqrt, rng.reseed, rng.gauss, WignerDistribution(sqrt, tanh, kBT, m, w), m, h, seeds[|seeds| - 1]).1
    ensures |seeds| == 0 ==> rng.state == old(rng.state)
  {
    out := GaussianInitClassical(rng, sqrt, WignerDistribution(sqrt, tanh, kBT, m, w), m, h, seeds);
  }

  /** `harmonic_oscillator_coherent_state_wigner_init_classical`: the shared sampler loop on the coherent state. */
  method HarmonicOscillatorCoherentStateWignerInitClassical(rng: Generator, sqrt: real -> real, a: seq<Complex>,
                                                            m: seq<real>, w: seq<real>, h: seq<real>, seeds: seq<int>)
    returns (out: array<seq<Complex>>)
    requires IsSqrt(sqrt) && ValidModes(m, h) && |w| == |m| && |a| == |m|
    requires forall k :: 0 <= k < |m| ==> w[k] * m[k] != 0.0
    modifies rng
    ensures fresh(out) && out[..] == Rows(sqrt, rng.reseed, rng.gauss, CoherentDistribution(sqrt, a, m, w), m, h, seeds)
    ensures |seeds| > 0 ==> rng.state == SampleRow(sqrt, rng.reseed, rng.gauss, CoherentDistribution(sqrt, a, m, w), m, h, seeds[|seeds| - 1]).1
    ensures |seeds| == 0 ==> rng.state == old(rng.state)
  {
    out := GaussianInitClassical(rng, sqrt, CoherentDistribution(sqrt, a, m, w), m, h, seeds);
  }

  // ---------------------------------------------------------------- the definite sampler

  /**
   * `definite_position_momentum_init_classical`: reseeds for every seed but
   * draws nothing, writing `qp_to_z(init_position, init_momentum)` into every row.
   */
  method DefinitePositionMomentumInitClassical(rng: Generator, sqrt: real -> real, q: seq<real>, p: seq<real>,
                                               m: seq<real>, h: seq<real>, seeds: seq<int>)
    returns (out: array<seq<Complex>>)
    requires IsSqrt(sqrt) && ValidModes(m, h) && |q| == |m| && |p| == |m|
    modifies rng
    ensures fresh(out) && out.Length == |seeds|
    ensures forall s :: 0 <= s < |seeds| ==> out[s] == QpToZVec(sqrt, q, p, m, h)
    ensures |seeds| > 0 ==> rng.state == rng.reseed(seeds[|seeds| - 1])
    ensures |seeds| == 0 ==> rng.state == old(rng.state)
  {
    out := new seq<Complex>[|seeds|](_ => Repeat(|m|, Zero));
    for s := 0 to |seeds|
      invariant forall k :: 0 <= k < s ==> out[k] == QpToZVec(sqrt, q, p, m, h)
      invariant s > 0 ==> rng.state == rng.reseed(seeds[s - 1])
      invariant s == 0 ==> rng.state == old(rng.state)
    {
      rng.state := rng.reseed(seeds[s]);
      out[s] := QpToZVec(sqrt, q, p, m, h);
    }
  }
}
