/**
 * The surface-hopping rescaling solvers of the harmonic oscillator and the
 * free particle. Each builds the coefficients of the quadratic
 * `a * gamma^2 - b * gamma + c = 0` from the classical coordinate `z` and the
 * rescaling direction `dz`, tests the discriminant, picks the root of smaller
 * magnitude and shifts `z` by `-i * gamma * dz`.
 *
 * The coefficients are computed in complex arithmetic, as the source does;
 * their imaginary parts are proved to vanish, so numpy's comparisons of the
 * complex discriminant and of `b` with zero are comparisons of real parts,
 * and the shared solver works on those real parts.
 */
module Hop {
  import opened Wrappers
  import opened Numbers

  // ---------------------------------------------------------------- the shared solver

  /**
   * The rescaling factor: `None` when the discriminant is negative, else the
   * root `(b -/+ sqrt(disc)) / 2a` whose numerator has the sign of `b` removed,
   * or `0` when `a` vanishes.
   */
  function RescaleFactor(sqrt: real -> real, a: real, b: real, c: real): (g: Option<real>)
    requires IsSqrt(sqrt)
    ensures g.Some? <==> b * b - 4.0 * a * c >= 0.0
    ensures g.Some? && a == 0.0 ==> g.value == 0.0
  {
    var disc := b * b - 4.0 * a * c;
    if disc >= 0.0 then
      var gamma := if b < 0.0 then b + sqrt(disc) else b - sqrt(disc);
      Some(if a == 0.0 then 0.0 else gamma / (2.0 * a))
    else
      None
  }

  /** The quadratic whose root the solver looks for. */
  function Quadratic(a: real, b: real, c: real, g: real): real
  {
    a * g * g - b * g + c
  }

  function Abs(x: real): real { if x < 0.0 then -x else x }

  /** Completing the square: `4a (a g^2 - b g + c) == (2ag - b)^2 - (b^2 - 4ac)`. */
  lemma CompleteSquare(a: real, b: real, c: real, g: real)
    ensures 4.0 * a * Quadratic(a, b, c, g) == (2.0 * a * g - b) * (2.0 * a * g - b) - (b * b - 4.0 * a * c)
  {
    var ag := a * g;
    var agg := ag * g;
    assert a * g * g == agg;
    assert (2.0 * a * g - b) * (2.0 * a * g - b) == 4.0 * (ag * ag) - 4.0 * (ag * b) + b * b;
    assert ag * ag == a * agg;
    assert ag * b == a * (b * g);
  }

  /** Dividing the factor back out: `2a * g` is the numerator the solver chose. */
  lemma NumeratorOf(sqrt: real -> real, a: real, b: real, c: real)
    requires IsSqrt(sqrt) && a != 0.0 && b * b - 4.0 * a * c >= 0.0
    ensures var s := sqrt(b * b - 4.0 * a * c);
      2.0 * a * RescaleFactor(sqrt, a, b, c).value == if b < 0.0 then b + s else b - s
  {
    var s := sqrt(b * b - 4.0 * a * c);
    var num := if b < 0.0 then b + s else b - s;
    assert RescaleFactor(sqrt, a, b, c).value == num / (2.0 * a);
  }

  /** When `a` is non-zero and the discriminant is non-negative, the factor is a root of the quadratic. */
  lemma RescaleRoot(sqrt: real -> real, a: real, b: real, c: real)
    requires IsSqrt(sqrt) && a != 0.0 && b * b - 4.0 * a * c >= 0.0
    ensures Quadratic(a, b, c, RescaleFactor(sqrt, a, b, c).value) == 0.0
  {
    var disc := b * b - 4.0 * a * c;
    var s := sqrt(disc);
    var g := RescaleFactor(sqrt, a, b, c).value;
    NumeratorOf(sqrt, a, b, c);
    var d := 2.0 * a * g - b;
    assert d == s || d == -s;
    assert d * d == s * s;
    CompleteSquare(a, b, c, g);
    var q := Quadratic(a, b, c, g);
    assert 4.0 * a * q == 0.0;
    if q != 0.0 {
      NonzeroProduct(4.0 * a, q);
      assert false;
    }
  }

  lemma NonzeroProduct(x: real, y: real)
    requires x != 0.0 && y != 0.0
    ensures x * y != 0.0
  {
  }

  /** Every root `r` of the quadratic satisfies `2ar - b = +/- sqrt(disc)`. */
  lemma RootsAreTheTwo(sqrt: real -> real, a: real, b: real, c: real, r: real)
    requires IsSqrt(sqrt) && Quadratic(a, b, c, r) == 0.0
    ensures b * b - 4.0 * a * c >= 0.0
    ensures var s := sqrt(b * b - 4.0 * a * c); 2.0 * a * r - b == s || 2.0 * a * r - b == -s
  {
    var disc := b * b - 4.0 * a * c;
    var d := 2.0 * a * r - b;
    CompleteSquare(a, b, c, r);
    assert d * d == disc;
    var s := sqrt(disc);
    var m := Abs(d);
    assert m * m == d * d;
    SqrtUnique(m, s);
  }

  /** No real factor exists exactly when the solver reports the hop as impossible. */
  lemma RescaleNoneNoRoot(sqrt: real -> real, a: real, b: real, c: real, r: real)
    requires IsSqrt(sqrt) && RescaleFactor(sqrt, a, b, c).None?
    ensures Quadratic(a, b, c, r) != 0.0
  {
    if Quadratic(a, b, c, r) == 0.0 {
      RootsAreTheTwo(sqrt, a, b, c, r);
      assert false;
    }
  }

  /** Among all roots of the quadratic, the solver's has the smallest magnitude. */
  lemma RescaleSmallest(sqrt: real -> real, a: real, b: real, c: real, r: real)
    requires IsSqrt(sqrt) && a != 0.0 && Quadratic(a, b, c, r) == 0.0
    ensures RescaleFactor(sqrt, a, b, c).Some?
    ensures Abs(RescaleFactor(sqrt, a, b, c).value) <= Abs(r)
  {
    RootsAreTheTwo(sqrt, a, b, c, r);
    var s := sqrt(b * b - 4.0 * a * c);
    var g := RescaleFactor(sqrt, a, b, c).value;
    NumeratorOf(sqrt, a, b, c);
    SmallerNumerator(b, s, 2.0 * a * r - b);
    AbsCancel(2.0 * a, g, r);
  }

  /** Removing the sign of `b` gives the numerator of smaller magnitude. */
  lemma SmallerNumerator(b: real, s: real, d: real)
    requires s >= 0.0 && (d == s || d == -s)
    ensures Abs(if b < 0.0 then b + s else b - s) <= Abs(b + d)
  {
  }

  lemma AbsCancel(k: real, x: real, y: real)
    requires k != 0.0 && Abs(k * x) <= Abs(k * y)
    ensures Abs(x) <= Abs(y)
  {
    ScaledAbs(k, x);
    ScaledAbs(k, y);
    CancelPositive(Abs(k), Abs(x), Abs(y));
  }

  lemma ScaledAbs(k: real, x: real)
    ensures Abs(k * x) == Abs(k) * Abs(x)
  {
  }

  lemma CancelPositive(k: real, x: real, y: real)
    requires k > 0.0 && k * x <= k * y
    ensures x <= y
  {
  }

  // ---------------------------------------------------------------- outcome of a hop

  /** `-1j * gamma * dz`: the shift along the rescaling direction. */
  function Shift(gamma: real, dz: seq<Complex>): (shift: seq<Complex>)
    ensures |shift| == |dz|
    ensures forall k :: 0 <= k < |dz| ==> shift[k] == Complex(gamma * dz[k].im, -(gamma * dz[k].re))
  {
    seq(|dz|, k requires 0 <= k < |dz| => Mul(Complex(0.0, -gamma), dz[k]))
  }

  /**
   * The value both hop functions return: the shift and `True` when the
   * solver found a factor, `zeros_like(z)` and `False` otherwise.
   */
  function HopOutcome(g: Option<real>, z: seq<Complex>, dz: seq<Complex>): (r: (seq<Complex>, bool))
    ensures r.1 <==> g.Some?
    ensures !r.1 ==> r.0 == Repeat(|z|, Zero)
    ensures r.1 ==> r.0 == Shift(g.value, dz)
  {
    match g
    case None => (Repeat(|z|, Zero), false)
    case Some(gamma) => (Shift(gamma, dz), true)
  }

  // ---------------------------------------------------------------- harmonic oscillator

  /** The per-mode constants `0.25 * (w^2 / h - h)` and `0.25 * (w^2 / h + h)`. */
  function HoConstA(w: real, h: real): real
    requires h != 0.0
  {
    0.25 * (w * w / h - h)
  }

  function HoConstB(w: real, h: real): real
    requires h != 0.0
  {
    0.25 * (w * w / h + h)
  }

  predicate HoInputs(freq: seq<real>, weight: seq<real>, z: seq<Complex>, dz: seq<Complex>)
  {
    |freq| == |z| && |weight| == |z| && |dz| == |z| && forall k :: 0 <= k < |z| ==> weight[k] != 0.0
  }

  /** Mode `k`'s term of `akj`: `2 conj(dz) dz b - a (dz^2 + conj(dz)^2)`. */
  function HoTermA(ak: real, bk: real, dz: Complex): (t: Complex)
    ensures t.im == 0.0
  {
    var dzc := Conj(dz);
    var u := Mul(dzc, dz);
    var v := Add(Mul(dz, dz), Mul(dzc, dzc));
    assert u.im == 0.0 by {
      assert u.im == dz.re * dz.im + (-dz.im) * dz.re;
    }
    assert v.im == 0.0 by {
      assert v.im == (dz.re * dz.im + dz.im * dz.re) + (dz.re * (-dz.im) + (-dz.im) * dz.re);
    }
    Sub(Scale(2.0 * bk, u), Scale(ak, v))
  }

  /** Mode `k`'s term of `bkj` before the factor `2j`: `(z dz - conj(dz) conj(z)) a + (dz conj(z) - conj(dz) z) b`. */
  function HoTermB(ak: real, bk: real, z: Complex, dz: Complex): (t: Complex)
    ensures t.re == 0.0
  {
    var dzc, zc := Conj(dz), Conj(z);
    var u := Sub(Mul(z, dz), Mul(dzc, zc));
    var v := Sub(Mul(dz, zc), Mul(dzc, z));
    assert u.re == 0.0 by {
      assert u.re == (z.re * dz.re - z.im * dz.im) - (dz.re * z.re - (-dz.im) * (-z.im));
    }
    assert v.re == 0.0 by {
      assert v.re == (dz.re * z.re - dz.im * (-z.im)) - (dz.re * z.re - (-dz.im) * z.im);
    }
    Add(Scale(ak, u), Scale(bk, v))
  }

  /** The harmonic oscillator's `(akj, bkj)`, summed over the modes. */
  function HoCoefficients(freq: seq<real>, weight: seq<real>, z: seq<Complex>, dz: seq<Complex>): (ab: (Complex, Complex))
    requires HoInputs(freq, weight, z, dz)
  {
    var n := |z|;
    var a := SumC(seq(n, k requires 0 <= k < n => HoTermA(HoConstA(freq[k], weight[k]), HoConstB(freq[k], weight[k]), dz[k])));
    var b := Mul(Complex(0.0, 2.0), SumC(seq(n, k requires 0 <= k < n =>
      HoTermB(HoConstA(freq[k], weight[k]), HoConstB(freq[k], weight[k]), z[k], dz[k]))));
    (a, b)
  }

  /** Both harmonic oscillator coefficients are real. */
  lemma HoCoefficientsReal(freq: seq<real>, weight: seq<real>, z: seq<Complex>, dz: seq<Complex>)
    requires HoInputs(freq, weight, z, dz)
    ensures HoCoefficients(freq, weight, z, dz).0.im == 0.0
    ensures HoCoefficients(freq, weight, z, dz).1.im == 0.0
  {
    var n := |z|;
    SumCReal(seq(n, k requires 0 <= k < n => HoTermA(HoConstA(freq[k], weight[k]), HoConstB(freq[k], weight[k]), dz[k])));
    var inner := SumC(seq(n, k requires 0 <= k < n =>
      HoTermB(HoConstA(freq[k], weight[k]), HoConstB(freq[k], weight[k]), z[k], dz[k])));
    SumCImaginary(seq(n, k requires 0 <= k < n =>
      HoTermB(HoConstA(freq[k], weight[k]), HoConstB(freq[k], weight[k]), z[k], dz[k])));
    assert Mul(Complex(0.0, 2.0), inner).im == 0.0 * inner.im + 2.0 * inner.re;
  }

  /**
   * `harmonic_oscillator_hop_function`: the quadratic has constant term
   * `+ev_diff`; the outcome is the solver's on the real coefficients.
   */
  function HarmonicOscillatorHop(sqrt: real -> real, freq: seq<real>, weight: seq<real>, z: seq<Complex>, dz: seq<Complex>, evDiff: real)
    : (r: (seq<Complex>, bool))
    requires IsSqrt(sqrt) && HoInputs(freq, weight, z, dz)
    ensures var ab := HoCoefficients(freq, weight, z, dz);
      r.1 <==> ab.1.re * ab.1.re - 4.0 * ab.0.re * evDiff >= 0.0
    ensures !r.1 ==> r.0 == Repeat(|z|, Zero)
    ensures var ab := HoCoefficients(freq, weight, z, dz);
      r.1 ==> exists gamma :: (r.0 == Shift(gamma, dz) &&
        (ab.0.re != 0.0 ==> Quadratic(ab.0.re, ab.1.re, evDiff, gamma) == 0.0) && (ab.0.re == 0.0 ==> gamma == 0.0))
  {
    var ab := HoCoefficients(freq, weight, z, dz);
    var g := RescaleFactor(sqrt, ab.0.re, ab.1.re, evDiff);
    if g.Some? && ab.0.re != 0.0 then RescaleRoot(sqrt, ab.0.re, ab.1.re, evDiff); HopOutcome(g, z, dz)
    else HopOutcome(g, z, dz)
  }

  // ---------------------------------------------------------------- free particle

  predicate FpInputs(weight: seq<real>, z: seq<Complex>, dz: seq<Complex>)
  {
    |weight| == |z| && |dz| == |z|
  }

  /** `f = 1j (conj(dz) + dz)` and `g = conj(z) - z`, mode by mode. */
  function FpF(dz: Complex): Complex { Mul(I, Add(Conj(dz), dz)) }
  function FpG(z: Complex): Complex { Sub(Conj(z), z) }

  /** Mode `k`'s term of `akj`: `(h / 4) f f`. */
  function FpTermA(h: real, dz: Complex): (t: Complex)
    ensures t.im == 0.0
  {
    var f := FpF(dz);
    assert f.re == 0.0;
    Scale(h / 4.0, Mul(f, f))
  }

  /** Mode `k`'s term of `-bkj`: `(h / 2) f g`. */
  function FpTermB(h: real, z: Complex, dz: Complex): (t: Complex)
    ensures t.im == 0.0
  {
    var f, g := FpF(dz), FpG(z);
    assert f.re == 0.0 && g.re == 0.0;
    Scale(h / 2.0, Mul(f, g))
  }

  /** The free particle's `(akj, bkj)`, summed over the modes. */
  function FpCoefficients(weight: seq<real>, z: seq<Complex>, dz: seq<Complex>): (ab: (Complex, Complex))
    requires FpInputs(weight, z, dz)
  {
    var n := |z|;
    var a := SumC(seq(n, k requires 0 <= k < n => FpTermA(weight[k], dz[k])));
    var b := Neg(SumC(seq(n, k requires 0 <= k < n => FpTermB(weight[k], z[k], dz[k]))));
    (a, b)
  }

  /** Both free particle coefficients are real. */
  lemma FpCoefficientsReal(weight: seq<real>, z: seq<Complex>, dz: seq<Complex>)
    requires FpInputs(weight, z, dz)
    ensures FpCoefficients(weight, z, dz).0.im == 0.0
    ensures FpCoefficients(weight, z, dz).1.im == 0.0
  {
    var n := |z|;
    SumCReal(seq(n, k requires 0 <= k < n => FpTermA(weight[k], dz[k])));
    SumCReal(seq(n, k requires 0 <= k < n => FpTermB(weight[k], z[k], dz[k])));
  }

  /**
   * `free_particle_hop_function`: the quadratic has constant term
   * `-ev_diff`, the opposite sign to the harmonic oscillator's.
   */
  function FreeParticleHop(sqrt: real -> real, weight: seq<real>, z: seq<Complex>, dz: seq<Complex>, evDiff: real)
    : (r: (seq<Complex>, bool))
    requires IsSqrt(sqrt) && FpInputs(weight, z, dz)
    ensures var ab := FpCoefficients(weight, z, dz);
      r.1 <==> ab.1.re * ab.1.re + 4.0 * ab.0.re * evDiff >= 0.0
    ensures !r.1 ==> r.0 == Repeat(|z|, Zero)
    ensures var ab := FpCoefficients(weight, z, dz);
      r.1 ==> exists gamma :: (r.0 == Shift(gamma, dz) &&
        (ab.0.re != 0.0 ==> Quadratic(ab.0.re, ab.1.re, -evDiff, gamma) == 0.0) && (ab.0.re == 0.0 ==> gamma == 0.0))
  {
    var ab := FpCoefficients(weight, z, dz);
    var g := RescaleFactor(sqrt, ab.0.re, ab.1.re, -evDiff);
    if g.Some? && ab.0.re != 0.0 then RescaleRoot(sqrt, ab.0.re, ab.1.re, -evDiff); HopOutcome(g, z, dz)
    else HopOutcome(g, z, dz)
  }

  /** The free particle's `akj` is `-h` times the sum of the squared real parts of `dz`: never positive. */
  lemma FpTermANonPositive(h: real, dz: Complex)
    requires h >= 0.0
    ensures FpTermA(h, dz).re == -(h * (dz.re * dz.re))
    ensures FpTermA(h, dz).re <= 0.0
  {
    var x := 2.0 * dz.re;
    assert Mul(FpF(dz), FpF(dz)).re == -(x * x);
    var sq := dz.re * dz.re;
    assert x * x == 4.0 * sq;
    assert sq >= 0.0;
    assert h * sq >= 0.0;
  }
}
