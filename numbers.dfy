/**
 * Exact complex arithmetic over pairs of reals, and the square root the
 * ingredients use, taken as a parameter that behaves like `np.sqrt` on the
 * non-negative reals.
 */
module Numbers {

  /** A complex number `re + i*im`. */
  datatype Complex = Complex(re: real, im: real)

  const Zero: Complex := Complex(0.0, 0.0)
  /** The imaginary unit `1.0j`. */
  const I: Complex := Complex(0.0, 1.0)

  function FromReal(x: real): Complex { Complex(x, 0.0) }
  function Add(a: Complex, b: Complex): Complex { Complex(a.re + b.re, a.im + b.im) }
  function Sub(a: Complex, b: Complex): Complex { Complex(a.re - b.re, a.im - b.im) }
  function Neg(a: Complex): Complex { Complex(-a.re, -a.im) }
  function Conj(a: Complex): Complex { Complex(a.re, -a.im) }
  function Scale(k: real, a: Complex): Complex { Complex(k * a.re, k * a.im) }
  function Mul(a: Complex, b: Complex): Complex
  {
    Complex(a.re * b.re - a.im * b.im, a.re * b.im + a.im * b.re)
  }

  /** A square root on the non-negative reals: non-negative, and squaring it gives back its argument. */
  ghost predicate IsSqrt(sqrt: real -> real)
  {
    forall x :: x >= 0.0 ==> sqrt(x) >= 0.0 && sqrt(x) * sqrt(x) == x
  }

  lemma SquareLess(x: real, y: real)
    requires 0.0 <= x < y
    ensures x * x < y * y
  {
    var a, b, c := x * x, x * y, y * y;
    assert a <= b;
    assert b < c;
  }

  /** The non-negative square root is unique. */
  lemma SqrtUnique(a: real, b: real)
    requires a >= 0.0 && b >= 0.0 && a * a == b * b
    ensures a == b
  {
    if a < b {
      SquareLess(a, b);
    } else if b < a {
      SquareLess(b, a);
    }
  }

  /** Sums of a sequence of complex numbers, left to right like `np.sum`. */
  function SumC(s: seq<Complex>): Complex
  {
    if s == [] then Zero else Add(SumC(s[..|s| - 1]), s[|s| - 1])
  }

  /** A sum of terms whose imaginary parts vanish is real. */
  lemma {:induction false} SumCReal(s: seq<Complex>)
    requires forall k :: 0 <= k < |s| ==> s[k].im == 0.0
    ensures SumC(s).im == 0.0
  {
    if s != [] {
      SumCReal(s[..|s| - 1]);
    }
  }

  /** A sum of terms whose real parts vanish is purely imaginary. */
  lemma {:induction false} SumCImaginary(s: seq<Complex>)
    requires forall k :: 0 <= k < |s| ==> s[k].re == 0.0
    ensures SumC(s).re == 0.0
  {
    if s != [] {
      SumCImaginary(s[..|s| - 1]);
    }
  }
}
