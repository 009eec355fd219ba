/**
 * The canonical transform between the complex classical coordinate `z` of one
 * mode and its real position and momentum `(q, p)`, for a mode of mass `m` and
 * weight `h` (`z_to_qp` and `qp_to_z` in qc_lab/ingredients.py).
 */
module Canonical {
  import opened Numbers

  /** A valid mode: the products under the square roots are positive. */
  predicate ValidMode(m: real, h: real) { m * h > 0.0 }

  /**
   * `z_to_qp` for one mode. With `s = sqrt(m*h/2)`, the position is `Re z / s`
   * and the momentum is `2 * s * Im z`.
   */
  function ZToQp(sqrt: real -> real, z: Complex, m: real, h: real): (r: (real, real))
    requires IsSqrt(sqrt) && ValidMode(m, h)
    ensures r.0 * sqrt(m * h / 2.0) == z.re
    ensures r.1 == 2.0 * sqrt(m * h / 2.0) * z.im
  {
    var s := sqrt(m * h / 2.0);
    SqrtRelations(sqrt, m, h);
    var q := Mul(FromReal(1.0 / sqrt(2.0 * m * h)), Add(z, Conj(z))).re;
    var p := Mul(Mul(I, FromReal(s)), Sub(Conj(z), z)).re;
    assert q == z.re / s;
    (q, p)
  }

  /** `qp_to_z` for one mode: `z = sqrt(m*h/2) * q + i * sqrt(1/(2*m*h)) * p`. */
  function QpToZ(sqrt: real -> real, q: real, p: real, m: real, h: real): (z: Complex)
    requires IsSqrt(sqrt) && ValidMode(m, h)
    ensures z.re == sqrt(m * h / 2.0) * q
    ensures z.im * (2.0 * sqrt(m * h / 2.0)) == p
  {
    SqrtRelations(sqrt, m, h);
    Add(FromReal(sqrt(m * h / 2.0) * q), Mul(Mul(I, FromReal(sqrt(1.0 / (2.0 * m * h)))), FromReal(p)))
  }

  /** The three square roots used by the transform are tied to `s = sqrt(m*h/2)`, which is positive. */
  lemma SqrtRelations(sqrt: real -> real, m: real, h: real)
    requires IsSqrt(sqrt) && ValidMode(m, h)
    ensures sqrt(m * h / 2.0) > 0.0
    ensures sqrt(2.0 * m * h) == 2.0 * sqrt(m * h / 2.0)
    ensures sqrt(1.0 / (2.0 * m * h)) * (2.0 * sqrt(m * h / 2.0)) == 1.0
  {
    var s := sqrt(m * h / 2.0);
    assert s * s == m * h / 2.0;
    assert s != 0.0;
    var t := sqrt(2.0 * m * h);
    assert (2.0 * s) * (2.0 * s) == 4.0 * (s * s);
    SqrtUnique(t, 2.0 * s);
    var u := sqrt(1.0 / (2.0 * m * h));
    var v := 1.0 / (2.0 * s);
    assert v * v == 1.0 / (2.0 * m * h) by {
      assert v * v == 1.0 / (4.0 * (s * s));
    }
    SqrtUnique(u, v);
  }

  /** Round trip `qp_to_z(z_to_qp(z)) == z` for every coordinate of a valid mode. */
  lemma RoundTripZ(sqrt: real -> real, z: Complex, m: real, h: real)
    requires IsSqrt(sqrt) && ValidMode(m, h)
    ensures var qp := ZToQp(sqrt, z, m, h); QpToZ(sqrt, qp.0, qp.1, m, h) == z
  {
    var s := sqrt(m * h / 2.0);
    SqrtRelations(sqrt, m, h);
    var qp := ZToQp(sqrt, z, m, h);
    var w := QpToZ(sqrt, qp.0, qp.1, m, h);
    assert w.re == z.re;
    assert w.im * (2.0 * s) == z.im * (2.0 * s);
  }

  /** Round trip `z_to_qp(qp_to_z(q, p)) == (q, p)`. */
  lemma RoundTripQp(sqrt: real -> real, q: real, p: real, m: real, h: real)
    requires IsSqrt(sqrt) && ValidMode(m, h)
    ensures var z := QpToZ(sqrt, q, p, m, h); ZToQp(sqrt, z, m, h) == (q, p)
  {
    var s := sqrt(m * h / 2.0);
    SqrtRelations(sqrt, m, h);
    var z := QpToZ(sqrt, q, p, m, h);
    var r := ZToQp(sqrt, z, m, h);
    assert r.0 * s == q * s;
  }

  /** Every mode of a coordinate vector is valid. */
  predicate ValidModes(m: seq<real>, h: seq<real>)
  {
    |m| == |h| && forall k :: 0 <= k < |m| ==> ValidMode(m[k], h[k])
  }

  /** `z_to_qp` on a vector of modes, elementwise. */
  function ZToQpVec(sqrt: real -> real, z: seq<Complex>, m: seq<real>, h: seq<real>): (r: (seq<real>, seq<real>))
    requires IsSqrt(sqrt) && ValidModes(m, h) && |z| == |m|
    ensures |r.0| == |r.1| == |z|
    ensures forall k :: 0 <= k < |z| ==> (r.0[k], r.1[k]) == ZToQp(sqrt, z[k], m[k], h[k])
  {
    (seq(|z|, k requires 0 <= k < |z| => ZToQp(sqrt, z[k], m[k], h[k]).0),
     seq(|z|, k requires 0 <= k < |z| => ZToQp(sqrt, z[k], m[k], h[k]).1))
  }

  /** `qp_to_z` on a vector of modes, elementwise. */
  function QpToZVec(sqrt: real -> real, q: seq<real>, p: seq<real>, m: seq<real>, h: seq<real>): (z: seq<Complex>)
    requires IsSqrt(sqrt) && ValidModes(m, h) && |q| == |p| == |m|
    ensures |z| == |q|
    ensures forall k :: 0 <= k < |q| ==> z[k] == QpToZ(sqrt, q[k], p[k], m[k], h[k])
  {
    seq(|q|, k requires 0 <= k < |q| => QpToZ(sqrt, q[k], p[k], m[k], h[k]))
  }

  /** The vector round trip: converting to `(q, p)` and back returns the same coordinates. */
  lemma RoundTripZVec(sqrt: real -> real, z: seq<Complex>, m: seq<real>, h: seq<real>)
    requires IsSqrt(sqrt) && ValidModes(m, h) && |z| == |m|
    ensures var qp := ZToQpVec(sqrt, z, m, h); QpToZVec(sqrt, qp.0, qp.1, m, h) == z
  {
    var qp := ZToQpVec(sqrt, z, m, h);
    var w := QpToZVec(sqrt, qp.0, qp.1, m, h);
    forall k | 0 <= k < |z| ensures w[k] == z[k] {
      RoundTripZ(sqrt, z[k], m[k], h[k]);
    }
  }
}
