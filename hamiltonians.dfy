/**
 * The quantum and quantum-classical Hamiltonian builders of
 * qc_lab/ingredients.py: the two-level system, the nearest-neighbour
 * lattice with its `h_q_mat` cache, the diagonal linear coupling and the
 * sparse cache of its gradient. Model constants arrive as parameters.
 */
module Hamiltonians {
  import opened Wrappers
  import opened Numbers
  import opened Tensors
  import Vectorize

  /** A square complex matrix, as a sequence of rows. */
  type Matrix = seq<seq<Complex>>

  predicate IsSquare(h: Matrix, n: nat)
  {
    |h| == n && forall r :: 0 <= r < n ==> |h[r]| == n
  }

  /** Each entry is the conjugate of its mirror image. */
  predicate Hermitian(h: Matrix)
    requires IsSquare(h, |h|)
  {
    forall r, c :: 0 <= r < |h| && 0 <= c < |h| ==> h[r][c] == Conj(h[c][r])
  }

  /** One pair of mirror entries that are not conjugate rules out Hermiticity. */
  lemma NotHermitian(h: Matrix, r: nat, c: nat)
    requires IsSquare(h, |h|) && r < |h| && c < |h| && h[r][c] != Conj(h[c][r])
    ensures !Hermitian(h)
  {
  }

  // ---------------------------------------------------------------- two-level system

  /** The `2 x 2` slice `[[a, c + i d], [c - i d, b]]`. */
  function TwoLevelSlice(a: real, b: real, c: real, d: real): Matrix
  {
    var id := Complex(0.0, d);  // 1j * d
    [[FromReal(a), Add(FromReal(c), id)], [Sub(FromReal(c), id), FromReal(b)]]
  }

  /** The two-level slice is Hermitian, with `c + i d` above the diagonal and `c - i d` below. */
  lemma TwoLevelHermitian(a: real, b: real, c: real, d: real)
    ensures IsSquare(TwoLevelSlice(a, b, c, d), 2) && Hermitian(TwoLevelSlice(a, b, c, d))
    ensures TwoLevelSlice(a, b, c, d)[0][1] == Complex(c, d) && TwoLevelSlice(a, b, c, d)[1][0] == Complex(c, -d)
  {
    var h := TwoLevelSlice(a, b, c, d);
    assert h[0][1] == Complex(c, d) && h[1][0] == Complex(c, -d);
    assert h[0][1] == Conj(h[1][0]) && h[1][0] == Conj(h[0][1]);
  }

  /** `two_level_system_h_q`: every slice is `[[a, c + i d], [c - i d, b]]`, each constant defaulting to 0. */
  function TwoLevelHq(batchArg: Option<int>, seedCount: nat, consts: map<string, real>): (h: seq<Matrix>)
    requires Vectorize.BatchSize(batchArg, seedCount) >= 0
    ensures |h| == Vectorize.BatchSize(batchArg, seedCount)
    ensures forall b :: 0 <= b < |h| ==> h[b] == TwoLevelSlice(
      Lookup(consts, "two_level_system_a", 0.0), Lookup(consts, "two_level_system_b", 0.0),
      Lookup(consts, "two_level_system_c", 0.0), Lookup(consts, "two_level_system_d", 0.0))
  {
    Repeat(Vectorize.BatchSize(batchArg, seedCount), TwoLevelSlice(
      Lookup(consts, "two_level_system_a", 0.0), Lookup(consts, "two_level_system_b", 0.0),
      Lookup(consts, "two_level_system_c", 0.0), Lookup(consts, "two_level_system_d", 0.0)))
  }

  /** With none of the four constants set, every slice is the zero matrix. */
  lemma TwoLevelDefaults(batchArg: Option<int>, seedCount: nat, consts: map<string, real>)
    requires Vectorize.BatchSize(batchArg, seedCount) >= 0
    requires "two_level_system_a" !in consts && "two_level_system_b" !in consts
    requires "two_level_system_c" !in consts && "two_level_system_d" !in consts
    ensures forall b :: 0 <= b < Vectorize.BatchSize(batchArg, seedCount) ==>
      TwoLevelHq(batchArg, seedCount, consts)[b] == [[Zero, Zero], [Zero, Zero]]
  {
    var zero := TwoLevelSlice(0.0, 0.0, 0.0, 0.0);
    assert zero == [[Zero, Zero], [Zero, Zero]];
  }

  // ---------------------------------------------------------------- nearest-neighbour lattice

  /**
   * Entry (r, c) of the lattice Hamiltonian on `n` sites after the hopping
   * loop and the periodic correction. Both loops accumulate with `+=`, and
   * the lower entry adds the conjugate of the upper entry as it stands at
   * that moment: one site sees both corner writes on its diagonal, and two
   * sites see the corner writes land on the entries the loop already set.
   */
  function LatticeEntry(n: nat, t: Complex, periodic: bool, r: nat, c: nat): Complex
  {
    var hop := Neg(t);
    if periodic && n == 1 && r == 0 && c == 0 then Add(hop, Conj(hop))
    else if periodic && n == 2 && r == 0 && c == 1 then Add(hop, hop)
    else if periodic && n == 2 && r == 1 && c == 0 then Add(Conj(hop), Conj(Add(hop, hop)))
    else if c == r + 1 then hop
    else if r == c + 1 then Conj(hop)
    else if periodic && n >= 3 && r == 0 && c == n - 1 then hop
    else if periodic && n >= 3 && r == n - 1 && c == 0 then Conj(hop)
    else Zero
  }

  /** The `n`-by-`n` lattice Hamiltonian. */
  function LatticeMatrix(n: nat, t: Complex, periodic: bool): (h: Matrix)
    ensures IsSquare(h, n)
    ensures forall r, c :: 0 <= r < n && 0 <= c < n ==> h[r][c] == LatticeEntry(n, t, periodic, r, c)
  {
    seq(n, r requires 0 <= r < n => seq(n, c requires 0 <= c < n => LatticeEntry(n, t, periodic, r, c)))
  }

  /** Only nearest neighbours couple, plus the two corners under periodic boundaries. */
  lemma LatticeSparsity(n: nat, t: Complex, periodic: bool, r: nat, c: nat)
    requires r < n && c < n
    requires LatticeMatrix(n, t, periodic)[r][c] != Zero
    ensures c == r + 1 || r == c + 1 || (periodic && ((r == 0 && c == n - 1) || (r == n - 1 && c == 0)))
  {
  }

  /** From three sites on, the bonds carry `-t` above the diagonal and its conjugate below. */
  lemma LatticeBonds(n: nat, t: Complex, periodic: bool, r: nat)
    requires n >= 3 && r + 1 < n
    ensures LatticeMatrix(n, t, periodic)[r][r + 1] == Neg(t)
    ensures LatticeMatrix(n, t, periodic)[r + 1][r] == Conj(Neg(t))
    ensures periodic ==> LatticeMatrix(n, t, periodic)[0][n - 1] == Neg(t)
    ensures periodic ==> LatticeMatrix(n, t, periodic)[n - 1][0] == Conj(Neg(t))
  {
  }

  /** Two periodic sites: the upper bond doubles to `-2t` and the lower one triples to `-3 conj(t)`. */
  lemma LatticeTwoSitePeriodic(t: Complex)
    ensures LatticeMatrix(2, t, true)[0][1] == Scale(-2.0, t)
    ensures LatticeMatrix(2, t, true)[1][0] == Scale(-3.0, Conj(t))
  {
  }

  /** Mirror entries are conjugate, except for the two-site periodic bonds. */
  lemma LatticeEntryMirror(n: nat, t: Complex, periodic: bool, r: nat, c: nat)
    requires r < n && c < n && !(periodic && n == 2 && t != Zero)
    ensures LatticeEntry(n, t, periodic, r, c) == Conj(LatticeEntry(n, t, periodic, c, r))
  {
  }

  /** The lattice Hamiltonian is Hermitian except on two periodic sites with a non-zero hopping energy. */
  lemma LatticeHermitian(n: nat, t: Complex, periodic: bool)
    ensures Hermitian(LatticeMatrix(n, t, periodic)) <==> !(periodic && n == 2 && t != Zero)
  {
    var h := LatticeMatrix(n, t, periodic);
    if periodic && n == 2 && t != Zero {
      LatticeTwoSitePeriodic(t);
      var gap := Sub(h[1][0], Conj(h[0][1]));
      assert gap == Complex(-t.re, t.im);
      assert gap != Zero;
      NotHermitian(h, 1, 0);
    } else {
      forall r, c | 0 <= r < n && 0 <= c < n ensures h[r][c] == Conj(h[c][r]) {
        LatticeEntryMirror(n, t, periodic, r, c);
      }
    }
  }

  /** The matrix after the hopping loop has run for its first `k` bonds. */
  function BandEntry(t: Complex, k: nat, r: nat, c: nat): Complex
  {
    if c == r + 1 && r < k then Neg(t) else if r == c + 1 && c < k then Conj(Neg(t)) else Zero
  }

  /** One more bond leaves every entry but the bond's own two untouched. */
  lemma BandStep(t: Complex, k: nat, r: nat, c: nat)
    requires !(r == k && c == k + 1) && !(r == k + 1 && c == k)
    ensures BandEntry(t, k + 1, r, c) == BandEntry(t, k, r, c)
  {
  }

  /** Without periodic boundaries the lattice is the full band. */
  lemma LatticeOpen(n: nat, t: Complex, r: nat, c: nat)
    requires r < n && c < n
    ensures LatticeEntry(n, t, false, r, c) == BandEntry(t, n - 1, r, c)
  {
  }

  /** With periodic boundaries, the band plus the two corner writes, the second reading the first. */
  lemma LatticePeriodic(n: nat, t: Complex, r: nat, c: nat)
    requires r < n && c < n
    ensures var upper := Add(BandEntry(t, n - 1, 0, n - 1), Neg(t));
      var lowerBefore := if n == 1 then upper else BandEntry(t, n - 1, n - 1, 0);
      LatticeEntry(n, t, true, r, c) ==
        if r == n - 1 && c == 0 then Add(lowerBefore, Conj(upper))
        else if r == 0 && c == n - 1 then upper
        else BandEntry(t, n - 1, r, c)
  {
  }

  /** One pass of the hopping loop: bond `n` gets `-t` above the diagonal and the conjugate of that below. */
  method AddBond(hq: array2<Complex>, t: Complex, n: nat)
    requires hq.Length0 == hq.Length1 && n + 1 < hq.Length0
    requires forall r, c :: 0 <= r < hq.Length0 && 0 <= c < hq.Length0 ==> hq[r, c] == BandEntry(t, n, r, c)
    modifies hq
    ensures forall r, c :: 0 <= r < hq.Length0 && 0 <= c < hq.Length0 ==> hq[r, c] == BandEntry(t, n + 1, r, c)
  {
    var upper := hq[n, n + 1];
    hq[n, n + 1] := Add(upper, Neg(t));
    var lower := hq[n + 1, n];
    hq[n + 1, n] := Add(lower, Conj(hq[n, n + 1]));
    forall r, c | 0 <= r < hq.Length0 && 0 <= c < hq.Length0
      ensures hq[r, c] == BandEntry(t, n + 1, r, c)
    {
      if !(r == n && c == n + 1) && !(r == n + 1 && c == n) {
        assert hq[r, c] == old(hq[r, c]);
        BandStep(t, n, r, c);
      }
    }
  }

  /**
   * The periodic correction: `-t` is added to the upper corner, then the
   * conjugate of the upper corner as it now stands to the lower corner. With
   * one site both corners are the same cell.
   */
  method AddCorners(hq: array2<Complex>, t: Complex)
    requires hq.Length0 == hq.Length1 && hq.Length0 > 0
    modifies hq
    ensures var n := hq.Length0; var upper := Add(old(hq[0, n - 1]), Neg(t));
      hq[n - 1, 0] == Add(if n == 1 then upper else old(hq[n - 1, 0]), Conj(upper)) &&
      (n > 1 ==> hq[0, n - 1] == upper)
    ensures forall r, c :: 0 <= r < hq.Length0 && 0 <= c < hq.Length0 && !(r == hq.Length0 - 1 && c == 0) && !(r == 0 && c == hq.Length0 - 1) ==> hq[r, c] == old(hq[r, c])
  {
    var n := hq.Length0;
    hq[0, n - 1] := Add(hq[0, n - 1], Neg(t));
    hq[n - 1, 0] := Add(hq[n - 1, 0], Conj(hq[0, n - 1]));
  }

  /** The loop and the periodic correction of `nearest_neighbor_lattice_h_q`, on one `N x N` array. */
  method LatticeFill(numSites: nat, t: Complex, periodic: bool) returns (hq: array2<Complex>)
    requires periodic ==> numSites > 0
    ensures fresh(hq) && hq.Length0 == numSites && hq.Length1 == numSites
    ensures forall r, c :: 0 <= r < numSites && 0 <= c < numSites ==> hq[r, c] == LatticeEntry(numSites, t, periodic, r, c)
  {
    hq := new Complex[numSites, numSites]((_, _) => Zero);
    HoppingLoop(hq, t);
    if periodic {
      PeriodicCorrection(hq, t);
    } else {
      forall r, c | 0 <= r < numSites && 0 <= c < numSites
        ensures hq[r, c] == LatticeEntry(numSites, t, periodic, r, c)
      {
        LatticeOpen(numSites, t, r, c);
      }
    }
  }

  /** The hopping loop over the bonds `n = 0 .. N - 2`, on a zeroed array. */
  method HoppingLoop(hq: array2<Complex>, t: Complex)
    requires hq.Length0 == hq.Length1
    requires forall r, c :: 0 <= r < hq.Length0 && 0 <= c < hq.Length0 ==> hq[r, c] == Zero
    modifies hq
    ensures var bonds: nat := if hq.Length0 == 0 then 0 else hq.Length0 - 1;
      forall r, c :: 0 <= r < hq.Length0 && 0 <= c < hq.Length0 ==> hq[r, c] == BandEntry(t, bonds, r, c)
  {
    var numSites := hq.Length0;
    var n := 0;
    while n + 1 < numSites
      invariant n == 0 || n < numSites
      invariant forall r, c :: 0 <= r < numSites && 0 <= c < numSites ==> hq[r, c] == BandEntry(t, n, r, c)
    {
      AddBond(hq, t, n);
      n := n + 1;
    }
  }

  /** The periodic correction applied to the full band gives the periodic lattice. */
  method PeriodicCorrection(hq: array2<Complex>, t: Complex)
    requires hq.Length0 == hq.Length1 && hq.Length0 > 0
    requires forall r, c :: 0 <= r < hq.Length0 && 0 <= c < hq.Length0 ==> hq[r, c] == BandEntry(t, hq.Length0 - 1, r, c)
    modifies hq
    ensures forall r, c :: 0 <= r < hq.Length0 && 0 <= c < hq.Length0 ==> hq[r, c] == LatticeEntry(hq.Length0, t, true, r, c)
  {
    var numSites := hq.Length0;
    AddCorners(hq, t);
    forall r, c | 0 <= r < numSites && 0 <= c < numSites
      ensures hq[r, c] == LatticeEntry(numSites, t, true, r, c)
    {
      LatticePeriodic(numSites, t, r, c);
      if !(r == numSites - 1 && c == 0) && !(r == 0 && c == numSites - 1) {
        assert hq[r, c] == old(hq[r, c]);
      }
    }
  }

  // ---------------------------------------------------------------- diagonal linear coupling

  /** One term `gamma_ij * (z_j + conj z_j)`, which is real: twice `gamma_ij` times the real part of `z_j`. */
  function CouplingTerm(g: real, z: Complex): (term: Complex)
    ensures term == FromReal(2.0 * g * z.re)
  {
    Mul(FromReal(g), Add(z, Conj(z)))
  }

  /** The diagonal entry `h_qc[b, i, i]`: the first `m` coupling terms of row `i` summed in index order. */
  function CouplingSum(gammaRow: seq<real>, zb: seq<Complex>, m: nat): Complex
    requires m <= |gammaRow| && m <= |zb|
  {
    SumC(seq(m, j requires 0 <= j < m => CouplingTerm(gammaRow[j], zb[j])))
  }

  /** Every diagonal entry of the coupling is real. */
  lemma CouplingDiagonalReal(m: nat, gammaRow: seq<real>, zb: seq<Complex>)
    requires m <= |gammaRow| && m <= |zb|
    ensures CouplingSum(gammaRow, zb, m).im == 0.0
  {
    SumCReal(seq(m, j requires 0 <= j < m => CouplingTerm(gammaRow[j], zb[j])));
  }

  /** The coupling Hamiltonian's shape demands on `z` and `gamma`. */
  predicate CouplingShapes(batch: nat, numStates: nat, numCoords: nat, z: seq<seq<Complex>>, gamma: seq<seq<real>>)
  {
    && batch <= |z| && (forall b :: 0 <= b < batch ==> numCoords <= |z[b]|)
    && numStates <= |gamma| && (forall i :: 0 <= i < numStates ==> numCoords <= |gamma[i]|)
  }

  /** Entry (r, c) of slice `b` of the diagonal coupling Hamiltonian. */
  function CouplingEntry(numCoords: nat, z: seq<seq<Complex>>, gamma: seq<seq<real>>, b: nat, r: nat, c: nat): Complex
    requires b < |z| && numCoords <= |z[b]| && r < |gamma| && numCoords <= |gamma[r]|
  {
    if r == c then CouplingSum(gamma[r], z[b], numCoords) else Zero
  }

  /** Slice `b` of the diagonal coupling Hamiltonian. */
  function CouplingMatrix(batch: nat, numStates: nat, numCoords: nat, z: seq<seq<Complex>>, gamma: seq<seq<real>>, b: nat): (h: Matrix)
    requires CouplingShapes(batch, numStates, numCoords, z, gamma) && b < batch
    ensures IsSquare(h, numStates)
  {
    seq(numStates, r requires 0 <= r < numStates => seq(numStates, c requires 0 <= c < numStates => CouplingEntry(numCoords, z, gamma, b, r, c)))
  }

  lemma CouplingEntryMirror(batch: nat, numStates: nat, numCoords: nat, z: seq<seq<Complex>>, gamma: seq<seq<real>>, b: nat, r: nat, c: nat)
    requires CouplingShapes(batch, numStates, numCoords, z, gamma) && b < batch && r < numStates && c < numStates
    ensures CouplingMatrix(batch, numStates, numCoords, z, gamma, b)[r][c] == Conj(CouplingMatrix(batch, numStates, numCoords, z, gamma, b)[c][r])
  {
    if r == c {
      CouplingDiagonalReal(numCoords, gamma[r], z[b]);
    }
  }

  /** Every slice of the coupling Hamiltonian is diagonal. */
  lemma CouplingDiagonal(batch: nat, numStates: nat, numCoords: nat, z: seq<seq<Complex>>, gamma: seq<seq<real>>, b: nat)
    requires CouplingShapes(batch, numStates, numCoords, z, gamma) && b < batch
    ensures forall r, c :: 0 <= r < numStates && 0 <= c < numStates && r != c ==>
      CouplingMatrix(batch, numStates, numCoords, z, gamma, b)[r][c] == Zero
  {
    var h: Matrix := CouplingMatrix(batch, numStates, numCoords, z, gamma, b);
    forall r, c | 0 <= r < numStates && 0 <= c < numStates && r != c ensures h[r][c] == Zero {
      assert h[r][c] == CouplingEntry(numCoords, z, gamma, b, r, c);
    }
  }

  /** Every slice of the coupling Hamiltonian is Hermitian: its diagonal entries are real. */
  lemma CouplingHermitian(batch: nat, numStates: nat, numCoords: nat, z: seq<seq<Complex>>, gamma: seq<seq<real>>, b: nat)
    requires CouplingShapes(batch, numStates, numCoords, z, gamma) && b < batch
    ensures Hermitian(CouplingMatrix(batch, numStates, numCoords, z, gamma, b))
  {
    var h: Matrix := CouplingMatrix(batch, numStates, numCoords, z, gamma, b);
    forall r, c | 0 <= r < numStates && 0 <= c < numStates ensures h[r][c] == Conj(h[c][r]) {
      CouplingEntryMirror(batch, numStates, numCoords, z, gamma, b, r, c);
    }
  }

  /** `diagonal_linear_h_qc_jit`: the triple loop accumulating the diagonal of every slice. */
  method DiagonalLinearHQcJit(batch: nat, numStates: nat, numCoords: nat, z: seq<seq<Complex>>, gamma: seq<seq<real>>)
    returns (h: array3<Complex>)
    requires CouplingShapes(batch, numStates, numCoords, z, gamma)
    ensures fresh(h)
    ensures h.Length0 == batch && h.Length1 == numStates && h.Length2 == numStates
    ensures forall b, r, c :: 0 <= b < batch && 0 <= r < numStates && 0 <= c < numStates ==>
      h[b, r, c] == CouplingEntry(numCoords, z, gamma, b, r, c)
  {
    h := new Complex[batch, numStates, numStates]((_, _, _) => Zero);
    for b := 0 to batch
      invariant forall b', r, c :: 0 <= b' < batch && 0 <= r < numStates && 0 <= c < numStates ==>
        h[b', r, c] == if b' < b then CouplingEntry(numCoords, z, gamma, b', r, c) else Zero
    {
      for i := 0 to numStates
        invariant forall b', r, c :: 0 <= b' < batch && 0 <= r < numStates && 0 <= c < numStates ==>
          h[b', r, c] == if b' < b || (b' == b && r < i) then CouplingEntry(numCoords, z, gamma, b', r, c) else Zero
      {
        ghost var terms := seq(numCoords, j requires 0 <= j < numCoords => CouplingTerm(gamma[i][j], z[b][j]));
        for j := 0 to numCoords
          invariant h[b, i, i] == SumC(terms[..j])
          invariant forall b', r, c :: 0 <= b' < batch && 0 <= r < numStates && 0 <= c < numStates && (b', r, c) != (b, i, i) ==>
            h[b', r, c] == if b' < b || (b' == b && r < i) then CouplingEntry(numCoords, z, gamma, b', r, c) else Zero
        {
          assert terms[..j + 1][..j] == terms[..j];
          h[b, i, i] := Add(h[b, i, i], Mul(FromReal(gamma[i][j]), Add(z[b][j], Conj(z[b][j]))));
        }
        assert terms[..numCoords] == terms;
      }
    }
  }

  /** `diagonal_linear_h_qc`: the batch size is the explicit one (which must equal `len(z)`) or `len(z)`. */
  method DiagonalLinearHQc(z: seq<seq<Complex>>, batchArg: Option<int>, numStates: nat, numCoords: nat, gamma: seq<seq<real>>)
    returns (h: array3<Complex>)
    requires batchArg.Some? ==> batchArg.value == |z|
    requires CouplingShapes(|z|, numStates, numCoords, z, gamma)
    ensures fresh(h)
    ensures h.Length0 == |z| && h.Length1 == numStates && h.Length2 == numStates
    ensures forall b, r, c :: 0 <= b < |z| && 0 <= r < numStates && 0 <= c < numStates ==>
      h[b, r, c] == CouplingMatrix(|z|, numStates, numCoords, z, gamma, b)[r][c]
  {
    var batch := if batchArg.Some? then batchArg.value else |z|;
    h := DiagonalLinearHQcJit(batch, numStates, numCoords, z, gamma);
  }

  // ---------------------------------------------------------------- gradient of the coupling

  /** The shape `(batch_size, ncc, ns, ns)` of the coupling gradient. */
  function GradientShape(batch: nat, numStates: nat, numCoords: nat): seq<nat>
  {
    [batch, numCoords, numStates, numStates]
  }

  /** Entry `(b, j, i, k)` of the gradient: `gamma[i][j]` when `i == k`, zero elsewhere. */
  function GradientEntry(gamma: seq<seq<real>>, numStates: nat, numCoords: nat, idx: seq<nat>): Complex
    requires |idx| == 4 && idx[2] < numStates && idx[1] < numCoords
    requires numStates <= |gamma| && forall i :: 0 <= i < numStates ==> numCoords <= |gamma[i]|
  {
    if idx[2] == idx[3] then FromReal(gamma[idx[2]][idx[1]]) else Zero
  }

  /** The dense gradient `dh_qc/dzc` of the diagonal coupling, every batch slice identical. */
  function GradientDense(batch: nat, numStates: nat, numCoords: nat, gamma: seq<seq<real>>): (t: Tensor<Complex>)
    requires numStates <= |gamma| && forall i :: 0 <= i < numStates ==> numCoords <= |gamma[i]|
    ensures t.Valid() && t.shape == GradientShape(batch, numStates, numCoords)
  {
    var shape := GradientShape(batch, numStates, numCoords);
    Tensor(shape, seq(Size(shape), f requires 0 <= f < Size(shape) =>
      GradientEntry(gamma, numStates, numCoords, Unravel(f, shape))))
  }

  /** Each entry of the dense gradient, addressed by its multi-index. */
  lemma GradientDenseAt(batch: nat, numStates: nat, numCoords: nat, gamma: seq<seq<real>>, idx: seq<nat>)
    requires numStates <= |gamma| && forall i :: 0 <= i < numStates ==> numCoords <= |gamma[i]|
    requires InBounds(idx, GradientShape(batch, numStates, numCoords))
    ensures GradientDense(batch, numStates, numCoords, gamma).At(idx) == GradientEntry(gamma, numStates, numCoords, idx)
  {
    UnravelRavel(idx, GradientShape(batch, numStates, numCoords));
  }

  /** The `k`-th stored entry of the sparse gradient sits on a diagonal `(b, j, i, i)` and holds a non-zero `gamma[i][j]`. */
  lemma GradientStoredEntry(batch: nat, numStates: nat, numCoords: nat, gamma: seq<seq<real>>, k: nat)
    requires numStates <= |gamma| && forall i :: 0 <= i < numStates ==> numCoords <= |gamma[i]|
    requires k < |Sparsify(GradientDense(batch, numStates, numCoords, gamma), Zero).mels|
    ensures var sp := Sparsify(GradientDense(batch, numStates, numCoords, gamma), Zero);
      var idx := sp.EntryIndex(k);
      && idx[0] < batch && idx[1] < numCoords && idx[2] < numStates && idx[2] == idx[3]
      && gamma[idx[2]][idx[1]] != 0.0 && sp.mels[k] == FromReal(gamma[idx[2]][idx[1]])
  {
    var t := GradientDense(batch, numStates, numCoords, gamma);
    var sp := Sparsify(t, Zero);
    SparsifyValues(t, Zero);
    SparsifyAt(t, Zero, k);
    var idx := sp.EntryIndex(k);
    assert InBounds(idx, t.shape);
    GradientDenseAt(batch, numStates, numCoords, gamma, idx);
  }

  /** Every diagonal position `(b, j, i, i)` with a non-zero `gamma[i][j]` is stored in the sparse gradient. */
  lemma GradientNonzeroStored(batch: nat, numStates: nat, numCoords: nat, gamma: seq<seq<real>>, b: nat, j: nat, i: nat)
    requires numStates <= |gamma| && forall i :: 0 <= i < numStates ==> numCoords <= |gamma[i]|
    requires b < batch && j < numCoords && i < numStates && gamma[i][j] != 0.0
    ensures var sp := Sparsify(GradientDense(batch, numStates, numCoords, gamma), Zero);
      exists k :: 0 <= k < |sp.mels| && sp.EntryIndex(k) == [b, j, i, i]
  {
    var t := GradientDense(batch, numStates, numCoords, gamma);
    var idx: seq<nat> := [b, j, i, i];
    GradientDenseAt(batch, numStates, numCoords, gamma, idx);
    SparsifyComplete(t, Zero, idx);
  }

  /**
   * Every stored entry of the sparse gradient sits at a position `(b, j, i, i)`
   * where `gamma[i][j]` is non-zero and holds `gamma[i][j]`; together with
   * `GradientNonzeroStored` these are exactly the stored entries.
   */
  lemma GradientSparseEntries(batch: nat, numStates: nat, numCoords: nat, gamma: seq<seq<real>>)
    requires numStates <= |gamma| && forall i :: 0 <= i < numStates ==> numCoords <= |gamma[i]|
    ensures var sp := Sparsify(GradientDense(batch, numStates, numCoords, gamma), Zero);
      && sp.shape == [batch, numCoords, numStates, numStates]
      && (forall k :: 0 <= k < |sp.mels| ==>
            var idx := sp.EntryIndex(k);
            idx[2] == idx[3] && gamma[idx[2]][idx[1]] != 0.0 && sp.mels[k] == FromReal(gamma[idx[2]][idx[1]]))
  {
    var sp := Sparsify(GradientDense(batch, numStates, numCoords, gamma), Zero);
    forall k | 0 <= k < |sp.mels|
      ensures var idx := sp.EntryIndex(k);
        idx[2] == idx[3] && gamma[idx[2]][idx[1]] != 0.0 && sp.mels[k] == FromReal(gamma[idx[2]][idx[1]])
    {
      GradientStoredEntry(batch, numStates, numCoords, gamma, k);
    }
  }

  /** The `(ncc, ns, ns)` slab of the gradient: `gamma[i][j]` written at `(j, i, i)`, zero elsewhere. */
  method GradientSlab(numStates: nat, numCoords: nat, gamma: seq<seq<real>>) returns (slab: array3<Complex>)
    requires numStates <= |gamma| && forall i :: 0 <= i < numStates ==> numCoords <= |gamma[i]|
    ensures fresh(slab) && slab.Length0 == numCoords && slab.Length1 == numStates && slab.Length2 == numStates
    ensures forall j, r, c :: 0 <= j < numCoords && 0 <= r < numStates && 0 <= c < numStates ==>
      slab[j, r, c] == if r == c then FromReal(gamma[r][j]) else Zero
  {
    slab := new Complex[numCoords, numStates, numStates]((_, _, _) => Zero);
    for i := 0 to numStates
      invariant forall j, r, c :: 0 <= j < numCoords && 0 <= r < numStates && 0 <= c < numStates ==>
        slab[j, r, c] == if r == c && r < i then FromReal(gamma[r][j]) else Zero
    {
      for j := 0 to numCoords
        invariant forall j', r, c :: 0 <= j' < numCoords && 0 <= r < numStates && 0 <= c < numStates ==>
          slab[j', r, c] == if r == c && (r < i || (r == i && j' < j)) then FromReal(gamma[r][j']) else Zero
      {
        slab[j, i, i] := FromReal(gamma[i][j]);
      }
    }
  }

  // ---------------------------------------------------------------- the model object and its caches

  /** The cache fields a model object carries between calls. */
  class Model {
    var hQMat: Option<seq<Matrix>>
    var dhQcDzcInds: Option<seq<seq<nat>>>
    var dhQcDzcMels: Option<seq<Complex>>
    var dhQcDzcShape: Option<seq<nat>>

    constructor ()
      ensures hQMat == None && dhQcDzcInds == None && dhQcDzcMels == None && dhQcDzcShape == None
    {
      hQMat := None;
      dhQcDzcInds := None;
      dhQcDzcMels := None;
      dhQcDzcShape := None;
    }

    /** The lattice cache answers when it holds a Hamiltonian of the requested batch size. */
    predicate LatticeCached(batch: int)
      reads this
    {
      hQMat.Some? && |hQMat.value| == batch
    }

    /**
     * `nearest_neighbor_lattice_h_q`: returns the cached matrix untouched when
     * its batch size matches, even if the constants changed since; otherwise
     * builds the lattice with `+=`, broadcasts it over the batch and caches it.
     * Periodic boundaries on zero sites index out of range, so that call
     * must be a cache hit.
     */
    method NearestNeighborLatticeHq(batchArg: Option<int>, seedCount: nat, numSites: nat, t: Complex, periodic: bool)
      returns (h: seq<Matrix>)
      requires Vectorize.BatchSize(batchArg, seedCount) >= 0
      requires periodic && numSites == 0 ==> LatticeCached(Vectorize.BatchSize(batchArg, seedCount))
      modifies this
      ensures old(LatticeCached(Vectorize.BatchSize(batchArg, seedCount))) ==>
        h == old(hQMat.value) && unchanged(this)
      ensures !old(LatticeCached(Vectorize.BatchSize(batchArg, seedCount))) ==>
        && h == Repeat(Vectorize.BatchSize(batchArg, seedCount), LatticeMatrix(numSites, t, periodic))
        && hQMat == Some(h)
        && dhQcDzcInds == old(dhQcDzcInds) && dhQcDzcMels == old(dhQcDzcMels) && dhQcDzcShape == old(dhQcDzcShape)
    {
      var batch := Vectorize.BatchSize(batchArg, seedCount);
      if hQMat.Some? {
        if |hQMat.value| == batch {
          return hQMat.value;
        }
      }
      var hq := LatticeFill(numSites, t, periodic);
      var slice := seq(numSites, r requires 0 <= r < numSites reads hq =>
        seq(numSites, c requires 0 <= c < numSites reads hq => hq[r, c]));
      forall r | 0 <= r < numSites ensures slice[r] == LatticeMatrix(numSites, t, periodic)[r] {
        assert forall c :: 0 <= c < numSites ==> slice[r][c] == LatticeMatrix(numSites, t, periodic)[r][c];
      }
      assert slice == LatticeMatrix(numSites, t, periodic);
      h := Repeat(batch, slice);
      hQMat := Some(h);
    }

    /** The gradient cache must be rebuilt: a field is missing or holds another batch size. */
    predicate GradientStale(batch: int)
      reads this
      requires dhQcDzcShape.Some? ==> |dhQcDzcShape.value| > 0
    {
      dhQcDzcInds.None? || dhQcDzcMels.None? || dhQcDzcShape.None? || dhQcDzcShape.value[0] != batch
    }

    /**
     * `diagonal_linear_dh_qc_dzc`: when the cache is stale, fills one
     * `(ncc, ns, ns)` slab, broadcasts it over the batch, converts it to the
     * sparse triple and stores the triple; otherwise returns the cached triple.
     */
    method DiagonalLinearDhQcDzc(batchArg: Option<int>, seedCount: nat, numStates: nat, numCoords: nat, gamma: seq<seq<real>>)
      returns (sp: Sparse<Complex>)
      requires Vectorize.BatchSize(batchArg, seedCount) >= 0
      requires dhQcDzcShape.Some? ==> |dhQcDzcShape.value| > 0
      requires GradientStale(Vectorize.BatchSize(batchArg, seedCount)) ==>
        numStates <= |gamma| && forall i :: 0 <= i < numStates ==> numCoords <= |gamma[i]|
      modifies this
      ensures old(GradientStale(Vectorize.BatchSize(batchArg, seedCount))) ==>
        && sp == Sparsify(GradientDense(Vectorize.BatchSize(batchArg, seedCount), numStates, numCoords, gamma), Zero)
        && dhQcDzcInds == Some(sp.inds) && dhQcDzcMels == Some(sp.mels) && dhQcDzcShape == Some(sp.shape)
        && hQMat == old(hQMat)
      ensures !old(GradientStale(Vectorize.BatchSize(batchArg, seedCount))) ==>
        sp == Sparse(old(dhQcDzcInds.value), old(dhQcDzcMels.value), old(dhQcDzcShape.value)) && unchanged(this)
    {
      var batch := Vectorize.BatchSize(batchArg, seedCount);
      var recalculate := false;
      if dhQcDzcShape.Some? {
        if dhQcDzcShape.value[0] != batch {
          recalculate := true;
        }
      }
      if dhQcDzcInds.None? || dhQcDzcMels.None? || dhQcDzcShape.None? || recalculate {
        var slab := GradientSlab(numStates, numCoords, gamma);
        var shape := GradientShape(batch, numStates, numCoords);
        var dense := Tensor(shape, seq(Size(shape), f requires 0 <= f < Size(shape) reads slab =>
          var idx := Unravel(f, shape); slab[idx[1], idx[2], idx[3]]));
        forall f | 0 <= f < Size(shape)
          ensures dense.data[f] == GradientDense(batch, numStates, numCoords, gamma).data[f]
        {
          var idx := Unravel(f, shape);
          assert idx[1] < numCoords && idx[2] < numStates && idx[3] < numStates;
        }
        assert dense == GradientDense(batch, numStates, numCoords, gamma);
        sp := Sparsify(dense, Zero);
        dhQcDzcInds := Some(sp.inds);
        dhQcDzcMels := Some(sp.mels);
        dhQcDzcShape := Some(sp.shape);
        return sp;
      }
      sp := Sparse(dhQcDzcInds.value, dhQcDzcMels.value, dhQcDzcShape.value);
    }
  }
}
