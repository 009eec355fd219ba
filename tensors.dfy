/**
 * Dense tensors stored row-major, and the sparse (indices, values, shape)
 * triple that `make_ingredient_sparse` in qc_lab/ingredients.py builds from a
 * dense ingredient output with `np.where(out != 0)`.
 */
module Tensors {
  import opened Wrappers

  /** Number of entries of a tensor of the given shape. */
  function Size(shape: seq<nat>): nat
  {
    if shape == [] then 1 else Size(shape[..|shape| - 1]) * shape[|shape| - 1]
  }

  /** A multi-index that addresses an entry of a tensor of the given shape. */
  predicate InBounds(idx: seq<nat>, shape: seq<nat>)
  {
    |idx| == |shape| && forall a :: 0 <= a < |shape| ==> idx[a] < shape[a]
  }

  lemma MulAtLeast(k: int, d: int)
    requires d > 0
    ensures k >= 1 ==> k * d >= d
    ensures k <= -1 ==> k * d <= -d
  {
    if k >= 1 {
      var x := (k - 1) * d;
      assert x >= 0;
      assert k * d == x + d;
    } else if k <= -1 {
      var x := (-k - 1) * d;
      assert x >= 0;
      assert k * d == -x - d;
    }
  }

  lemma DivBelow(f: nat, n: nat, d: nat)
    requires f < n * d
    ensures d > 0 && f / d < n
  {
    MulAtLeast(n, d);
    var q := f / d;
    assert q * d <= f;
    MulAtLeast(q - n + 1, d);
    assert (q - n + 1) * d == q * d - n * d + d;
  }

  lemma DivMod(r: nat, d: nat, i: nat)
    requires i < d
    ensures (r * d + i) / d == r && (r * d + i) % d == i
  {
    var f := r * d + i;
    var q, m := f / d, f % d;
    assert f == q * d + m;
    assert (q - r) * d == i - m;
    MulAtLeast(q - r, d);
  }

  lemma RavelStep(r: nat, n: nat, d: nat, i: nat)
    requires r < n && i < d
    ensures r * d + i < n * d
  {
    var x, y := r * d, (n - 1) * d;
    assert x <= y;
    assert y + d == n * d;
  }

  /** The multi-index of flat offset `f` in row-major order (the last axis varies fastest). */
  function Unravel(f: nat, shape: seq<nat>): (idx: seq<nat>)
    requires f < Size(shape)
    ensures InBounds(idx, shape)
    decreases |shape|
  {
    if shape == [] then []
    else
      var n := |shape| - 1;
      DivBelow(f, Size(shape[..n]), shape[n]);
      var prefix := Unravel(f / shape[n], shape[..n]);
      prefix + [f % shape[n]]
  }

  /** The row-major flat offset of an in-bounds multi-index. */
  function Ravel(idx: seq<nat>, shape: seq<nat>): (f: nat)
    requires InBounds(idx, shape)
    ensures f < Size(shape)
    decreases |shape|
  {
    if shape == [] then 0
    else
      var n := |shape| - 1;
      var r := Ravel(idx[..n], shape[..n]);
      RavelStep(r, Size(shape[..n]), shape[n], idx[n]);
      r * shape[n] + idx[n]
  }

  /** Ravel undoes Unravel. */
  lemma {:induction false} RavelUnravel(f: nat, shape: seq<nat>)
    requires f < Size(shape)
    ensures Ravel(Unravel(f, shape), shape) == f
    decreases |shape|
  {
    if shape != [] {
      var n := |shape| - 1;
      DivBelow(f, Size(shape[..n]), shape[n]);
      var idx := Unravel(f, shape);
      assert idx[..n] == Unravel(f / shape[n], shape[..n]);
      RavelUnravel(f / shape[n], shape[..n]);
    }
  }

  /** Unravel undoes Ravel, so distinct in-bounds multi-indices have distinct offsets. */
  lemma {:induction false} UnravelRavel(idx: seq<nat>, shape: seq<nat>)
    requires InBounds(idx, shape)
    ensures Unravel(Ravel(idx, shape), shape) == idx
    decreases |shape|
  {
    if shape != [] {
      var n := |shape| - 1;
      var r := Ravel(idx[..n], shape[..n]);
      var f := r * shape[n] + idx[n];
      assert f / shape[n] == r && f % shape[n] == idx[n] by {
        DivMod(r, shape[n], idx[n]);
      }
      UnravelRavel(idx[..n], shape[..n]);
      assert idx == idx[..n] + [idx[n]];
    }
  }


  /** A dense tensor: its shape and its entries in row-major order. */
  datatype Tensor<T> = Tensor(shape: seq<nat>, data: seq<T>)
  {
    predicate Valid() { |data| == Size(shape) }

    function At(idx: seq<nat>): T
      requires Valid() && InBounds(idx, shape)
    {
      data[Ravel(idx, shape)]
    }
  }

  /**
   * The sparse triple: `inds[a][k]` is the coordinate along axis `a` of the
   * `k`-th stored entry (the tuple of index arrays that `np.where` returns),
   * `mels[k]` its value and `shape` the shape of the dense tensor.
   */
  datatype Sparse<T> = Sparse(inds: seq<seq<nat>>, mels: seq<T>, shape: seq<nat>)
  {
    /** Every axis lists one coordinate per stored value, inside the dense shape. */
    predicate WellFormed()
    {
      && |inds| == |shape|
      && (forall a :: 0 <= a < |shape| ==> |inds[a]| == |mels|)
      && (forall k :: 0 <= k < |mels| ==> InBounds(EntryIndex(k), shape))
    }

    /** The multi-index of the `k`-th stored entry. */
    function EntryIndex(k: nat): seq<nat>
      requires |inds| == |shape| && (forall a :: 0 <= a < |shape| ==> |inds[a]| == |mels|)
      requires k < |mels|
    {
      seq(|shape|, a requires 0 <= a < |shape| => inds[a][k])
    }

    /** The row-major offset of the `k`-th stored entry in the dense tensor. */
    function Offset(k: nat): nat
      requires WellFormed() && k < |mels|
    {
      Ravel(EntryIndex(k), shape)
    }
  }

  /** The offsets below `n` whose entry differs from `zero`, in increasing order. */
  function NonzeroOffsets<T(==)>(data: seq<T>, zero: T, n: nat): (offs: seq<nat>)
    requires n <= |data|
    ensures forall k :: 0 <= k < |offs| ==> offs[k] < n && data[offs[k]] != zero
  {
    if n == 0 then []
    else
      var rest := NonzeroOffsets(data, zero, n - 1);
      if data[n - 1] != zero then rest + [n - 1] else rest
  }

  /** Each element of `s` is smaller than every later one. */
  predicate Increasing(s: seq<nat>)
  {
    forall k, l :: 0 <= k < l < |s| ==> s[k] < s[l]
  }

  /** The non-zero offsets are listed in strictly increasing order. */
  lemma {:induction false} NonzeroOffsetsOrdered<T>(data: seq<T>, zero: T, n: nat)
    requires n <= |data|
    ensures Increasing(NonzeroOffsets(data, zero, n))
  {
    if n > 0 {
      NonzeroOffsetsOrdered(data, zero, n - 1);
      var rest := NonzeroOffsets(data, zero, n - 1);
      if data[n - 1] != zero {
        var offs := rest + [n - 1];
        forall k, l | 0 <= k < l < |offs| ensures offs[k] < offs[l] {
          if l < |rest| {
            assert offs[k] == rest[k] && offs[l] == rest[l];
          } else {
            assert offs[k] == rest[k] < n - 1 == offs[l];
          }
        }
      }
    }
  }

  /** Every offset below `n` whose entry differs from `zero` is listed. */
  lemma {:induction false} NonzeroOffsetsComplete<T>(data: seq<T>, zero: T, n: nat, f: nat)
    requires f < n <= |data| && data[f] != zero
    ensures f in NonzeroOffsets(data, zero, n)
  {
    if f < n - 1 {
      NonzeroOffsetsComplete(data, zero, n - 1, f);
    }
  }

  /** `make_ingredient_sparse`'s conversion: `inds = np.where(out != 0)`, `mels = out[inds]`, `shape = np.shape(out)`. */
  function Sparsify<T(==)>(t: Tensor<T>, zero: T): (sp: Sparse<T>)
    requires t.Valid()
    ensures sp.shape == t.shape && sp.WellFormed()
  {
    var offs := NonzeroOffsets(t.data, zero, |t.data|);
    var sp := Sparse(
      seq(|t.shape|, a requires 0 <= a < |t.shape| =>
        seq(|offs|, k requires 0 <= k < |offs| => Unravel(offs[k], t.shape)[a])),
      seq(|offs|, k requires 0 <= k < |offs| => t.data[offs[k]]),
      t.shape);
    assert forall k :: 0 <= k < |offs| ==> sp.EntryIndex(k) == Unravel(offs[k], t.shape);
    sp
  }

  /** Writes `vals[k]` at offset `offs[k]` of `base`, in order. */
  function Scatter<T>(base: seq<T>, offs: seq<nat>, vals: seq<T>): (r: seq<T>)
    requires |offs| == |vals|
    requires forall k :: 0 <= k < |offs| ==> offs[k] < |base|
    ensures |r| == |base|
  {
    if offs == [] then base
    else
      var n := |offs| - 1;
      Scatter(base, offs[..n], vals[..n])[offs[n] := vals[n]]
  }

  /** Zero-fill a tensor of the triple's shape and scatter the stored values at their indices. */
  function Densify<T>(sp: Sparse<T>, zero: T): (t: Tensor<T>)
    requires sp.WellFormed()
    ensures t.Valid() && t.shape == sp.shape
  {
    var offs := seq(|sp.mels|, k requires 0 <= k < |sp.mels| => sp.Offset(k));
    Tensor(sp.shape, Scatter(Repeat(Size(sp.shape), zero), offs, sp.mels))
  }

  /** The `k`-th stored entry of the triple sits at the `k`-th non-zero offset and holds its value. */
  lemma SparsifyAt<T>(t: Tensor<T>, zero: T, k: nat)
    requires t.Valid()
    requires k < |NonzeroOffsets(t.data, zero, |t.data|)|
    ensures var offs := NonzeroOffsets(t.data, zero, |t.data|); var sp := Sparsify(t, zero);
      && |sp.mels| == |offs|
      && sp.EntryIndex(k) == Unravel(offs[k], t.shape)
      && sp.Offset(k) == offs[k]
      && sp.mels[k] == t.data[offs[k]]
  {
    var offs := NonzeroOffsets(t.data, zero, |t.data|);
    var sp := Sparsify(t, zero);
    assert sp.EntryIndex(k) == Unravel(offs[k], t.shape);
    RavelUnravel(offs[k], t.shape);
  }

  /** Every stored value is non-zero and equals the dense entry at its indices. */
  lemma SparsifyValues<T>(t: Tensor<T>, zero: T)
    requires t.Valid()
    ensures var sp := Sparsify(t, zero);
      forall k :: 0 <= k < |sp.mels| ==> sp.mels[k] == t.At(sp.EntryIndex(k)) && sp.mels[k] != zero
  {
    var sp := Sparsify(t, zero);
    forall k | 0 <= k < |sp.mels| ensures sp.mels[k] == t.At(sp.EntryIndex(k)) && sp.mels[k] != zero {
      SparsifyAt(t, zero, k);
    }
  }

  /** The stored entries come in strictly increasing row-major order. */
  lemma SparsifyOrdered<T>(t: Tensor<T>, zero: T)
    requires t.Valid()
    ensures var sp := Sparsify(t, zero);
      forall k, l :: 0 <= k < l < |sp.mels| ==> sp.Offset(k) < sp.Offset(l)
  {
    var sp := Sparsify(t, zero);
    NonzeroOffsetsOrdered(t.data, zero, |t.data|);
    var offs := NonzeroOffsets(t.data, zero, |t.data|);
    forall k, l | 0 <= k < l < |sp.mels| ensures sp.Offset(k) < sp.Offset(l) {
      assert offs[k] < offs[l];
      SparsifyAt(t, zero, k);
      SparsifyAt(t, zero, l);
    }
  }

  /** Every non-zero entry of the dense tensor is stored. */
  lemma SparsifyComplete<T>(t: Tensor<T>, zero: T, idx: seq<nat>)
    requires t.Valid() && InBounds(idx, t.shape) && t.At(idx) != zero
    ensures var sp := Sparsify(t, zero);
      exists k :: 0 <= k < |sp.mels| && sp.EntryIndex(k) == idx
  {
    var offs := NonzeroOffsets(t.data, zero, |t.data|);
    var f := Ravel(idx, t.shape);
    NonzeroOffsetsComplete(t.data, zero, |t.data|, f);
    var k :| 0 <= k < |offs| && offs[k] == f;
    SparsifyAt(t, zero, k);
    UnravelRavel(idx, t.shape);
  }

  /** The values of `data` at the given offsets. */
  function Gather<T>(data: seq<T>, offs: seq<nat>): (vals: seq<T>)
    requires forall k :: 0 <= k < |offs| ==> offs[k] < |data|
    ensures |vals| == |offs| && forall k :: 0 <= k < |offs| ==> vals[k] == data[offs[k]]
  {
    seq(|offs|, k requires 0 <= k < |offs| => data[offs[k]])
  }

  lemma ScatterSnoc<T>(base: seq<T>, offs: seq<nat>, vals: seq<T>, o: nat, v: T)
    requires |offs| == |vals| && o < |base|
    requires forall k :: 0 <= k < |offs| ==> offs[k] < |base|
    ensures Scatter(base, offs + [o], vals + [v]) == Scatter(base, offs, vals)[o := v]
  {
    assert (offs + [o])[..|offs|] == offs;
    assert (vals + [v])[..|vals|] == vals;
  }

  /** The non-zero entries of `data[..n]`, scattered back into zeros. */
  function Rebuilt<T(==)>(data: seq<T>, zero: T, n: nat): seq<T>
    requires n <= |data|
  {
    var offs := NonzeroOffsets(data, zero, n);
    Scatter(Repeat(|data|, zero), offs, Gather(data, offs))
  }

  /** Rebuilding from `data[..n]` adds the entry at `n - 1` to the rebuild from `data[..n - 1]`. */
  lemma RebuiltStep<T>(data: seq<T>, zero: T, n: nat)
    requires 0 < n <= |data|
    ensures Rebuilt(data, zero, n) ==
      if data[n - 1] != zero then Rebuilt(data, zero, n - 1)[n - 1 := data[n - 1]] else Rebuilt(data, zero, n - 1)
  {
    var prev := NonzeroOffsets(data, zero, n - 1);
    if data[n - 1] != zero {
      assert Gather(data, prev + [n - 1]) == Gather(data, prev) + [data[n - 1]];
      ScatterSnoc(Repeat(|data|, zero), prev, Gather(data, prev), n - 1, data[n - 1]);
    }
  }

  /** Rebuilding from `data[..n]` restores `data[..n]`, with zeros beyond. */
  lemma {:induction false} RebuiltAt<T>(data: seq<T>, zero: T, n: nat, i: nat)
    requires n <= |data| && i < |data|
    ensures |Rebuilt(data, zero, n)| == |data|
    ensures Rebuilt(data, zero, n)[i] == if i < n then data[i] else zero
  {
    if n > 0 {
      RebuiltAt(data, zero, n - 1, i);
      RebuiltStep(data, zero, n);
    }
  }

  /** The sparse round trip: zero-fill and scatter reproduces the dense tensor exactly. */
  lemma SparseRoundTrip<T>(t: Tensor<T>, zero: T)
    requires t.Valid()
    ensures Densify(Sparsify(t, zero), zero) == t
  {
    var sp := Sparsify(t, zero);
    var offs := NonzeroOffsets(t.data, zero, |t.data|);
    var vals := Gather(t.data, offs);
    var spOffs := seq(|sp.mels|, k requires 0 <= k < |sp.mels| => sp.Offset(k));
    forall k | 0 <= k < |offs| ensures spOffs[k] == offs[k] && sp.mels[k] == vals[k] {
      SparsifyAt(t, zero, k);
    }
    assert spOffs == offs && sp.mels == vals;
    var d := Densify(sp, zero);
    assert d.data == Rebuilt(t.data, zero, |t.data|);
    forall i | 0 <= i < |t.data| ensures d.data[i] == t.data[i] {
      RebuiltAt(t.data, zero, |t.data|, i);
    }
  }

  /** A tensor whose entry count matches its shape, as every numpy array's does. */
  type DenseTensor<T> = t: Tensor<T> | t.Valid() witness Tensor([0], [])

  /** `make_ingredient_sparse`: wraps a dense-output ingredient into one that returns the sparse triple. */
  function MakeIngredientSparse<A(!new), T(==, !new)>(ingredient: A -> DenseTensor<T>, zero: T): (sparse: A -> Sparse<T>)
    ensures forall args :: sparse(args).WellFormed() && Densify(sparse(args), zero) == ingredient(args)
  {
    assert forall t: DenseTensor<T> :: Densify(Sparsify(t, zero), zero) == t by {
      forall t: DenseTensor<T> ensures Densify(Sparsify(t, zero), zero) == t {
        SparseRoundTrip(t, zero);
      }
    }
    args => Sparsify(ingredient(args), zero)
  }
}
