/**
 * `vectorize_ingredient`: turns an ingredient written for one trajectory
 * into one over a batch, by slicing every array keyword argument along its
 * first axis and stacking the per-row results.
 */
module Vectorize {
  import opened Wrappers

  /**
   * A keyword-argument value: an `np.ndarray` (its rows along the first
   * axis), an integer, `None`, or any other Python value.
   */
  datatype Arg<V> = NdArray(rows: seq<Arg<V>>) | Int(n: int) | NoneArg | Other(v: V)

  type Kwargs<V> = map<string, Arg<V>>

  /** `kwargs.get("batch_size")` when that is not `None`. */
  function BatchArg<V>(kwargs: Kwargs<V>): Option<int>
    requires BatchArgOk(kwargs)
  {
    if "batch_size" in kwargs && kwargs["batch_size"].Int? then Some(kwargs["batch_size"].n) else None
  }

  /** `range(batch_size)` needs an integer: the argument is absent, `None` or an `int`. */
  predicate BatchArgOk<V>(kwargs: Kwargs<V>)
  {
    "batch_size" in kwargs ==> kwargs["batch_size"].Int? || kwargs["batch_size"].NoneArg?
  }

  /** The batch size every ingredient uses: the explicit one if given, else one row per seed. */
  function BatchSize(given: Option<int>, seedCount: nat): int
  {
    if given.Some? then given.value else seedCount
  }

  /** The number of rows `range(batch_size)` walks through (none for a negative size). */
  function RowCount<V>(kwargs: Kwargs<V>, seedCount: nat): (count: nat)
    requires BatchArgOk(kwargs)
    ensures "batch_size" !in kwargs || kwargs["batch_size"].NoneArg? ==> count == seedCount
    ensures "batch_size" in kwargs && kwargs["batch_size"].Int? && kwargs["batch_size"].n >= 0 ==>
      count == kwargs["batch_size"].n
    ensures "batch_size" in kwargs && kwargs["batch_size"].Int? && kwargs["batch_size"].n < 0 ==> count == 0
  {
    var b := BatchSize(BatchArg(kwargs), seedCount);
    if b < 0 then 0 else b
  }

  /** No length check is made: every array argument must have at least `count` rows. */
  predicate ArraysCover<V>(kwargs: Kwargs<V>, count: nat)
  {
    forall key :: key in kwargs && kwargs[key].NdArray? ==> count <= |kwargs[key].rows|
  }

  /** Row `n` of one argument: an array is indexed, anything else passes through. */
  function RowArg<V>(a: Arg<V>, n: nat): Arg<V>
    requires a.NdArray? ==> n < |a.rows|
  {
    if a.NdArray? then a.rows[n] else a
  }

  /** The keyword arguments of row `n`. */
  function RowKwargs<V>(kwargs: Kwargs<V>, n: nat): (row: Kwargs<V>)
    requires ArraysCover(kwargs, n + 1)
    ensures row.Keys == kwargs.Keys
    ensures forall key :: key in kwargs && kwargs[key].NdArray? ==> row[key] == kwargs[key].rows[n]
    ensures forall key :: key in kwargs && !kwargs[key].NdArray? ==> row[key] == kwargs[key]
  {
    map key | key in kwargs :: RowArg(kwargs[key], n)
  }

  /** The stacked per-row results. */
  function Vectorized<V, R>(ingredient: Kwargs<V> -> R, seedCount: nat, kwargs: Kwargs<V>): seq<R>
    requires BatchArgOk(kwargs) && ArraysCover(kwargs, RowCount(kwargs, seedCount))
  {
    var count := RowCount(kwargs, seedCount);
    seq(count, n requires 0 <= n < count => ingredient(RowKwargs(kwargs, n)))
  }

  /** The inner loop of the adapter: index every array argument at `n`, pass the others through. */
  method SliceRow<V>(kwargs: Kwargs<V>, n: nat) returns (kwargsN: Kwargs<V>)
    requires ArraysCover(kwargs, n + 1)
    ensures kwargsN == RowKwargs(kwargs, n)
  {
    kwargsN := map[];
    var done: set<string> := {};
    while done != kwargs.Keys
      invariant done <= kwargs.Keys
      invariant kwargsN == map key | key in done :: RowArg(kwargs[key], n)
      decreases |kwargs.Keys - done|
    {
      var key :| key in kwargs.Keys - done;
      if kwargs[key].NdArray? {
        kwargsN := kwargsN[key := kwargs[key].rows[n]];
      } else {
        kwargsN := kwargsN[key := kwargs[key]];
      }
      done := done + {key};
    }
  }

  /** The adapter's loops: build every row's keyword arguments, then call the ingredient on each. */
  method VectorizedIngredient<V, R>(ingredient: Kwargs<V> -> R, seedCount: nat, kwargs: Kwargs<V>)
    returns (out: seq<R>)
    requires BatchArgOk(kwargs) && ArraysCover(kwargs, RowCount(kwargs, seedCount))
    ensures |out| == RowCount(kwargs, seedCount)
    ensures forall n :: 0 <= n < |out| ==> out[n] == ingredient(RowKwargs(kwargs, n))
    ensures out == Vectorized(ingredient, seedCount, kwargs)
  {
    var batchSize := BatchSize(BatchArg(kwargs), seedCount);
    var count := RowCount(kwargs, seedCount);
    var kwargsList: seq<Kwargs<V>> := [];
    var n := 0;
    while n < batchSize
      invariant 0 <= n <= count && |kwargsList| == n
      invariant forall m :: 0 <= m < n ==> kwargsList[m] == RowKwargs(kwargs, m)
    {
      var kwargsN := SliceRow(kwargs, n);
      kwargsList := kwargsList + [kwargsN];
      n := n + 1;
    }
    out := [];
    n := 0;
    while n < batchSize
      invariant 0 <= n <= count && |out| == n
      invariant forall m :: 0 <= m < n ==> out[m] == ingredient(RowKwargs(kwargs, m))
    {
      out := out + [ingredient(kwargsList[n])];
      n := n + 1;
    }
  }

  /** Two argument sets that agree on everything the first `count` rows read. */
  ghost predicate AgreeOnRows<V>(kwargs: Kwargs<V>, other: Kwargs<V>, count: nat)
  {
    && kwargs.Keys == other.Keys
    && forall key :: key in kwargs ==>
        if kwargs[key].NdArray? then
          other[key].NdArray? && count <= |kwargs[key].rows| && count <= |other[key].rows|
          && kwargs[key].rows[..count] == other[key].rows[..count]
        else other[key] == kwargs[key]
  }

  /** Rows of an array argument beyond the batch size never reach the ingredient. */
  lemma ExtraRowsIgnored<V, R>(ingredient: Kwargs<V> -> R, seedCount: nat, kwargs: Kwargs<V>, other: Kwargs<V>)
    requires BatchArgOk(kwargs) && ArraysCover(kwargs, RowCount(kwargs, seedCount))
    requires AgreeOnRows(kwargs, other, RowCount(kwargs, seedCount))
    ensures BatchArgOk(other) && RowCount(other, seedCount) == RowCount(kwargs, seedCount)
    ensures ArraysCover(other, RowCount(other, seedCount))
    ensures Vectorized(ingredient, seedCount, other) == Vectorized(ingredient, seedCount, kwargs)
  {
    var count := RowCount(kwargs, seedCount);
    assert "batch_size" in kwargs ==> other["batch_size"] == kwargs["batch_size"];
    forall n | 0 <= n < count ensures RowKwargs(other, n) == RowKwargs(kwargs, n) {
      forall key | key in kwargs && kwargs[key].NdArray? ensures other[key].rows[n] == kwargs[key].rows[n] {
        assert kwargs[key].rows[..count][n] == other[key].rows[..count][n];
      }
    }
  }
}
