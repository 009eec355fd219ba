/**
 * The `Data` accumulator: per-key time tables of trajectory-summed outputs
 * divided by a normalisation factor, the seeds they came from, and the merge
 * of two accumulators into their weighted average.
 *
 * The dictionary's two reserved entries, `seed` and `norm_factor`, are
 * fields of their own; every other key maps to a table of rows (one per
 * output time) of real columns.
 */
module Aggregation {
  import opened Wrappers

  /** Left-to-right sum of reals. */
  function Sum(s: seq<real>): real
  {
    if s == [] then 0.0 else Sum(s[..|s| - 1]) + s[|s| - 1]
  }

  /** A table: one row per output time, each row a vector of columns. */
  type Table = seq<seq<real>>

  /** One output of a batch of trajectories: `trajs[b]` is trajectory `b`'s vector of `width` columns. */
  datatype Output = Output(width: nat, trajs: seq<seq<real>>)
  {
    predicate Valid()
    {
      forall b :: 0 <= b < |trajs| ==> |trajs[b]| == width
    }

    /** Column `c` of the output, one entry per trajectory. */
    function Column(c: nat): (col: seq<real>)
      requires Valid() && c < width
      ensures |col| == |trajs|
    {
      seq(|trajs|, b requires 0 <= b < |trajs| => trajs[b][c])
    }

    /** `np.sum(val, axis=0)`: every column summed over the trajectories. */
    function ColumnSum(): (r: seq<real>)
      requires Valid()
      ensures |r| == width
    {
      seq(width, c requires 0 <= c < width => Sum(Column(c)))
    }
  }

  /** `np.zeros((rows, width))`. */
  function Zeros(rows: nat, width: nat): (t: Table)
    ensures |t| == rows && forall r :: 0 <= r < rows ==> t[r] == Repeat(width, 0.0)
  {
    Repeat(rows, Repeat(width, 0.0))
  }

  /** Elementwise division of a vector by the normalisation factor. */
  function Divide(v: seq<real>, n: real): (r: seq<real>)
    requires n != 0.0
    ensures |r| == |v|
  {
    seq(|v|, c requires 0 <= c < |v| => v[c] / n)
  }

  // ---------------------------------------------------------------- recording one time step

  /** The row to be written fits the table the key has, or the zero table it will get. */
  predicate RowFits(current: Option<Table>, out: Output, row: nat, rowCount: nat)
  {
    match current
    case Some(t) => row < |t| && |t[row]| == out.width
    case None => row < rowCount
  }

  /** Every output is well formed, fits its row, and uses neither reserved name. */
  predicate RecordOk(values: map<string, Table>, outputs: map<string, Output>, row: nat, rowCount: nat)
  {
    "seed" !in outputs && "norm_factor" !in outputs &&
    forall k :: k in outputs ==>
      outputs[k].Valid() && RowFits(if k in values then Some(values[k]) else None, outputs[k], row, rowCount)
  }

  /** The new table of one output key: allocated as zeros if missing, then row `row` set to the normalised sum. */
  function RecordKey(current: Option<Table>, out: Output, norm: real, row: nat, rowCount: nat): (t: Table)
    requires out.Valid() && norm != 0.0 && RowFits(current, out, row, rowCount)
  {
    var table := if current.Some? then current.value else Zeros(rowCount, out.width);
    table[row := Divide(out.ColumnSum(), norm)]
  }

  /** The output tables once the keys in `keys` have been recorded. */
  function RecordOn(values: map<string, Table>, outputs: map<string, Output>, norm: real, row: nat, rowCount: nat, keys: set<string>)
    : (r: map<string, Table>)
    requires norm != 0.0 && RecordOk(values, outputs, row, rowCount) && keys <= outputs.Keys
  {
    map k | k in values.Keys + keys ::
      if k in keys then RecordKey(if k in values then Some(values[k]) else None, outputs[k], norm, row, rowCount)
      else values[k]
  }

  /** The output tables after one call of `add_output_to_data_dict`. */
  function Record(values: map<string, Table>, outputs: map<string, Output>, norm: real, row: nat, rowCount: nat)
    : (r: map<string, Table>)
    requires norm != 0.0 && RecordOk(values, outputs, row, rowCount)
  {
    RecordOn(values, outputs, norm, row, rowCount, outputs.Keys)
  }

  /** Recording one more key updates that key alone. */
  lemma RecordOnStep(values: map<string, Table>, outputs: map<string, Output>, norm: real, row: nat, rowCount: nat,
                     keys: set<string>, key: string)
    requires norm != 0.0 && RecordOk(values, outputs, row, rowCount) && keys <= outputs.Keys
    requires key in outputs && key !in keys
    ensures RecordOn(values, outputs, norm, row, rowCount, keys + {key}) ==
      RecordOn(values, outputs, norm, row, rowCount, keys)[key :=
        RecordKey(if key in values then Some(values[key]) else None, outputs[key], norm, row, rowCount)]
  {
    var m := RecordOn(values, outputs, norm, row, rowCount, keys + {key});
    var n := RecordOn(values, outputs, norm, row, rowCount, keys)[key :=
        RecordKey(if key in values then Some(values[key]) else None, outputs[key], norm, row, rowCount)];
    assert m.Keys == n.Keys;
    forall k | k in m ensures m[k] == n[k] {
    }
  }

  /**
   * Recording writes exactly one row of each output key: that row times the
   * norm is the trajectory sum of each column; the other rows keep their
   * values (zeros for a new key), and keys without output are untouched.
   */
  lemma RecordEffect(values: map<string, Table>, outputs: map<string, Output>, norm: real, row: nat, rowCount: nat, k: string)
    requires norm != 0.0 && RecordOk(values, outputs, row, rowCount)
    requires k in values.Keys + outputs.Keys
    ensures var t := Record(values, outputs, norm, row, rowCount)[k];
      && (k !in outputs ==> t == values[k])
      && (k in outputs ==>
            && |t| == (if k in values then |values[k]| else rowCount)
            && |t[row]| == outputs[k].width
            && (forall c :: 0 <= c < outputs[k].width ==> t[row][c] * norm == Sum(outputs[k].Column(c)))
            && (forall r :: 0 <= r < |t| && r != row ==>
                  t[r] == if k in values then values[k][r] else Repeat(outputs[k].width, 0.0)))
  {
    if k in outputs {
      var t := Record(values, outputs, norm, row, rowCount)[k];
      var sums := outputs[k].ColumnSum();
      forall c | 0 <= c < outputs[k].width ensures t[row][c] * norm == Sum(outputs[k].Column(c)) {
        assert t[row][c] == sums[c] / norm;
      }
    }
  }

  /** `add_output_to_data_dict` keeps a non-zero norm and otherwise takes the state's. */
  function NextNorm(current: real, stateNorm: Option<real>): real
    requires current != 0.0 || stateNorm.Some?
  {
    if current == 0.0 then stateNorm.value else current
  }

  // ---------------------------------------------------------------- merging two accumulators

  /** The contents of an accumulator. */
  datatype Snapshot = Snapshot(seed: seq<int>, norm: real, values: map<string, Table>)

  predicate SameShape(x: Table, y: Table)
  {
    |x| == |y| && forall r :: 0 <= r < |x| ==> |x[r]| == |y[r]|
  }

  /** One merged entry: the two sides weighted by their norms, over the new norm. */
  function Average(x: real, nx: real, y: real, ny: real, n: real): real
    requires n != 0.0
  {
    (x * nx + y * ny) / n
  }

  /** `(x * nx + y * ny) / n`, elementwise. */
  function Combine(x: Table, nx: real, y: Table, ny: real, n: real): (t: Table)
    requires SameShape(x, y) && n != 0.0
    ensures SameShape(t, x)
  {
    seq(|x|, r requires 0 <= r < |x| => seq(|x[r]|, c requires 0 <= c < |x[r]| => Average(x[r][c], nx, y[r][c], ny, n)))
  }

  /** Shared keys have the same shape and the summed norm is non-zero whenever a key is shared. */
  predicate MergeOk(a: Snapshot, b: Snapshot)
  {
    forall k :: k in a.values && k in b.values ==> SameShape(a.values[k], b.values[k]) && a.norm + b.norm != 0.0
  }

  /** The tables once the incoming keys in `keys` have been merged in. */
  function MergeOn(a: Snapshot, b: Snapshot, keys: set<string>): (m: map<string, Table>)
    requires MergeOk(a, b) && keys <= b.values.Keys
  {
    map k | k in a.values.Keys + keys ::
      if k in keys then
        if k in a.values then Combine(a.values[k], a.norm, b.values[k], b.norm, a.norm + b.norm) else b.values[k]
      else a.values[k]
  }

  /** The tables after `a.add_data(b)`. */
  function MergeValues(a: Snapshot, b: Snapshot): (m: map<string, Table>)
    requires MergeOk(a, b)
  {
    MergeOn(a, b, b.values.Keys)
  }

  /** Merging one more incoming key updates that key alone. */
  lemma MergeOnStep(a: Snapshot, b: Snapshot, keys: set<string>, key: string)
    requires MergeOk(a, b) && keys <= b.values.Keys && key in b.values && key !in keys
    ensures MergeOn(a, b, keys + {key}) == MergeOn(a, b, keys)[key :=
      if key in a.values then Combine(a.values[key], a.norm, b.values[key], b.norm, a.norm + b.norm) else b.values[key]]
  {
    var m := MergeOn(a, b, keys + {key});
    var n := MergeOn(a, b, keys)[key :=
      if key in a.values then Combine(a.values[key], a.norm, b.values[key], b.norm, a.norm + b.norm) else b.values[key]];
    assert m.Keys == n.Keys;
    forall k | k in m ensures m[k] == n[k] {
    }
  }

  /** `a.add_data(b)`: seeds concatenated with `a`'s first, norms added, tables merged. */
  function Merge(a: Snapshot, b: Snapshot): (m: Snapshot)
    requires MergeOk(a, b)
    ensures m.seed == a.seed + b.seed && m.norm == a.norm + b.norm
  {
    Snapshot(a.seed + b.seed, a.norm + b.norm, MergeValues(a, b))
  }

  /**
   * Shared keys hold the weighted average: the merged entry times the new
   * norm is the sum of each side's entry times its norm. Keys of one side
   * only keep that side's table, unscaled.
   */
  lemma MergeWeighted(a: Snapshot, b: Snapshot, k: string)
    requires MergeOk(a, b) && k in a.values.Keys + b.values.Keys
    ensures var t := Merge(a, b).values[k];
      && (k in a.values && k in b.values ==>
            SameShape(t, a.values[k]) &&
            forall r, c :: 0 <= r < |t| && 0 <= c < |t[r]| ==>
              t[r][c] * (a.norm + b.norm) == a.values[k][r][c] * a.norm + b.values[k][r][c] * b.norm)
      && (k !in b.values ==> t == a.values[k])
      && (k !in a.values ==> t == b.values[k])
  {
    if k in a.values && k in b.values {
      var t := Merge(a, b).values[k];
      var n := a.norm + b.norm;
      forall r, c | 0 <= r < |t| && 0 <= c < |t[r]|
        ensures t[r][c] * n == a.values[k][r][c] * a.norm + b.values[k][r][c] * b.norm
      {
        var x := a.values[k][r][c] * a.norm + b.values[k][r][c] * b.norm;
        assert t[r][c] == x / n;
      }
    }
  }

  /** `(x * nx + y * ny) / n` does not depend on the order of its two sides. */
  lemma CombineSymmetric(x: Table, nx: real, y: Table, ny: real)
    requires SameShape(x, y) && nx + ny != 0.0
    ensures Combine(x, nx, y, ny, nx + ny) == Combine(y, ny, x, nx, ny + nx)
  {
    var s, t := Combine(x, nx, y, ny, nx + ny), Combine(y, ny, x, nx, ny + nx);
    forall r | 0 <= r < |s| ensures s[r] == t[r] {
      assert |s[r]| == |t[r]|;
    }
  }

  /** Merging is symmetric: the same norm and tables either way, and the same seeds in another order. */
  lemma MergeSymmetric(a: Snapshot, b: Snapshot)
    requires MergeOk(a, b) && MergeOk(b, a)
    ensures Merge(a, b).values == Merge(b, a).values
    ensures Merge(a, b).norm == Merge(b, a).norm
    ensures multiset(Merge(a, b).seed) == multiset(Merge(b, a).seed)
  {
    var m, n := Merge(a, b).values, Merge(b, a).values;
    forall k | k in m ensures m[k] == n[k] {
      if k in a.values && k in b.values {
        CombineSymmetric(a.values[k], a.norm, b.values[k], b.norm);
      }
    }
  }

  /** One entry of the three-way merge: grouping does not matter when every norm sum is non-zero. */
  lemma AverageAssociative(x: real, nx: real, y: real, ny: real, z: real, nz: real)
    requires nx + ny != 0.0 && ny + nz != 0.0 && nx + ny + nz != 0.0
    ensures Average(Average(x, nx, y, ny, nx + ny), nx + ny, z, nz, nx + ny + nz)
         == Average(x, nx, Average(y, ny, z, nz, ny + nz), ny + nz, nx + (ny + nz))
  {
    var p, q := x * nx + y * ny, y * ny + z * nz;
    assert p / (nx + ny) * (nx + ny) == p;
    assert q / (ny + nz) * (ny + nz) == q;
  }

  /** One cell of the three-way merge of tables. */
  lemma CombineAssociativeAt(x: Table, nx: real, y: Table, ny: real, z: Table, nz: real, r: nat, c: nat)
    requires SameShape(x, y) && SameShape(y, z)
    requires nx + ny != 0.0 && ny + nz != 0.0 && nx + ny + nz != 0.0
    requires r < |x| && c < |x[r]|
    ensures Combine(Combine(x, nx, y, ny, nx + ny), nx + ny, z, nz, nx + ny + nz)[r][c]
         == Combine(x, nx, Combine(y, ny, z, nz, ny + nz), ny + nz, nx + (ny + nz))[r][c]
  {
    AverageAssociative(x[r][c], nx, y[r][c], ny, z[r][c], nz);
  }

  /** Three tables of one shape: grouping the weighted averages either way gives the same table. */
  lemma CombineAssociative(x: Table, nx: real, y: Table, ny: real, z: Table, nz: real)
    requires SameShape(x, y) && SameShape(y, z)
    requires nx + ny != 0.0 && ny + nz != 0.0 && nx + ny + nz != 0.0
    ensures Combine(Combine(x, nx, y, ny, nx + ny), nx + ny, z, nz, nx + ny + nz)
         == Combine(x, nx, Combine(y, ny, z, nz, ny + nz), ny + nz, nx + (ny + nz))
  {
    var l := Combine(Combine(x, nx, y, ny, nx + ny), nx + ny, z, nz, nx + ny + nz);
    var s := Combine(x, nx, Combine(y, ny, z, nz, ny + nz), ny + nz, nx + (ny + nz));
    forall r | 0 <= r < |l| ensures l[r] == s[r] {
      forall c | 0 <= c < |l[r]| ensures l[r][c] == s[r][c] {
        CombineAssociativeAt(x, nx, y, ny, z, nz, r, c);
      }
    }
  }

  /** Two accumulators with the same keys merge key by key into the weighted average. */
  lemma MergeSharedKeys(a: Snapshot, b: Snapshot)
    requires MergeOk(a, b) && a.values.Keys == b.values.Keys
    ensures Merge(a, b).values.Keys == a.values.Keys
    ensures forall k :: k in a.values ==>
      Merge(a, b).values[k] == Combine(a.values[k], a.norm, b.values[k], b.norm, a.norm + b.norm)
  {
  }

  /** One key of the three-way merge, given the two-way merges key by key. */
  lemma MergeAssociativeAt(a: Snapshot, b: Snapshot, c: Snapshot, ab: Snapshot, bc: Snapshot, left: Snapshot, right: Snapshot, k: string)
    requires k in a.values && k in b.values && k in c.values && k in ab.values && k in bc.values
    requires SameShape(a.values[k], b.values[k]) && SameShape(b.values[k], c.values[k])
    requires a.norm + b.norm != 0.0 && b.norm + c.norm != 0.0 && a.norm + b.norm + c.norm != 0.0
    requires ab.norm == a.norm + b.norm && bc.norm == b.norm + c.norm
    requires ab.values[k] == Combine(a.values[k], a.norm, b.values[k], b.norm, a.norm + b.norm)
    requires bc.values[k] == Combine(b.values[k], b.norm, c.values[k], c.norm, b.norm + c.norm)
    requires k in left.values && left.values[k] == Combine(ab.values[k], ab.norm, c.values[k], c.norm, ab.norm + c.norm)
    requires k in right.values && right.values[k] == Combine(a.values[k], a.norm, bc.values[k], bc.norm, a.norm + bc.norm)
    ensures left.values[k] == right.values[k]
  {
    CombineAssociative(a.values[k], a.norm, b.values[k], b.norm, c.values[k], c.norm);
  }

  /**
   * Over exact reals, merging is associative when every accumulator holds
   * the same keys with the same shapes and the norm sums are non-zero.
   */
  lemma MergeAssociative(a: Snapshot, b: Snapshot, c: Snapshot)
    requires a.values.Keys == b.values.Keys == c.values.Keys
    requires forall k :: k in a.values ==> SameShape(a.values[k], b.values[k]) && SameShape(b.values[k], c.values[k])
    requires a.norm + b.norm != 0.0 && b.norm + c.norm != 0.0 && a.norm + b.norm + c.norm != 0.0
    ensures MergeOk(a, b) && MergeOk(b, c)
    ensures MergeOk(Merge(a, b), c) && MergeOk(a, Merge(b, c))
    ensures Merge(Merge(a, b), c) == Merge(a, Merge(b, c))
  {
    var ab, bc := Merge(a, b), Merge(b, c);
    MergeSharedKeys(a, b);
    MergeSharedKeys(b, c);
    assert MergeOk(ab, c) && MergeOk(a, bc);
    var left, right := Merge(ab, c), Merge(a, bc);
    MergeSharedKeys(ab, c);
    MergeSharedKeys(a, bc);
    forall k | k in left.values ensures left.values[k] == right.values[k] {
      MergeAssociativeAt(a, b, c, ab, bc, left, right, k);
    }
    assert left.values == right.values;
  }

  /**
   * Without shared keys everywhere, grouping matters: a key present in the
   * first and third accumulators but not the second averages to 2/3 one way
   * and 1/3 the other.
   */
  lemma MergePartialKeysNotAssociative()
    ensures var a := Snapshot([], 1.0, map["k" := [[1.0]]]);
      var b := Snapshot([], 1.0, map[]);
      var c := Snapshot([], 1.0, map["k" := [[0.0]]]);
      && Merge(Merge(a, b), c).values["k"] == [[2.0 / 3.0]]
      && Merge(a, Merge(b, c)).values["k"] == [[1.0 / 3.0]]
  {
    var a := Snapshot([], 1.0, map["k" := [[1.0]]]);
    var b := Snapshot([], 1.0, map[]);
    var c := Snapshot([], 1.0, map["k" := [[0.0]]]);
    var ab := Merge(a, b);
    assert ab.values["k"] == [[1.0]] && ab.norm == 2.0;
    var bc := Merge(b, c);
    assert bc.values["k"] == [[0.0]] && bc.norm == 2.0;
    var left := Merge(ab, c).values["k"];
    assert left == Combine([[1.0]], 2.0, [[0.0]], 1.0, 3.0);
    assert |left| == 1 && |left[0]| == 1 && left[0][0] == 2.0 / 3.0;
    assert left[0] == [2.0 / 3.0];
    var right := Merge(a, bc).values["k"];
    assert right == Combine([[1.0]], 1.0, [[0.0]], 2.0, 3.0);
    assert |right| == 1 && |right[0]| == 1 && right[0][0] == 1.0 / 3.0;
    assert right[0] == [1.0 / 3.0];
  }

  /** Merging into an accumulator of norm zero takes every incoming table as it is. */
  lemma MergeIntoZeroNorm(a: Snapshot, b: Snapshot)
    requires MergeOk(a, b) && a.norm == 0.0 && b.norm != 0.0
    ensures forall k :: k in b.values ==> Merge(a, b).values[k] == b.values[k]
  {
    forall k | k in b.values ensures Merge(a, b).values[k] == b.values[k] {
      if k in a.values {
        var t := Merge(a, b).values[k];
        forall r | 0 <= r < |t| ensures t[r] == b.values[k][r] {
          forall c | 0 <= c < |t[r]| ensures t[r][c] == b.values[k][r][c] {
            var y := b.values[k][r][c];
            assert t[r][c] == (a.values[k][r][c] * 0.0 + y * b.norm) / (0.0 + b.norm);
            assert y * b.norm / b.norm == y;
          }
        }
      }
    }
  }

  /**
   * Merging an accumulator with itself (`d.add_data(d)`) doubles the seeds
   * and the norm and leaves every table as it was.
   */
  lemma MergeSelf(a: Snapshot)
    requires a.norm != 0.0
    ensures MergeOk(a, a)
    ensures Merge(a, a) == Snapshot(a.seed + a.seed, 2.0 * a.norm, a.values)
  {
    var m := Merge(a, a).values;
    forall k | k in m ensures m[k] == a.values[k] {
      var t := m[k];
      forall r | 0 <= r < |t| ensures t[r] == a.values[k][r] {
        forall c | 0 <= c < |t[r]| ensures t[r][c] == a.values[k][r][c] {
          var x := a.values[k][r][c];
          assert t[r][c] == (x * a.norm + x * a.norm) / (a.norm + a.norm);
          assert (x * a.norm + x * a.norm) == x * (a.norm + a.norm);
        }
      }
    }
  }

  // ---------------------------------------------------------------- the loops over keys

  /** One pass of the recording loop: the key's current table is its original one, and writing it extends the recorded keys. */
  lemma RecordLoopStep(values: map<string, Table>, outputs: map<string, Output>, norm: real, row: nat, rowCount: nat,
                       done: set<string>, key: string, result: map<string, Table>)
    requires norm != 0.0 && RecordOk(values, outputs, row, rowCount) && done <= outputs.Keys
    requires key in outputs && key !in done && result == RecordOn(values, outputs, norm, row, rowCount, done)
    ensures (key in result) == (key in values) && (key in result ==> result[key] == values[key])
    ensures RowFits(if key in result then Some(result[key]) else None, outputs[key], row, rowCount)
    ensures result[key := RecordKey(if key in result then Some(result[key]) else None, outputs[key], norm, row, rowCount)]
         == RecordOn(values, outputs, norm, row, rowCount, done + {key})
  {
    RecordOnStep(values, outputs, norm, row, rowCount, done, key);
  }

  /** The loop of `add_output_to_data_dict` over the output keys, one key at a time. */
  method RecordOutputs(values: map<string, Table>, outputs: map<string, Output>, norm: real, row: nat, rowCount: nat)
    returns (result: map<string, Table>)
    requires norm != 0.0 && RecordOk(values, outputs, row, rowCount)
    ensures result == Record(values, outputs, norm, row, rowCount)
  {
    result := values;
    var done: set<string>, todo := {}, outputs.Keys;
    assert result == RecordOn(values, outputs, norm, row, rowCount, done);
    while todo != {}
      invariant done <= outputs.Keys && todo == outputs.Keys - done
      invariant result == RecordOn(values, outputs, norm, row, rowCount, done)
      decreases todo
    {
      var key :| key in todo;
      RecordLoopStep(values, outputs, norm, row, rowCount, done, key, result);
      var current := if key in result then Some(result[key]) else None;
      result := result[key := RecordKey(current, outputs[key], norm, row, rowCount)];
      done, todo := done + {key}, todo - {key};
    }
  }

  /** One pass of the merging loop: the key's current table is the accumulator's own, and writing it extends the merged keys. */
  lemma MergeLoopStep(a: Snapshot, b: Snapshot, done: set<string>, key: string, result: map<string, Table>)
    requires MergeOk(a, b) && done <= b.values.Keys && key in b.values && key !in done
    requires result == MergeOn(a, b, done)
    ensures (key in result) == (key in a.values) && (key in result ==> result[key] == a.values[key])
    ensures key in result ==> SameShape(result[key], b.values[key]) && a.norm + b.norm != 0.0
    ensures result[key := if key in result then Combine(result[key], a.norm, b.values[key], b.norm, a.norm + b.norm) else b.values[key]]
         == MergeOn(a, b, done + {key})
  {
    MergeOnStep(a, b, done, key);
  }

  /** The loop of `add_data` over the incoming keys: shared keys are averaged, new keys copied. */
  method MergeTables(values: map<string, Table>, norm: real, incoming: map<string, Table>, incomingNorm: real, newNorm: real)
    returns (result: map<string, Table>)
    requires newNorm == norm + incomingNorm
    requires MergeOk(Snapshot([], norm, values), Snapshot([], incomingNorm, incoming))
    ensures result == MergeValues(Snapshot([], norm, values), Snapshot([], incomingNorm, incoming))
  {
    ghost var a, b := Snapshot([], norm, values), Snapshot([], incomingNorm, incoming);
    result := values;
    var done: set<string>, todo := {}, incoming.Keys;
    assert result == MergeOn(a, b, done);
    while todo != {}
      invariant done <= incoming.Keys && todo == incoming.Keys - done
      invariant result == MergeOn(a, b, done)
      decreases todo
    {
      var key :| key in todo;
      MergeLoopStep(a, b, done, key, result);
      var t := if key in result then Combine(result[key], norm, incoming[key], incomingNorm, newNorm) else incoming[key];
      result := result[key := t];
      done, todo := done + {key}, todo - {key};
    }
  }

  // ---------------------------------------------------------------- the accumulator object

  class Data {
    var seed: seq<int>
    var normFactor: real
    var values: map<string, Table>

    /** A fresh accumulator: the given seeds (or none), norm zero, no tables. */
    constructor (seeds: Option<seq<int>>)
      ensures seed == (if seeds.Some? then seeds.value else [])
      ensures normFactor == 0.0 && values == map[]
    {
      seed := if seeds.Some? then seeds.value else [];
      normFactor := 0.0;
      values := map[];
    }

    function Snap(): Snapshot
      reads this
    {
      Snapshot(seed, normFactor, values)
    }

    /**
     * `add_output_to_data_dict`: takes the state's norm when its own is zero
     * (failing, and changing nothing, when the state has none), then writes
     * row `tInd / dtCollectN` of every output key.
     */
    method AddOutputToDataDict(rowCount: nat, dtCollectN: nat, stateNorm: Option<real>, outputs: map<string, Output>, tInd: nat)
      returns (ok: bool)
      requires dtCollectN > 0
      requires normFactor == 0.0 && stateNorm.Some? && outputs != map[] ==> stateNorm.value != 0.0
      requires RecordOk(values, outputs, tInd / dtCollectN, rowCount)
      modifies this
      ensures ok <==> old(normFactor) != 0.0 || stateNorm.Some?
      ensures !ok ==> unchanged(this)
      ensures ok ==> && normFactor == NextNorm(old(normFactor), stateNorm)
                     && seed == old(seed)
                     && (outputs != map[] ==> normFactor != 0.0)
                     && values == (if outputs == map[] then old(values)
                                   else Record(old(values), outputs, normFactor, tInd / dtCollectN, rowCount))
    {
      if normFactor == 0.0 {
        if stateNorm.None? {
          return false;
        }
        normFactor := stateNorm.value;
      }
      ok := true;
      var row := tInd / dtCollectN;
      if outputs == map[] {
        return;
      }
      values := RecordOutputs(values, outputs, normFactor, row, rowCount);
    }

    /**
     * `add_data`: merges `other` into this accumulator. Everything of
     * `other` is read before it is changed, so merging an accumulator into
     * itself behaves like merging a copy.
     */
    method AddData(other: Data)
      requires MergeOk(Snap(), other.Snap())
      modifies this
      ensures Snap() == Merge(old(Snap()), old(other.Snap()))
    {
      var otherSeed, otherNorm, otherValues := other.seed, other.normFactor, other.values;
      var newNorm := otherNorm + normFactor;
      seed := seed + otherSeed;
      values := MergeTables(values, normFactor, otherValues, otherNorm, newNorm);
      normFactor := newNorm;
    }
  }
}
