/** Small shared vocabulary: optional values and dictionary lookup with a default. */
module Wrappers {
  datatype Option<T> = None | Some(value: T)

  /** `d.get(k, default)`: the stored value when `k` is a key, `default` otherwise. */
  function Lookup<K, V>(d: map<K, V>, k: K, default: V): V
  {
    if k in d then d[k] else default
  }

  /** `n` copies of `x`: `np.zeros` of one value, or broadcasting along a new leading axis. */
  function Repeat<T>(n: nat, x: T): (r: seq<T>)
    ensures |r| == n && forall k :: 0 <= k < n ==> r[k] == x
  {
    seq(n, _ => x)
  }
}
