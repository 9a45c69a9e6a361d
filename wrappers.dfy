/** Optional values and results, and Python's `dict.get`. */
module Wrappers {

  datatype Option<+T> = None | Some(value: T)

  datatype Result<+R, +E> = Success(value: R) | Failure(error: E)

  /** `d.get(k)`: the value stored under `k`, if any. */
  function Get<K, V>(d: map<K, V>, k: K): Option<V>
  {
    if k in d then Some(d[k]) else None
  }

  /** `d.get(k, default)`. */
  function GetOr<K, V>(d: map<K, V>, k: K, default: V): V
  {
    if k in d then d[k] else default
  }
}
