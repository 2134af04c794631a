/** Small shared vocabulary: optional values and total map lookup. */
module Basics {

  datatype Option<+T> = None | Some(value: T)

  /** Python's `d.get(k, default)`. */
  function Get<K, V>(m: map<K, V>, k: K, default: V): V {
    if k in m then m[k] else default
  }

  /** Python's `d.get(k)`. */
  function Lookup<K, V>(m: map<K, V>, k: K): Option<V> {
    if k in m then Some(m[k]) else None
  }

  /** Python's `d.pop(k, None)` without the returned value. */
  function Without<K, V>(m: map<K, V>, k: K): map<K, V> {
    m - {k}
  }
}
