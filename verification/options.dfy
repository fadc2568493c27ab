/** A value the program may not have: the result of `dict.get` on a missing
    key, or a command-line option left out. */
module Options {

  datatype Option<T> = None | Some(value: T)

  /** `m.get(k)`: the value stored under `k`, or None when the key is absent. */
  function Get<K, V>(m: map<K, V>, k: K): (r: Option<V>)
    ensures r.Some? <==> k in m
    ensures r.Some? ==> r.value == m[k]
  {
    if k in m then Some(m[k]) else None
  }
}
