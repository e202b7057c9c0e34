/** The absent-or-present value used for JavaScript's `undefined` results and for optional arguments. */
module Optional {

  datatype Option<+T> = None | Some(value: T)

  /** A map lookup that answers `None` for a missing key, as indexing a JavaScript object does. */
  function Lookup<K, V>(m: map<K, V>, k: K): (r: Option<V>)
    ensures r.Some? <==> k in m
    ensures r.Some? ==> r.value == m[k]
  {
    if k in m then Some(m[k]) else None
  }
}
