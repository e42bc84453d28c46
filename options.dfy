/** Optional values and the lookups of the two key/value stores, which answer `null` for a missing key. */
module Options {

  datatype Option<+T> = None | Some(value: T)

  /** `store.get(key)`: the stored value, or None when the key is absent. */
  function Find<K, V>(m: map<K, V>, key: K): (r: Option<V>)
    ensures r.Some? <==> key in m
    ensures r.Some? ==> r.value == m[key]
  {
    if key in m then Some(m[key]) else None
  }

  /** JavaScript truthiness of a `string | null`: present and not the empty string. */
  predicate Truthy(s: Option<string>)
  {
    s.Some? && s.value != ""
  }
}
