/** The optional value used wherever the source returns `None` or reads a nullable column. */
module Wrappers {

  datatype Option<+T> = None | Some(value: T)

  /** Looking a key up in a map, as `dict.get` does. */
  function Get<K, V>(m: map<K, V>, k: K): (r: Option<V>)
    ensures r.Some? <==> k in m
    ensures r.Some? ==> r.value == m[k]
  {
    if k in m then Some(m[k]) else None
  }
}
