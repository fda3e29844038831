/** Optional values and results shared by every other module. */
module Wrappers {

  datatype Option<+T> = None | Some(value: T)

  datatype Result<+T, +E> = Ok(value: T) | Err(error: E)

  /** Lookup in a finite map, absence made explicit. */
  function Get<K, V>(m: map<K, V>, k: K): (r: Option<V>)
    ensures r.Some? <==> k in m
  {
    if k in m then Some(m[k]) else None
  }
}
