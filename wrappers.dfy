/** Failure-carrying result types shared by the other modules. */
module Wrappers {

  datatype Option<+T> = None | Some(value: T)

  /** A value, or the exception the source raises instead of producing one. */
  datatype Result<+T, +E> = Ok(value: T) | Err(error: E)

  /** Either the operation went through, or it raised `error`. */
  datatype Outcome<+E> = Pass | Fail(error: E)

  /** Python's `d.get(key)`: the value stored under `key`, or None. */
  function Get<K, V>(d: map<K, V>, key: K): (r: Option<V>)
    ensures r.Some? <==> key in d
    ensures r.Some? ==> r.value == d[key]
  {
    if key in d then Some(d[key]) else None
  }
}
