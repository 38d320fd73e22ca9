/** The optional value used wherever the JavaScript source reads a value that may be `undefined`. */
module Wrappers {

  datatype Option<+T> = None | Some(value: T) {

    /**
     * The value, or `default` when there is none. With `default == ""` this is
     * JavaScript's `x || ''` on a string that may be `undefined`: an empty
     * string gives `''` either way.
     */
    function GetOr(default: T): (r: T)
      ensures Some? ==> r == value
      ensures None? ==> r == default
    {
      match this
      case Some(v) => v
      case None => default
    }
  }

  /** `m[k]` in JavaScript: the entry under `k`, or `undefined` (here `None`). */
  function Get<K, V>(m: map<K, V>, k: K): (r: Option<V>)
    ensures r.Some? <==> k in m
    ensures r.Some? ==> r.value == m[k]
  {
    if k in m then Some(m[k]) else None
  }
}
