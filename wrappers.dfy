/** Optional values: the model's stand-in for JavaScript's `null` and `undefined`. */
module Wrappers {

  datatype Option<+T> = None | Some(value: T) {

    /** The wrapped value, or `default` when there is none. */
    function GetOr(default: T): T
    {
      match this
      case Some(v) => v
      case None => default
    }
  }

  /** The values an optional value holds: the one it wraps, or none. */
  function SetOf<T(==,!new)>(o: Option<T>): (s: set<T>)
    ensures forall x :: x in s <==> o == Some(x)
  {
    if o.Some? then {o.value} else {}
  }
}
