/** Optional values: a key that a Flask session or form may or may not hold. */
module Wrappers {

  datatype Option<+T> = None | Some(value: T) {

    /** `d.get(key, default)`: the held value, or `default` when the key is absent */
    function GetOr(default: T): T {
      match this
      case Some(v) => v
      case None => default
    }
  }
}
