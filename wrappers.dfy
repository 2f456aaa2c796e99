/** Optional values: a Python dictionary lookup with `.get(key)` either finds
    the key or falls back to a default, which `GetOr` models. */
module Wrappers {

  datatype Option<+T> = None | Some(value: T) {

    /** The wrapped value, or `default` when there is none (`dict.get(key, default)`). */
    function GetOr(default: T): T {
      match this
      case Some(v) => v
      case None => default
    }
  }
}
