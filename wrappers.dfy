/** Optional values and results, used for JSON keys that may be absent and for
    computations that may raise. */
module Wrappers {

  /** A value that may be missing: an absent dictionary key. */
  datatype Option<+T> = None | Some(value: T) {

    /** Python's `d.get(key, default)` on a dictionary whose value, when
        present, is not null. */
    function GetOr(default: T): T {
      match this
      case Some(v) => v
      case None => default
    }
  }

  /** A computed value, or the error that computing it raised. */
  datatype Result<+T, +E> = Ok(value: T) | Err(error: E)
}
