/** Option and Result, for values the source leaves missing (NaN, undefined, a
    missing key) and for the places where it raises. */
module Wrappers {

  datatype Option<+T> = None | Some(value: T) {
    /** The value, or the given default when missing (Python `.get(k, d)`, JS `x || d`). */
    function GetOr(default: T): T {
      match this
      case Some(v) => v
      case None => default
    }
  }

  datatype Result<+T, +E> = Ok(value: T) | Err(error: E)
}
