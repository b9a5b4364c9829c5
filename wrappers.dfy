/** Option and Result values used for the source's `undefined` results and
    thrown errors. */
module Wrappers {

  datatype Option<+T> = None | Some(value: T) {
    /** The value, or `default` for an absent one (`x ?? default`). */
    function GetOr(default: T): T {
      match this
      case Some(v) => v
      case None => default
    }
  }

  datatype Result<+T, +E> = Ok(value: T) | Err(error: E)
}
