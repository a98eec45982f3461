/** Option and Result values used for the source's `null` returns and `{ data, error }` pairs. */
module Wrappers {

  datatype Option<+T> = None | Some(value: T) {
    /** The value, or `default` when there is none (the source's `x || default`). */
    function GetOr(default: T): T {
      match this
      case Some(v) => v
      case None => default
    }
  }

  /** The `{ data, error }` pair every service returns: exactly one side is set. */
  datatype Result<+T, +E> = Ok(value: T) | Err(error: E)
}
