/** Option and Result, the two Rust sum types every operation of the send path returns through. */
module Wrappers {

  /** Rust's `Option<T>`. */
  datatype Option<+T> = None | Some(value: T) {

    /** `unwrap_or`: the held value, or `default` when there is none. */
    function GetOr(default: T): T
    {
      match this
      case Some(v) => v
      case None => default
    }
  }

  /** Rust's `Result<T, E>`: `Ok` is `Success`, `Err` is `Failure`. */
  datatype Result<+T, +E> = Success(value: T) | Failure(error: E)
}
