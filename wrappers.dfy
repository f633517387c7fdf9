/** Option and Result values shared by every module of the model. */
module Wrappers {

  /** A value that may be absent: Rust's `Option`, or a TypeScript field that may be undefined. */
  datatype Option<T> = None | Some(value: T) {

    /** The carried value, or `default` when absent (Rust's `unwrap_or`). */
    function GetOr(default: T): T {
      match this
      case Some(v) => v
      case None => default
    }
  }

  /** The outcome of a call that can fail with an error value. */
  datatype Result<T, E> = Ok(value: T) | Err(error: E)
}
