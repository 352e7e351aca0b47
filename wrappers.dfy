/** Option and Result, the two failure-carrying wrappers the model uses for
    Rust's `Option` and for operations that panic on bad input. */
module Wrappers {

  datatype Option<+T> = None | Some(value: T) {
    function GetOr(default: T): T {
      match this
      case Some(v) => v
      case None => default
    }
  }

  datatype Result<+T, +E> = Ok(value: T) | Err(error: E)
}
