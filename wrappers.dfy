/** Failure-carrying values: Rust's `Option` and `Result`, and a `Result<()>`. */
module Wrappers {

  datatype Option<+T> = None | Some(value: T) {
    function GetOr(default: T): T {
      match this
      case Some(v) => v
      case None => default
    }
  }

  datatype Result<+R, +E> = Success(value: R) | Failure(error: E)

  /** The outcome of an operation that returns `Result<()>`. */
  datatype Outcome<+E> = Pass | Fail(error: E)
}
