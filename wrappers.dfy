/** Failure-compatible result types shared by the store's modules. */
module Wrappers {

  /** A nullable column: None is SQL NULL. */
  datatype Option<+T> = None | Some(value: T) {
    function GetOr(default: T): T {
      match this
      case Some(v) => v
      case None => default
    }
  }

  /** The outcome of a statement that produces a value or is rejected with an error. */
  datatype Result<+R, +E> = Success(value: R) | Failure(error: E)

  /** The outcome of a statement that produces no value. */
  datatype Outcome<+E> = Pass | Fail(error: E)
}
