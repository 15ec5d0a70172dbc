/** Failure-compatible wrappers used in place of Go's nil and error returns. */
module Wrappers {

  /** An optional value: None stands for Go's nil. */
  datatype Option<+T> = None | Some(value: T)

  /** The outcome of an operation that returns a value or an error. */
  datatype Result<+R, +E> = Success(value: R) | Failure(error: E) {

    predicate IsFailure() {
      Failure?
    }

    function PropagateFailure<U>(): Result<U, E>
      requires Failure?
    {
      Failure(error)
    }

    function Extract(): R
      requires Success?
    {
      value
    }
  }
}
