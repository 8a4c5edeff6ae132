/**
 * Failure-compatible result types shared by every module of the model.
 * A Go `(value, error)` pair becomes a `Result`; a Go `panic` becomes a
 * failure whose error value says so in the module's own error datatype.
 */
module Wrappers {

  datatype Option<+T> = None | Some(value: T)

  datatype Result<+T, +E> = Success(value: T) | Failure(error: E) {

    predicate IsFailure() {
      Failure?
    }

    function PropagateFailure<U>(): Result<U, E>
      requires Failure?
    {
      Failure(error)
    }

    function Extract(): T
      requires Success?
    {
      value
    }
  }
}
