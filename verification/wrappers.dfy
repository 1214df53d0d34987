/** Failure-compatible wrappers used to model Go's nil results and panics as values. */
module Wrappers {

  datatype Option<+T> = None | Some(value: T)

  /** A Go call that either returns a value or panics (through PanicIfError or a runtime error). */
  datatype Result<+T, +E> = Success(value: T) | Failure(error: E) {

    predicate IsFailure() {
      Failure?
    }

    function PropagateFailure<U>(): Result<U, E>
      requires Failure?
    {
      Failure(error)
    }

    function Extract(): T
      requires Success?
    {
      value
    }
  }
}
