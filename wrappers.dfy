/** Failure-compatible result type used to model Python's raise/except. */
module Wrappers {

  datatype Option<+T> = None | Some(value: T)

  /** The outcome of a Python computation: a value, or the exception it raised. */
  datatype Result<+R, +E> = Success(value: R) | Failure(error: E) {

    predicate IsFailure() {
      Failure?
    }

    function PropagateFailure<U>(): Result<U, E>
      requires Failure?
    {
      Failure(error)
    }

    function Extract(): R
      requires Success?
    {
      value
    }
  }
}
