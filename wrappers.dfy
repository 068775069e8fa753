/** Failure-compatible result types used for the Python exceptions of the driver. */
module Wrappers {

  datatype Option<+T> = None | Some(value: T)

  /** A value, or the exception that was raised instead. */
  datatype Result<+R, +E> = Success(value: R) | Failure(error: E) {
    predicate IsFailure() { Failure? }

    function PropagateFailure<U>(): Result<U, E>
      requires Failure?
    {
      Failure(error)
    }

    function Extract(): R
      requires Success?
    {
      value
    }
  }

  /** Completion of a procedure that returns None in Python, or the exception it raised. */
  datatype Outcome<+E> = Pass | Fail(error: E) {
    predicate IsFailure() { Fail? }

    function PropagateFailure(): Outcome<E>
      requires Fail?
    {
      this
    }
  }
}
