/** The Option datatype and the failure-compatible Result datatype used throughout the model. */
module Wrappers {

  /** An optional value: `None` stands for Python's "not set" (`self.os = None`, a missing hostname). */
  datatype Option<+T> = None | Some(value: T)

  /** Either a value or the exception that a Python statement raised. */
  datatype Result<+R, +E> = Success(value: R) | Failure(error: E) {

    predicate IsFailure() {
      Failure?
    }

    function PropagateFailure<U>(): Result<U, E>
      requires Failure?
    {
      Failure(error)
    }

    function Extract(): R
      requires Success?
    {
      value
    }
  }
}
