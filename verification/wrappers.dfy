/** Nullable values and the outcomes of writes and validators. */
module Wrappers {

  /** A value that may be absent; a nullable column holds `None` for SQL NULL. */
  datatype Option<+T> = None | Some(value: T)

  /** The outcome of a write: the new state, or the error that rejected it. */
  datatype Result<+R, +E> = Success(value: R) | Failure(error: E) {

    predicate IsFailure() {
      Failure?
    }

    function PropagateFailure<U>(): Result<U, E>
      requires Failure?
    {
      Failure(error)
    }

    function Extract(): R
      requires Success?
    {
      value
    }
  }

  /** The outcome of a validator that either passes or raises an error. */
  datatype Outcome<+E> = Pass | Fail(error: E)
}
