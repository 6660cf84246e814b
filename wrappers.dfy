/** Option and Result, the two failure-compatible wrappers the model uses for
    Swift optionals and for `throws`. */
module Wrappers {

  datatype Option<+T> = None | Some(value: T)

  /** The outcome of a throwing Swift call: a value, or the error it threw. */
  datatype Result<+R, +E> = Success(value: R) | Failure(error: E) {

    predicate IsFailure() {
      Failure?
    }

    function PropagateFailure<U>(): Result<U, E>
      requires Failure?
    {
      Failure(error)
    }

    function Extract(): R
      requires Success?
    {
      value
    }
  }
}
