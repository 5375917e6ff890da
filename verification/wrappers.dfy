/** Failure-compatible Option and Result datatypes shared by the receipt model. */
module Wrappers {

  /** A value that may be absent: a missing response, a missing key, a failed decode. */
  datatype Option<+T> = None | Some(value: T)

  /** Either a value or the error the Python code would raise instead of returning. */
  datatype Result<+R, +E> = Success(value: R) | Failure(error: E) {

    predicate IsFailure() {
      Failure?
    }

    function PropagateFailure<U>(): Result<U, E>
      requires Failure?
    {
      Failure(error)
    }

    function Extract(): R
      requires Success?
    {
      value
    }
  }
}
