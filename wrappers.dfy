/** Option and Result, the two outcome channels of the model: `Option` for
    "absent but fine" (a stream that is not found), `Result` for a failure
    that aborts the request (a database error). `Result` is failure-compatible,
    so `:-` plays the part of Rust's `?` operator. */
module Wrappers {

  datatype Option<+T> = None | Some(value: T)

  datatype Result<+R, +E> = Success(value: R) | Failure(error: E) {

    predicate IsFailure() {
      Failure?
    }

    function PropagateFailure<U>(): Result<U, E>
      requires Failure?
    {
      Failure(error)
    }

    function Extract(): R
      requires Success?
    {
      value
    }
  }
}
