/** Option and Result, the two wrappers every other module uses for values that may be
    missing and for operations that raise in the original program. A `Result` can be
    unwrapped with `:-`, which passes a failure on unchanged, as a Python exception
    propagates. */
module Wrappers {

  datatype Option<+T> = None | Some(value: T)

  datatype Result<+R, +E> = Success(value: R) | Failure(error: E) {
    predicate IsFailure() {
      Failure?
    }

    function PropagateFailure<U>(): Result<U, E>
      requires Failure?
    {
      Failure(this.error)
    }

    function Extract(): R
      requires Success?
    {
      value
    }
  }
}
