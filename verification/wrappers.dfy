/** Optional values and fallible results used throughout the model. */
module Wrappers {

  /** A value that may be absent; stands for the source's nullable handles and -1 indices. */
  datatype Option<+T> = None | Some(value: T)

  /** The outcome of a step that may throw; failure-compatible, so usable with `:-`. */
  datatype Result<+T, +E> = Success(value: T) | Failure(error: E) {

    predicate IsFailure() {
      Failure?
    }

    function PropagateFailure<U>(): Result<U, E>
      requires Failure?
    {
      Failure(error)
    }

    function Extract(): T
      requires Success?
    {
      value
    }
  }
}
