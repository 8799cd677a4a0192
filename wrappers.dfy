/** A failure-compatible result type for the Python exceptions the model keeps. */
module Wrappers {

  datatype Result<+T, +E> = Success(value: T) | Failure(error: E) {

    predicate IsFailure() {
      Failure?
    }

    function PropagateFailure<U>(): Result<U, E>
      requires Failure?
    {
      Failure(error)
    }

    function Extract(): T
      requires Success?
    {
      value
    }
  }

  /** The one exception the core can raise: a dictionary lookup with a missing key. */
  datatype Error = KeyError(key: string)
}
