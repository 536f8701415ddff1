/** The failure-carrying result type shared by the room directory operations. */
module Wrappers {

  /** Either the value an operation produced or the error it failed with. */
  datatype Result<+T, +E> = Success(value: T) | Failure(error: E) {

    /** True if this is a Failure */
    predicate IsFailure() {
      Failure?
    }

    /** Converts a Failure to a Result with another value type and the same error */
    function PropagateFailure<U>(): Result<U, E>
      requires Failure?
    {
      Failure(error)
    }

    /** Returns the value held by a Success */
    function Extract(): T
      requires Success?
    {
      value
    }
  }
}
