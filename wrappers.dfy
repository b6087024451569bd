/** Failure-compatible result type shared by the gene and utility modules. */
module Wrappers {

  /** Either a value (`Success`) or the error the source would raise (`Failure`). */
  datatype Result<+T, +E> = Success(value: T) | Failure(error: E) {

    predicate IsFailure() {
      Failure?
    }

    function PropagateFailure<U>(): Result<U, E>
      requires Failure?
    {
      Failure(error)
    }

    function Extract(): T
      requires Success?
    {
      value
    }
  }
}
