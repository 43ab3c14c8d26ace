/** Failure-carrying result types shared by the memory and dialogue modules. */
module Wrappers {

  /** A value that may be absent: a missing file, a failed remote call. */
  datatype Option<+T> = None | Some(value: T)

  /** Either a value or the exception that interrupted its computation; usable with `:-`. */
  datatype Result<+R, +E> = Success(value: R) | Failure(error: E) {

    /** An exception was raised, so `:-` stops here. */
    predicate IsFailure() {
      Failure?
    }

    /** Hands the exception on to a computation with a different value type. */
    function PropagateFailure<U>(): (r: Result<U, E>)
      requires Failure?
      ensures r.Failure? && r.error == error
    {
      Failure(error)
    }

    /** The computed value, once `:-` has ruled out an exception. */
    function Extract(): R
      requires Success?
    {
      value
    }
  }
}
