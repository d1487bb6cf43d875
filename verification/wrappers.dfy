/** Failure-compatible result types used in place of the source's NULL returns
    and process-aborting CHECK macros. */
module Wrappers {

  /** A value or nothing: the registry's "component or NULL". */
  datatype Option<+T> = None | Some(value: T)

  /** A value or a structured error; usable with `:-`. */
  datatype Result<+T, +E> = Success(value: T) | Failure(error: E) {

    predicate IsFailure() {
      Failure?
    }

    function PropagateFailure<U>(): Result<U, E>
      requires Failure?
    {
      Failure(error)
    }

    function Extract(): T
      requires Success?
    {
      value
    }
  }
}
