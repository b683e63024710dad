/** Optional values and results with an error, shared by the other modules. */
module Wrappers {

  /** `None` stands for a value that could not be obtained (a call that raised, a file that is missing). */
  datatype Option<+T> = None | Some(value: T)

  /** The outcome of a step that may raise; usable with `:-`. */
  datatype Result<+R, +E> = Success(value: R) | Failure(error: E) {

    predicate IsFailure() {
      Failure?
    }

    function PropagateFailure<U>(): Result<U, E>
      requires Failure?
    {
      Failure(error)
    }

    function Extract(): R
      requires Success?
    {
      value
    }
  }
}
