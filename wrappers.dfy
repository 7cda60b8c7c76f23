/** Java's null, a call that returns a value or throws, and a void call that may throw. */
module Wrappers {

  /** A Java reference that may be null. */
  datatype Option<+T> = None | Some(value: T)

  /** The value a Java call returns, or the exception it throws. Usable with `:-`. */
  datatype Result<+T, +E> = Success(value: T) | Failure(error: E) {

    predicate IsFailure() {
      Failure?
    }

    function PropagateFailure<U>(): Result<U, E>
      requires Failure?
    {
      Failure(error)
    }

    function Extract(): T
      requires Success?
    {
      value
    }
  }

  /** The outcome of a Java method returning void: it completes or throws. */
  datatype Outcome<+E> = Pass | Fail(error: E)
}
