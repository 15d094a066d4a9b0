/** Failure-compatible datatypes standing in for Java's nullable references
    and thrown exceptions. */
module Wrappers {

  /** A nullable value: `None` is Java's `null`. */
  datatype Option<+T> = None | Some(value: T) {

    /** The value, or `default` when absent (`x != null ? x : default`). */
    function GetOr(default: T): T {
      match this
      case Some(v) => v
      case None => default
    }
  }

  /** The outcome of an operation that either returns a value or throws. */
  datatype Result<+R, +E> = Success(value: R) | Failure(error: E) {

    predicate IsFailure() {
      Failure?
    }

    function PropagateFailure<U>(): Result<U, E>
      requires Failure?
    {
      Failure(error)
    }

    function Extract(): R
      requires Success?
    {
      value
    }
  }
}
