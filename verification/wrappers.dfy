/** Failure-compatible Option and Result datatypes, usable with `:-`. */
module Wrappers {

  datatype Option<+T> = None | Some(value: T) {

    /** The value inside Some, or `default` when None (a model field's default). */
    function GetOr(default: T): T {
      match this
      case Some(v) => v
      case None => default
    }
  }

  datatype Result<+T, +E> = Success(value: T) | Failure(error: E) {

    predicate IsFailure() {
      Failure?
    }

    function PropagateFailure<U>(): Result<U, E>
      requires Failure?
    {
      Failure(error)
    }

    function Extract(): T
      requires Success?
    {
      value
    }
  }
}
