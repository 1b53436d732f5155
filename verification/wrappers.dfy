/**
 Optional values and results with an error, used for Python's `None` and for
 the `ValueError`s the configuration builder raises. `Result` is
 failure-compatible, so `:-` propagates the first error as `raise` does.
 */
module Wrappers {

  datatype Option<+T> = None | Some(value: T) {

    /** The value, or `default` when absent (Python's `dict.get(key, default)`). */
    function GetOr(default: T): T {
      match this
      case Some(v) => v
      case None => default
    }
  }

  datatype Result<+R, +E> = Success(value: R) | Failure(error: E) {

    predicate IsFailure() {
      Failure?
    }

    function PropagateFailure<U>(): Result<U, E>
      requires Failure?
    {
      Failure(error)
    }

    function Extract(): R
      requires Success?
    {
      value
    }
  }

  /** Python truthiness of an optional string: present and not empty. */
  predicate NonEmpty(s: Option<string>) {
    s.Some? && |s.value| > 0
  }
}
