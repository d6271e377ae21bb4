/** Failure-compatible result types shared by the configuration loader and the
    autoplay handler. */
module Wrappers {

  /** A value that JavaScript may hold as `null`/`undefined`. */
  datatype Option<+T> = None | Some(value: T) {
    /** The `??` operator: the value, or `fallback` when it is nullish. */
    function Or(fallback: T): T {
      match this
      case Some(v) => v
      case None => fallback
    }
  }

  /** A computation that either returns a value or throws an `Error(message)`. */
  datatype Result<+R> = Success(value: R) | Failure(message: string) {
    predicate IsFailure() { Failure? }

    function PropagateFailure<U>(): Result<U>
      requires Failure?
    {
      Failure(message)
    }

    function Extract(): R
      requires Success?
    {
      value
    }
  }
}
