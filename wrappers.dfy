/** Optional values and failure-carrying results, used wherever the source
    works with `undefined` fields or thrown errors. */
module Wrappers {

  /** A value that may be absent (`undefined` in the source). */
  datatype Option<T> = None | Some(value: T) {
    /** The value when present, otherwise `default` (the source's `??`). */
    function GetOr(default: T): T {
      match this
      case Some(v) => v
      case None => default
    }
  }

  /** The outcome of a computation that either produces a value or throws. */
  datatype Result<R, E> = Success(value: R) | Failure(error: E)

  /** The outcome of a computation that produces no value but may throw. */
  datatype Outcome<E> = Pass | Fail(error: E)
}
