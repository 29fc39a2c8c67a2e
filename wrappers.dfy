/** Option and Result values used where the TypeScript source has `undefined`
    fields or operations that throw. */
module Wrappers {

  /** A value that may be absent (`undefined` or `null` in the source). */
  datatype Option<+T> = None | Some(value: T) {

    /** The value, or `default` when absent (a destructuring default). */
    function GetOr(default: T): T {
      match this
      case Some(v) => v
      case None => default
    }
  }

  /** The outcome of an operation that either yields a value or throws. */
  datatype Result<+T, +E> = Success(value: T) | Failure(error: E)
}
