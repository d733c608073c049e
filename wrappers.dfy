/** Optional values and discriminated results, the Dafny counterparts of
    Swift's `Optional` and `Result<Success, Failure>`. */
module Wrappers {

  datatype Option<+T> = None | Some(value: T)

  /** Exactly one of a success value or a failure value, never both. */
  datatype Result<+R, +E> = Success(value: R) | Failure(error: E)
}
