/** Optional values and operation results, shared by the other modules. */
module Wrappers {

  /** An optional value: TypeScript's `T | undefined` and `T | null`. */
  datatype Option<+T> = None | Some(value: T)

  /** The outcome of an operation that either returns a value or throws. */
  datatype Result<+R, +E> = Success(value: R) | Failure(error: E)
}
