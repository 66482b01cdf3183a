/** Optional values and results, used where the source has `null`/`undefined` or an early
    error return. */
module Wrappers {

  datatype Option<+T> = None | Some(value: T)

  datatype Result<+R, +E> = Success(value: R) | Failure(error: E)
}
