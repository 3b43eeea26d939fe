/** Optional values and error-or-value results, used where the source has `null`/`undefined`
    or an early `process.exit` on bad input. */
module Wrappers {

  datatype Option<+T> = None | Some(value: T)

  datatype Result<+T, +E> = Success(value: T) | Failure(error: E)
}
