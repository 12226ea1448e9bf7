/** Optional values and success-or-error results, used for JavaScript's
    `undefined`/`null` and for thrown errors or rejected requests. */
module Wrappers {
  datatype Option<+T> = None | Some(value: T)

  datatype Result<+R, +E> = Success(value: R) | Failure(error: E)
}
