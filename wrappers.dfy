/** Optional values and error-or-value results, used for the source's None and its
    raised exceptions / error responses. */
module Wrappers {

  datatype Option<+T> = None | Some(value: T)

  datatype Result<+T, +E> = Success(value: T) | Failure(error: E)
}
