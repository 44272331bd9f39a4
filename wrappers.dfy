/** Optional values and success/failure results, used for the source's
    `undefined` values, its thrown errors and its rejected promises. */
module Wrappers {

  datatype Option<+T> = None | Some(value: T)

  datatype Result<+R, +E> = Success(value: R) | Failure(error: E)
}
