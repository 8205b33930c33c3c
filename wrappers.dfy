/** Optional values and results with an error, for JavaScript's `undefined`/`null`
    and for the exceptions the services throw. */
module Wrappers {

  datatype Option<+T> = None | Some(value: T)

  datatype Result<+T, +E> = Success(value: T) | Failure(error: E)
}
