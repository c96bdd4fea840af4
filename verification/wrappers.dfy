/** Optional values and results with an error, used for the exceptions the
    service code raises and the `None` values it returns. */
module Wrappers {

  datatype Option<+T> = None | Some(value: T)

  datatype Result<+R, +E> = Success(value: R) | Failure(error: E)
}
