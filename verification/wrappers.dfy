/** Optional values and results, used for form inputs that may be absent or
    unparsable and for loads that may raise. */
module Wrappers {

  datatype Option<+T> = None | Some(value: T)

  datatype Result<+R, +E> = Success(value: R) | Failure(error: E)
}
