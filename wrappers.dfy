/** Optional values (a C# null or a missing environment variable) and
    results that carry either a value or the exception the source throws. */
module Wrappers {

  datatype Option<+T> = None | Some(value: T)

  datatype Result<+R, +E> = Success(value: R) | Failure(error: E)
}
