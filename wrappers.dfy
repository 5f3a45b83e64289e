/** Optional values and results that carry an error, standing in for Swift's
    optionals (`String?`, `target.sourceModule`) and for calls that throw. */
module Wrappers {

  datatype Option<+T> = None | Some(value: T)

  datatype Result<+T, +E> = Ok(value: T) | Err(error: E)
}
