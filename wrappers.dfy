/** Optional values and success-or-error results, used for the parts of a
    Swagger document that may be absent and for conversions that abort. */
module Wrappers {

  datatype Option<+T> = None | Some(value: T)

  datatype Result<+T, +E> = Ok(value: T) | Err(error: E)
}
