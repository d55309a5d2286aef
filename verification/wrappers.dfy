/** Failure-carrying values used across the model: an optional value (the
    source's `null`/`undefined`) and a result that is either a value or an
    error message (the source's thrown `Error`). */
module Wrappers {

  datatype Option<+T> = None | Some(value: T)

  datatype Result<+T> = Ok(value: T) | Err(message: string)
}
