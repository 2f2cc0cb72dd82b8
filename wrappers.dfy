/** Option and Result: absent values (JavaScript null/undefined) and failing calls. */
module Wrappers {

  datatype Option<+T> = None | Some(value: T)

  datatype Result<+T, +E> = Ok(value: T) | Err(error: E)
}
