/** Option and Result values used where the source returns a value or nothing,
    or raises an HTTP error instead of returning. */
module Wrappers {

  datatype Option<+T> = None | Some(value: T)

  datatype Result<+R, +E> = Ok(value: R) | Err(error: E)
}
