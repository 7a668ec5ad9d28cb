/** Option and Result, used for JavaScript's optional properties / `null`
    and for the thrown-or-returned outcome of an asynchronous call. */
module Wrappers {

  datatype Option<+T> = None | Some(value: T)

  datatype Result<+T, +E> = Ok(value: T) | Err(error: E)
}
