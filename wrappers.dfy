/** Option and Result, the two failure-carrying datatypes the model uses for
    Go's `(value, ok)` pairs and `(value, error)` returns. */
module Wrappers {

  datatype Option<+T> = None | Some(value: T)

  /** `Err` carries the text that the Go `error` value would print. */
  datatype Result<+R> = Ok(value: R) | Err(error: string)
}
