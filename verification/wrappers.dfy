/** The two failure-carrying shapes the router needs: PHP's nullable values
    become `Option`, thrown exceptions become the `Err` side of a `Result`. */
module Wrappers {

  /** A value that may be absent (PHP `null`). */
  datatype Option<+T> = None | Some(value: T)

  /** Either a value or the error PHP would have thrown. */
  datatype Result<+T, +E> = Ok(value: T) | Err(error: E)
}
