/** Option and Result, the two failure-carrying shapes the engine's Rust API returns. */
module Wrappers {

  datatype Option<+T> = None | Some(value: T)

  datatype Result<+T, +E> = Ok(value: T) | Err(error: E)

  /** The unit value `()` returned by `Ok(())`. */
  datatype Unit = Unit
}
