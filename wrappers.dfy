/** Rust's Option and Result, as the model uses them throughout. */
module Wrappers {

  datatype Option<+T> = None | Some(value: T)

  datatype Result<+T, +E> = Ok(value: T) | Err(error: E)

  /** A fixed-width signed 32-bit integer (Rust's i32). */
  newtype i32 = x: int | -0x8000_0000 <= x < 0x8000_0000
}
