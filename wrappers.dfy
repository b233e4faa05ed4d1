/** Optional values and error-carrying results, as Rust's `Option` and `Result<_, String>`. */
module Wrappers {

  datatype Option<+T> = None | Some(value: T)

  /** The emulator reports every failure as a message string. */
  datatype Result<+T> = Ok(value: T) | Err(message: string)
}
