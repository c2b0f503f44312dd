/** Rust's `Option` and `Result`, as the ledger's operations use them. */
module Wrappers {

  /** `Option<T>`: what the standard library's checked arithmetic returns. */
  datatype Option<T> = None | Some(value: T)

  /** `Result<T, E>`: every fallible ledger operation returns one instead of panicking. */
  datatype Result<T, E> = Ok(value: T) | Err(error: E)
}
