/** Failure-compatible wrappers: `Option` for Rust's `Option<T>` fields and
    `Result` for `anyhow::Result<T>`, whose error is a formatted message. */
module Wrappers {

  datatype Option<+T> = None | Some(value: T)

  datatype Result<+T> = Ok(value: T) | Err(message: string)
}
