/** Rust's `Option` and `Result`, as the records and the filters use them. */
module Wrappers {

  /** A possibly absent value: every field of the dataset records is one of these. */
  datatype Option<+T> = None | Some(value: T)

  /** The outcome of a computation that may stop early with an error. */
  datatype Result<+T, +E> = Ok(value: T) | Err(error: E)
}
