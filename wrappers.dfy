/** Failure-compatible result types shared by every module of the model. */
module Wrappers {

  datatype Option<+T> = None | Some(value: T)

  /** The `Result<T, E>` of the Rust code: a value or an error. */
  datatype Result<+T, +E> = Ok(value: T) | Err(error: E)

  /** Rust's `Ordering`, the result of `Ord::cmp`. */
  datatype Ordering = Less | Equal | Greater
}
