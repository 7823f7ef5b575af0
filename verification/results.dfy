/** Failure-carrying values shared by every module of the model. */
module Results {

  /** An optional value, as Go's `(value, ok)` lookups and Rust's `Option` return. */
  datatype Option<+T> = None | Some(value: T)

  /** A success value or an error, as Rust's `Result` and Go's `(value, error)` pairs. */
  datatype Result<+T, +E> = Ok(value: T) | Err(error: E)
}
