/** Failure-carrying return values shared by the modules of the model. */
module Results {

  /** A value that may be absent (Rust's `Option`). */
  datatype Option<T> = None | Some(value: T)

  /** The outcome of an operation that can fail (Rust's `Result`). */
  datatype Result<T, E> = Ok(value: T) | Err(error: E)
}
