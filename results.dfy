/** Failure-carrying values shared by the parser and the generator. */
module Results {

  /** A value that JavaScript may leave `undefined`. */
  datatype Option<+T> = None | Some(value: T)

  /** The outcome of a stage that either completes or throws. */
  datatype Result<+T, +E> = Ok(value: T) | Err(error: E)
}
