/** Option and Result carriers used for the writer's error returns. */
module Results {

  /** An optional value; `None` stands for Go's nil error. */
  datatype Option<+T> = None | Some(value: T)

  /** The outcome of a computation that either produces a value or fails with an error. */
  datatype Result<+T, +E> = Ok(value: T) | Err(error: E)
}
