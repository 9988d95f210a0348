/** Failure-carrying wrappers used throughout the model. A Java `null` becomes `None`,
    a thrown exception becomes `Err`/`Fail`. */
module Results {

  datatype Option<+T> = None | Some(value: T)

  datatype Result<+T, +E> = Ok(value: T) | Err(error: E)

  /** The outcome of a check that returns nothing on success (a `void` method that may throw). */
  datatype Outcome<+E> = Pass | Fail(error: E)
}
