/** Option and Result: the source's null returns and thrown exceptions as values. */
module Results {

  /** None stands for a C# null. */
  datatype Option<+T> = None | Some(value: T)

  /** Err stands for an exception the operation lets escape to its caller. */
  datatype Result<+T, +E> = Ok(value: T) | Err(error: E)
}
