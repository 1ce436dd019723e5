/** Failure-carrying values used in place of PHP's null returns and runtime exceptions. */
module Results {

  /** An optional value: `None` stands for PHP's `null` / an absent member. */
  datatype Option<+T> = None | Some(value: T)

  /** The outcome of an operation that throws a runtime exception on bad input. */
  datatype Result<+T, +E> = Ok(value: T) | Err(error: E)
}
