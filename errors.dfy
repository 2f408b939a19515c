/** The two Python exceptions the sampling engine can raise, and a Result type for the
    operations that raise them. */
module Errors {

  /** `ZeroDivisionError` comes from dividing by a zero elapsed time or an empty count;
      `IndexError` from indexing past the end of a list. */
  datatype PyError = ZeroDivisionError | IndexError

  datatype Result<+T> = Ok(value: T) | Err(error: PyError)
}
