/** Error-as-value results returned by the command and by every collaborator.
    An error is identified by its message, the way the command's callers match it. */
module Outcomes {

  datatype Error = Error(message: string)

  /** A collaborator answer that carries a value on success. */
  datatype Result<+T> = Ok(value: T) | Err(error: Error)

  /** An answer with no value: `Pass` is Go's nil error. */
  datatype Outcome = Pass | Fail(error: Error)
}
