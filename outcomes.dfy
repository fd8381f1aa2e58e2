/** Python exceptions raised by the scoring core, and results that may carry one. */
module Outcomes {

  /** The exception classes the core raises. Their messages are not modelled. */
  datatype Error = KeyError | ValueError | IndexError

  /** The value a Python function returns, or the exception it raises. */
  datatype Result<+T> = Ok(value: T) | Err(error: Error)

  /** An optional value; `None` is Python's `None`. */
  datatype Option<+T> = None | Some(value: T)
}
