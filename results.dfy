/** The exceptions the task-log model raises, and the wrappers that carry them
    back to callers in place of Python's `raise`. */
module Results {

  /** One constructor per exception raised in core/model.py. */
  datatype Error =
    | FileNotFound             // FileNotFoundError from Todo.__init__
    | TaskIndexOutOfRange      // IndexError("Task index out of range")
    | FromIndexOutOfRange      // IndexError("From index out of range")
    | ToIndexOutOfRange        // IndexError("To index out of range")
    | StatusOrTitleRequired    // ValueError("Either status or title is required")
    | InvalidStatus(value: string)  // ValueError raised by Status(value)

  /** A value or the error raised instead of returning it. */
  datatype Result<+T> = Ok(value: T) | Err(error: Error)

  /** The outcome of an operation that returns `None` on success. */
  datatype Outcome = Done | Failed(error: Error)

  datatype Option<+T> = None | Some(value: T)

  /** Python's `0 <= index < len(...)`, negated in every bounds check. */
  predicate InRange(index: int, length: nat)
  {
    0 <= index < length
  }
}
