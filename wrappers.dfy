/** Failure-carrying result types used for the exceptions and fatal errors of the exporter. */
module Wrappers {

  datatype Option<+T> = None | Some(value: T)

  /** A computation that either yields a value or aborts with a message
      (a raised exception or a call of the fatal-error helper). */
  datatype Result<+T> = Ok(value: T) | Err(msg: string)

  /** A step that only succeeds or aborts. */
  datatype Outcome = Pass | Fail(msg: string)
}
