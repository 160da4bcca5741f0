/** Small result types, and the unit of durations, shared by every module. */
module Outcomes {

  /** Durations are in nanoseconds. */
  const SECOND: int := 1_000_000_000

  datatype Option<+T> = None | Some(value: T)

  /** The error classes callers of the store tell apart. */
  datatype Error = NotFound | AlreadyTerminal | OtherError

  datatype Result<+T> = Ok(value: T) | Err(error: Error)

}
