/** Optional values and raise-or-return outcomes shared by the telemetry store and the
    orchestrator. */
module Wrappers {

  /** A value that may be absent (Python's `None`). */
  datatype Option<+T> = None | Some(value: T)

  /** The outcome of a call that either returns a value or raises an exception whose
      string form is `error`. */
  datatype Result<+R> = Success(value: R) | Failure(error: string)
}
