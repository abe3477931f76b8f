/** Optional values and results, as the adapter's callbacks deliver them. */
module Outcomes {

  /** A value that may be missing: an absent key of an options object, or an absent result. */
  datatype Option<+T> = None | Some(value: T) {
    /** The value, or `default` when there is none. */
    function GetOr(default: T): T {
      match this
      case Some(v) => v
      case None => default
    }
  }

  /** What a completion callback receives: `callback(null, value)` or `callback(err)`. */
  datatype Result<+T, +E> = Ok(value: T) | Err(error: E)

  /** An error object reported by a collaborator (the filename generator or the object store).
      The adapter never inspects or wraps it; it only passes it on. */
  datatype Fault = Fault(message: string)
}
