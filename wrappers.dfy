/** Failure-compatible helper datatypes shared by every component. */
module Wrappers {

  /** A value that may be missing: a JavaScript `null`/`undefined`, or an object key that is absent. */
  datatype Option<+T> = None | Some(value: T) {

    /** The wrapped value, or `default` when there is none (JavaScript's `x || default` on objects). */
    function GetOr(default: T): T {
      match this
      case Some(v) => v
      case None => default
    }
  }

  /** How one call into the hosted backend ends: the promise resolves, or it rejects with an error message. */
  datatype Outcome = Resolved | Rejected(message: string)
}
