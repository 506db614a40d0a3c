/**
 * The two shapes the client's values come in: a JSON field or option that
 * may be absent, and a promise that has settled one way or the other.
 */
module Promise {

  /** An optional value: a JSON field that may be absent, an option left unset. */
  datatype Option<+T> = None | Some(value: T) {

    /** The value, or `default` when absent (JavaScript's `??`). */
    function GetOr(default: T): T {
      match this
      case Some(v) => v
      case None => default
    }
  }

  /** A settled promise: it either resolved with a value or rejected with an error. */
  datatype Settled<+R, +E> = Resolved(value: R) | Rejected(error: E)
}
