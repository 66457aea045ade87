/** Small shared vocabulary: optional values, the outcome of a remote call,
    the two search fields and the route preference. */
module Common {

  datatype Option<+T> = None | Some(value: T) {
    function GetOr(default: T): T {
      match this
      case Some(v) => v
      case None => default
    }
  }

  /** A value, or the error a JavaScript `throw` carried. */
  datatype Result<+T, +E> = Success(value: T) | Failure(error: E)

  /** What a remote call (axios request, geolocation, timer-driven promise)
      produced: a value, or a rejection. Network, timeouts and non-2xx
      statuses are all `Fail` unless a caller distinguishes them. */
  datatype Outcome<+T> = Ok(value: T) | Fail

  /** The two location inputs of a search panel. */
  datatype Side = Start | End {
    function Other(): Side {
      if this == Start then End else Start
    }
  }

  /** The route preference forwarded unchanged to the backend. */
  datatype Preference = Fastest | Cheapest | MinimalTransfers {
    function Wire(): string {
      match this
      case Fastest => "fastest"
      case Cheapest => "cheapest"
      case MinimalTransfers => "minimal_transfers"
    }
  }
}
