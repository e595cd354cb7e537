/** Optional values, the exceptions the modelled code raises, and results
    that carry either a value or one of those exceptions. */
module Results {

  /** A value that may be absent; used for the source's nullable references. */
  datatype Option<+T> = None | Some(value: T) {

    /** This value if present, otherwise `other`. */
    function OrElse(other: Option<T>): Option<T> {
      if Some? then this else other
    }

    /** The carried value, or `default` when absent (the source's `x ?? default`). */
    function GetOr(default: T): T {
      if Some? then value else default
    }
  }

  /** The exceptions that escape the modelled operations. */
  datatype Error =
    | ArgumentNull(paramName: string)   // ArgumentNullException naming the parameter
    | NullReference                     // a null data object was inspected
    | LoggerFailed                      // the logger threw while recording a choice
    | QueryFailed(reason: string)       // the feature (and so the resolver) threw

  /** Either a value or the exception that replaced it. */
  datatype Result<+T> = Success(value: T) | Failure(error: Error)
}
