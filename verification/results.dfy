/** Failure-carrying values used where the modelled code either returns
    nothing (`None`, a missing dictionary key) or raises an exception. */
module Results {

  /** A value that may be absent: a missing JSON key, a `None` return, or a
      backend call that raised. */
  datatype Option<+T> = None | Some(value: T) {

    /** The value, or `default` when absent (Python's `dict.get(key, default)`). */
    function GetOr(default: T): T {
      match this
      case Some(v) => v
      case None => default
    }
  }

  /** The outcome of a backend call that may raise; `Err` carries the text
      of the exception. */
  datatype Result<+T> = Ok(value: T) | Err(message: string)
}
