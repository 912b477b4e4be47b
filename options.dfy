/** Optional values and success-or-error results, used by every module. */
module Options {

  datatype Option<+T> = None | Some(value: T)

  datatype Result<+T, +E> = Ok(value: T) | Err(error: E)

  /** A value thrown in JavaScript: an `Error` object with its message, or anything else. */
  datatype Thrown = ErrorObject(message: string) | OtherValue {

    /** The text `error instanceof Error ? error.message : 'Unknown error'` produces. */
    function MessageOrUnknown(): string {
      match this
      case ErrorObject(m) => m
      case OtherValue => "Unknown error"
    }
  }
}
