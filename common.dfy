/** Failure-carrying values used throughout the model: `Option` for a value that may be
    absent (a dict key that is missing, an environment variable that is unset) and
    `Result` for a call that either returns or raises. */
module Common {

  datatype Option<+T> = None | Some(value: T) {
    /** `d.get(key, default)` */
    function GetOr(default: T): (v: T) {
      match this
      case Some(v) => v
      case None => default
    }
  }

  datatype Result<+T, +E> = Ok(value: T) | Err(error: E)

  /** Python truthiness of an optional string (`os.getenv` yields None or a string). */
  predicate Truthy(s: Option<string>) {
    s.Some? && s.value != ""
  }
}
