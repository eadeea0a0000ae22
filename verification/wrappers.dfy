/** Optional values and results shared by the rest of the model. */
module Wrappers {

  /** A value that may be missing: Python's `None`, an absent key or an
      attribute that `hasattr` reports missing. */
  datatype Option<+T> = None | Some(value: T) {

    /** The value, or `default` when missing (`x or default`, `d.get(k, default)`). */
    function GetOr(default: T): T {
      match this
      case Some(v) => v
      case None => default
    }
  }

  /** A computation that either returns a value or raises an exception. */
  datatype Result<+T> = Ok(value: T) | Raised(error: string)
}
