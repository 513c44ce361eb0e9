/** Optional values (a Java reference that may be null) and the outcome of a
    computation that may throw a Java exception. */
module Wrappers {

  /** A possibly-null value: None models Java's null. */
  datatype Option<+T> = None | Some(value: T) {

    /** The value, or `default` when there is none. */
    function GetOr(default: T): T {
      match this
      case Some(v) => v
      case None => default
    }
  }

  /** The outcome of a Java call that may throw: either it returns a value,
      or an exception escapes it. */
  datatype Outcome<+T> = Done(value: T) | Thrown
}
