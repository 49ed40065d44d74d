/** Optional values and the two Java exceptions the core can raise. */
module Wrappers {

  /** A Java reference that may be null. */
  datatype Option<+T> = None | Some(value: T)

  /** The unchecked exceptions raised by the modelled code. */
  datatype JavaException =
    | IllegalArgumentException(message: string)
    | NullPointerException

  /** A call that either returns a value or throws. */
  datatype Result<+T> = Success(value: T) | Failure(error: JavaException)

  /** A `void` call that either returns normally or throws. */
  datatype Outcome = Pass | Fail(error: JavaException)
}
