/** A value-or-error result, used where the game rejects a command instead of acting on it. */
module Wrappers {

  datatype Result<+T, +E> = Success(value: T) | Failure(error: E)
}
