/** Result type for the operations that raise in Keep's Python code (an
    unsupported dialect, a missing or unsuitable first field mapping). */
module Wrappers {

  datatype Result<+T, +E> = Success(value: T) | Failure(error: E)
}
