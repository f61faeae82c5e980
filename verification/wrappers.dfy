/** The outcome of a constructor: a value, or the configuration error the
    original code reports before returning its null sentinel. */
module Wrappers {

  datatype Result<+T, +E> = Success(value: T) | Failure(error: E)
}
