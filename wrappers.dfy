/** Optional values and results shared by the minimizer and the clusterer. */
module Wrappers {

  datatype Option<+T> = None | Some(value: T)

  /** The one numeric failure the model keeps: a division by a zero normaliser.
      Over floating point this gives NaN; here it is an explicit error value. */
  datatype NumericError = DivisionByZero

  datatype Result<+T> = Success(value: T) | Failure(error: NumericError)
}
