/** Failure-carrying results for the generator's operations.

    The generator never reports errors of its own; every failure here is an
    exception raised by the runtime underneath it (an array with a negative
    dimension, a division by zero, a weighted draw over nothing).
 */
module Outcomes {

  /** The exceptions the modelled code can raise. */
  datatype Error =
    | NegativeDimension   // numpy refuses an array with a negative dimension
    | ZeroDivision        // 1 / n_classes with n_classes == 0
    | LabelDrawFailed     // the weighted label draw raised (empty population, zero total weight)

  datatype Option<+T> = None | Some(value: T)

  datatype Result<+T> = Success(value: T) | Failure(error: Error)
}
