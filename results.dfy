/** Outcomes shared by the neuron, its builder and the layer. */
module Results {

  /** The source signals every validation failure with IllegalArgumentException;
      the layer's bulk weight assignment tells "too many" from "too few" vectors,
      and the list operations signal a bad position with IndexOutOfBoundsException. */
  datatype Error =
    | IllegalArgument
    | TooManyWeightVectors
    | InsufficientWeightVectors
    | IndexOutOfBounds

  /** A value, or the exception that replaced it. */
  datatype Result<T> = Success(value: T) | Failure(error: Error)

  /** Completion of an operation that returns nothing, or the exception it raised. */
  datatype Outcome = Pass | Fail(error: Error)

  /** A Java reference that may be null (None). */
  datatype Option<T> = None | Some(value: T)
}
