/** Failure-carrying results shared by the data set and both classifiers.
    Each Error constructor stands for the Java exception the source throws. */
module Outcomes {

  /** The exceptions the learning code can raise. */
  datatype Error =
    | IndexOutOfBounds   // reading past the end of an example, a label list or the weights
    | FailedToConverge   // the perceptron's epoch budget ran out
    | IllegalArgument    // setWeights with a vector of the wrong length
    | NegativeArraySize  // allocating a weight matrix with a negative hidden-unit count
    | NullPointer        // using the network's weight matrices before they were allocated
    | NumberFormat       // a token that does not parse as a number

  datatype Option<+T> = None | Some(value: T)

  /** A value, or the exception that replaced it. */
  datatype Result<+T> = Success(value: T) | Failure(error: Error)

  /** Normal return of a void method, or the exception it threw. */
  datatype Outcome = Pass | Fail(error: Error)
}
