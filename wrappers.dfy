/** Small failure-carrying datatypes shared by the other modules.
    `Option` stands for Java's `Optional` and for references that may be null;
    `Outcome` and `Result` stand for a call that may end in one of the
    exceptions the source throws. */
module Wrappers {

  datatype Option<+T> = None | Some(value: T)

  /** The unchecked exceptions the modelled code throws on bad arguments. */
  datatype Exception =
    | IllegalArgument  // Guava's Preconditions.checkArgument
    | NullPointer      // Objects.requireNonNull

  /** A call that returns nothing of interest (the builders return `this`). */
  datatype Outcome = Pass | Fail(error: Exception)

  /** A call that returns a value or throws. */
  datatype Result<+R> = Success(value: R) | Failure(error: Exception)
}
