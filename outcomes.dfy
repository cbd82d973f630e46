/** The outcome of an operation that can fail, standing for a .NET exception. */
module Outcomes {

  datatype Result<T> = Success(value: T) | Failure(error: string)
}
