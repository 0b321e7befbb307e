/** The two exception types Transform2D raises, and the result types that carry them. */
module Errors {

  /** common::IndexException and common::ValueException. */
  datatype Error = IndexException | ValueException

  /** A value, or the exception raised instead of producing it. */
  datatype Result<T> = Ok(value: T) | Err(error: Error)

  /** Completion of a void operation: it returned normally, or it raised. */
  datatype Outcome = Pass | Fail(error: Error)
}
