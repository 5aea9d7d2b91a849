/**
 * The failures of the generator.  The source raises every one of them as the
 * same runtime exception type with a different message; here each message is
 * a constructor, and operations that can throw return a `Result`.
 */
module Errors {

  datatype Error =
    | ConfigurationError   // bad base time, or no machine id could be obtained
    | TimeLimitExceeded    // elapsed time no longer fits the 41-bit timestamp field
    | SequenceExhausted    // the retry also found the millisecond's 64 sequences used up
    | Interrupted          // the retry's sleep was interrupted

  datatype Result<T> = Ok(value: T) | Err(error: Error)

  /** The outcome of a step that yields no value. */
  datatype Outcome = Pass | Fail(error: Error)
}
