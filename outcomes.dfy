/**
 * Values shared by every part of the adapter: optional values, the outcome of
 * an operation that may throw, the kinds of error the adapter throws, and the
 * JavaScript notion of a "truthy" value for the few value kinds the core tests.
 */
module Outcomes {

  /** An optional value. `None` stands for a field that is absent (`undefined`). */
  datatype Option<+T> = None | Some(value: T)

  /** The errors the adapter raises or lets through. */
  datatype Failure =
    | Error(message: string)               // a plain `Error` (the envelope and poller guards)
    | TypeError(message: string)           // a runtime type error raised implicitly by the engine
    | Halted(message: string)              // the platform's `HaltedError`
    | Throttled(message: string, retryAfter: int)    // the platform's `ThrottledError`
    | Rejected(message: string, code: string, status: Option<int>)  // the platform's generic `Error`
    | NonError                             // a thrown value that is not an `Error` instance

  /** The result of an operation that either returns a value or throws. */
  datatype Result<+T> = Ok(value: T) | Err(error: Failure)

  /** The messages the adapter throws with. */
  const UnknownError := "Unknown error"
  const CheckFields := "Check that all Zap fields are entered correctly"

  /** A string is truthy when it is present and not empty. */
  predicate TruthyText(s: Option<string>) {
    s.Some? && s.value != ""
  }

  /** A number is truthy when it is present and not zero. */
  predicate TruthyNumber(n: Option<int>) {
    n.Some? && n.value != 0
  }
}
