/**
 * Option, Result and Outcome, and the exceptions the library throws or returns, as one datatype. The API
 * exception classes (VkException and its subclasses) carry a message and the
 * numeric error code; the argument checks carry the name of the parameter the
 * check is about.
 */
module Errors {

  /** A value that may be absent; `None` stands for a C# `null` reference. */
  datatype Option<+T> = None | Some(value: T)

  datatype VkError =
    // Argument checks (ArgumentNullException, ArgumentException,
    // ArgumentOutOfRangeException, FormatException, KeyNotFoundException,
    // OverflowException). An ArgumentException or FormatException thrown
    // without a parameter name carries the empty name.
    | ArgumentNull(paramName: string)
    | Argument(paramName: string)
    | ArgumentOutOfRange(paramName: string)
    | Format(paramName: string)
    | KeyNotFound
    | Overflow
      // `Single()` over a sequence that does not hold exactly one element.
    | InvalidOperation
      // A `Contract.Assume` whose condition is false, with run-time contract checking on.
    | ContractAssumption
      // VkException and its subclasses.
    | AuthorizationFailed(message: string, code: int)
    | CaptchaNeeded(message: string, sid: int, image: string)
    | InvalidParameter(message: string, code: int)
    | TooManyRequests(message: string, code: int)
    | AccessDenied(message: string, code: int)
    | VkException(message: string, code: int)

  /** What an operation returns, or the exception it throws. */
  datatype Result<+T> = Ok(value: T) | Err(error: VkError)

  /** How an operation without a result ends: it completes or it throws. */
  datatype Outcome = Pass | Fail(error: VkError)
}
