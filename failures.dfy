/**
 * The errors that travel up the layers, and the faults of the storage backend.
 *
 * Go code returns `(value, error)` pairs; a `Fallible<T>` is such a pair.
 * Whether a storage query fails is not decided by this code, so every query
 * takes a `Fault` parameter: `None` means the query succeeds, `Some(msg)` that
 * the driver reports an error with that text.
 */
module Failures {
  import opened Wrappers

  datatype Error =
    | RecordNotFound              // gorm.ErrRecordNotFound
    | EmailTaken(email: string)   // the duplicate check of the user use case
    | Failure(message: string)    // any other driver, hashing or token error

  /** The text `err.Error()` produces; the handlers copy it into 500 responses. */
  function Message(e: Error): string
  {
    match e
    case RecordNotFound => "record not found"
    case EmailTaken(email) => "user with email: " + email + " already exists"
    case Failure(message) => message
  }

  type Fault = Option<string>

  /** The error a failing query returns. */
  function FaultError(f: Fault): Option<Error>
  {
    match f
    case None => None
    case Some(message) => Some(Failure(message))
  }

  /** A Go result pair `(value, err)`. */
  datatype Fallible<T> = Fallible(value: T, err: Option<Error>)
}
