/** Option and error-carrying result types shared by every module of the model. */
module Wrappers {

  /** A value that may be absent: JavaScript's `undefined`, `null` or `NaN`. */
  datatype Option<+T> = None | Some(value: T) {
    function GetOr(default: T): T {
      match this
      case Some(v) => v
      case None => default
    }
  }

  /** The exceptions the modelled code can raise. */
  datatype Error =
    | TypeError       // a property read on `undefined`, or a call of a missing method
    | ReferenceError  // a read of an undeclared identifier
    | StorageError    // the spreadsheet service rejected a read or an append

  /** The outcome of an `async` function that may throw. */
  datatype Result<+T> = Ok(value: T) | Err(error: Error)

  /** The outcome of an `async` function that returns nothing and may throw. */
  datatype Outcome = Pass | Fail(error: Error)
}
