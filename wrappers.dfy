/** Failure-carrying values shared by every module of the resolver. */
module Wrappers {

  /** Python's `None` beside a value. */
  datatype Option<+T> = None | Some(value: T)

  /** The Python exceptions that escape the resolver, by class. */
  datatype PyError =
    | ValueError       // date(), date.replace(), calendar.monthrange() or relativedelta given an out-of-range component
    | TypeError        // date.replace() given None for the year or the month
    | OverflowError    // date + timedelta leaving the years 1..9999
    | UnexpectedInput  // the date grammar rejects the text

  /** A value, or the exception raised instead of returning it. */
  datatype Result<+T> = Ok(value: T) | Err(error: PyError)
}
