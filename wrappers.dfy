/** Absence markers and error results shared by the account model. */
module Wrappers {

  /** `None` is the `null` the data-access layer returns for an invalid
      identifier, an invalid e-mail or a document that is not there. */
  datatype Option<+T> = None | Some(value: T)

  /** A store call either succeeds with a value or raises a store error. */
  datatype Result<+T, +E> = Ok(value: T) | Err(error: E)
}
