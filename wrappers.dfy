/** Nullable references and thrown exceptions, as values. */
module Wrappers {

  /** A Java reference that may be null: `None` stands for null. */
  datatype Option<+T> = None | Some(value: T)

  /** The only exception the modelled code throws. */
  datatype Exception = NullPointerException

  /** Either a normal return or the exception the call throws. */
  datatype Result<+T> = Ok(value: T) | Failure(error: Exception)
}
