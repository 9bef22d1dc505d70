/** Failure-carrying datatypes shared by every module of the model.
    Go's `(value, error)` pairs become `Result`, nil pointers become `Option`. */
module Wrappers {

  /** A value that may be absent (a nil pointer in the source). */
  datatype Option<+T> = None | Some(value: T)

  /** A value or an error message (Go's `error`, kept as its text because
      the retry policy of the resolver inspects that text). */
  datatype Result<+T> = Ok(value: T) | Err(error: string)
}
