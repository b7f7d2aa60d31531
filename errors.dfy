/** Error identities of the library (src/error.rs) and the failure-compatible Result
    that every fallible operation of the core returns. */
module Errors {

  /** The variants the modelled core produces. The payload of XmlParseError (the
      lexer's own error value) is not modelled; IoError, InvalidVersion, UrlError and
      UnsupportedFeature are only raised outside the core. */
  datatype VastError =
    | XmlParseError
    | MissingField(field: string)
    | Other(message: string)

  /** Result<T> of src/error.rs; usable with `:-` like Rust's `?`. */
  datatype Result<+T> = Ok(value: T) | Err(error: VastError) {

    predicate IsFailure() {
      Err?
    }

    function PropagateFailure<U>(): Result<U>
      requires Err?
    {
      Err(error)
    }

    function Extract(): T
      requires Ok?
    {
      value
    }
  }
}
