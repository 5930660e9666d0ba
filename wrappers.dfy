/** Optional values and outcomes shared across the model, and how JavaScript renders an absent string. */
module Wrappers {

  /** A value that may be absent (JavaScript `null`/`undefined`). */
  datatype Option<+T> = None | Some(value: T)

  /** The outcome of an operation that can throw: a value or the error message. */
  datatype Result<+R, +E> = Success(value: R) | Failure(error: E)

  /**
   * A possibly absent string as `+` and template literals render it: an
   * absent value becomes the text "undefined".
   */
  function Interpolated(o: Option<string>): string
  {
    match o
    case Some(text) => text
    case None => "undefined"
  }
}
