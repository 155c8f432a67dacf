/** Failure-carrying datatypes used throughout the model: `Option` for the
    JavaScript `undefined` result, `Result` for code that can throw. */
module Wrappers {

  /** A value that may be missing (`undefined` / `null` in the source). */
  datatype Option<+T> = None | Some(value: T)

  /** The outcome of JavaScript code that either returns a value or throws. */
  datatype Result<+R, +E> = Success(value: R) | Failure(error: E)

  /** The exceptions the modelled code can raise. */
  datatype JsError =
    | TypeError      // property access or indexing on `undefined` / `null`
    | FetchRejected  // `fetch` or `res.json()` rejected (network or parse failure)
}
