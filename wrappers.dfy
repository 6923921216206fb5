/** Option, Result and the error values Go code returns as `error`. */
module Wrappers {

  /** An optional value: a Go pointer that may be nil, an error that may be nil. */
  datatype Option<+T> = None | Some(value: T)

  /** A value or an error, for a Go function returning `(T, error)`. */
  datatype Result<+T> = Ok(value: T) | Err(error: Error)

  /** The errors the modelled code can produce or pass on. */
  datatype Error =
    | Canceled                               // context.Canceled, returned by ctx.Err() once a lifetime ends
    | Message(text: string)                  // errors.New(text)
    | Wrapped(text: string, cause: Error)    // fmt.Errorf(text + ": %w", cause)
    | Foreign(code: nat)                     // an error produced by code this model does not contain
}
