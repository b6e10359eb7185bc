/** The exceptions the modelled code raises or lets escape, and the result
    shapes used throughout: a value or nothing (`Option`), a value or an
    exception (`Result`), and success or an exception (`Outcome`). */
module Errors {

  /** Python exception kinds, each with the part of its message the model keeps. */
  datatype Error =
    | ValueError(message: string)        // raised by the facade's guards
    | AttributeError(name: string)       // an attribute lookup that fails
    | KeyError(key: string)              // `d[key]` on a dict without that key
    | TypeError                          // an operation applied to a value of the wrong kind
    | ConfigError(message: string)       // main.ConfigError
    | FileNotFoundError(message: string)
    | WebDriverError                     // the browser connection failed (WebDriverException)

  datatype Option<+T> = None | Some(value: T)

  datatype Result<+T> = Ok(value: T) | Err(error: Error)

  datatype Outcome = Pass | Fail(error: Error)
}
