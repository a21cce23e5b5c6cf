/** Python-level vocabulary shared by every generation of the recorder:
    optional values and the exceptions the library raises or lets escape. */
module PyBase {

  datatype Option<T> = None | Some(value: T)

  /** The exception classes that the modelled code raises or lets escape. */
  datatype PyError =
    | IndexError                  // `xs[i]` past the end, `[...][0]` on an empty list
    | AttributeError              // an attribute the object does not have
    | StopIteration               // `next(gen)` on an exhausted generator
    | TypeError                   // a call with a keyword argument the function does not take
    | ValueError(message: string) // raised explicitly by the library
    | AssertionError(message: string)

  /** The result of a Python call: a value, or the exception it raised. */
  datatype Outcome<T> = Ok(value: T) | Raised(error: PyError)
}
