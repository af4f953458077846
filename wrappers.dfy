/**
 * Failure-carrying values used throughout the model.
 *
 * Go functions in the contact-form handler report failure through an `error`
 * result that is either nil or carries a message (`err.Error()`). `Outcome`
 * is that shape: `Pass` is a nil error, `Fail(error)` an error whose text is
 * `error`. `Result<T>` is a value or such an error.
 */
module Wrappers {

  datatype Option<+T> = None | Some(value: T)

  datatype Result<+T> = Ok(value: T) | Err(error: string)

  datatype Outcome = Pass | Fail(error: string)

  /** The text of an error wrapped with `fmt.Errorf("<context>: %w", err)`. */
  function Wrap(context: string, inner: string): string
  {
    context + ": " + inner
  }
}
