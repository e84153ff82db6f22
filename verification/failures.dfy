/**
 The shapes a computation of the engine can end in. The source has no error
 values: where it would abort the program with a panic, the model returns
 `Panic` with the cause instead, so that every operation stays total.
 */
module Failures {

  datatype Option<+T> = None | Some(value: T)

  /** Why the source would panic. */
  datatype PanicCause =
    | UnwrapOnNone       // `Option::unwrap` of `None`
    | IndexOutOfBounds   // array indexing past the end
    | SubtractOverflow   // `usize` subtraction below zero

  /** A value, or the panic the source would raise instead. */
  datatype Result<+T> = Ok(value: T) | Panic(cause: PanicCause)
}
