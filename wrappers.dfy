/** Small failure-carrying datatypes shared by every module of the model. */
module Wrappers {

  /** A value that may be absent: JavaScript's `null` return of a helper. */
  datatype Option<+T> = None | Some(value: T)

  /** The completion of a JavaScript expression: it either yields a value or
      throws (a TypeError from reading a property of `null`, calling
      something that is not a function, and so on). */
  datatype Completion<+T> = Normal(value: T) | Throw
}
