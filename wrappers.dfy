/** The Option datatype used across the model for "a value or nothing". */
module Wrappers {

  datatype Option<+T> = None | Some(value: T)
}
