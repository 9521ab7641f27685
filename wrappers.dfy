/** The optional-value datatype used by the message readers. */
module Wrappers {

  datatype Option<+T> = None | Some(value: T)
}
