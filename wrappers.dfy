/** The optional-value datatype used by the parsers of generated text. */
module Wrappers {

  datatype Option<+T> = None | Some(value: T)
}
