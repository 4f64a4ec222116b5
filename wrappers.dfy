/** The optional-value datatype used for absent storage entries and failed parses. */
module Wrappers {

  datatype Option<+T> = None | Some(value: T)
}
