/** The optional value used for absent query parameters and for parses that fail. */
module Wrappers {
  datatype Option<+T> = None | Some(value: T)
}
