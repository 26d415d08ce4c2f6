/** The optional value used for lookups that may miss and for an optional command-line argument. */
module Wrappers {

  datatype Option<+T> = None | Some(value: T)
}
