/** The optional value used for absent tokens, claims and settings. */
module Wrappers {

  datatype Option<+T> = None | Some(value: T)
}
