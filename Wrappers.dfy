/** The optional value used across the model for the host's nullable
    pointers and for lookups that can miss. */
module Wrappers {

  datatype Option<+T> = None | Some(value: T)
}
