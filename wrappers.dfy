/** The optional value used for map lookups and partial decoders. */
module Wrappers {
  datatype Option<+T> = None | Some(value: T)
}
