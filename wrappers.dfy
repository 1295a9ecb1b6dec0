/** A present-or-absent value, used for fallible lookups and parses. */
module Wrappers {
  datatype Option<+T> = None | Some(value: T)
}
