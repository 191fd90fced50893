/** The usual Some/None datatype; a Go map index that misses (a nil pointer) is modelled as None. */
module Wrappers {
  datatype Option<+T> = None | Some(value: T)
}
