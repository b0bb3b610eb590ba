/** A Go `nil`-able result (a pointer or an `error`) is modelled as an Option. */
module Wrappers {
  datatype Option<+T> = None | Some(value: T)
}
