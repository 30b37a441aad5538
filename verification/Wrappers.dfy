// Option: an address that may be NULL, or a port call that may refuse.
module Wrappers {
  datatype Option<+T> = None | Some(value: T)
}
