/** The optional value used where the source returns `None` or raises on a missing match. */
module Wrappers {

  datatype Option<+T> = None | Some(value: T)
}
