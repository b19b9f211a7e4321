/** The optional value that a lookup in the level table yields. */
module Wrappers {

  datatype Option<+T> = None | Some(value: T)
}
