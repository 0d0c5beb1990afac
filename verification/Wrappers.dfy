/** The usual optional value, used for the nullable pointers and nullable columns of the program. */
module Wrappers {
  datatype Option<+T> = None | Some(value: T)
}
