/** The optional value that stands for a nullable pointer in the game's objects. */
module Wrappers {
  datatype Option<+T> = None | Some(value: T)
}
