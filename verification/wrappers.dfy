/** The optional value shared by the rules engine and the clock reader. */
module Wrappers {

  datatype Option<+T> = None | Some(value: T)
}
