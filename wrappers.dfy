/** The optional value used where the program has None. */
module Wrappers {

  datatype Option<+T> = None | Some(value: T)
}
