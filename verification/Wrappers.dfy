/** The optional value shared by the modules. */
module Wrappers {

  datatype Option<+T> = None | Some(value: T)
}
