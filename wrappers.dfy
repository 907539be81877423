/** The optional value used for the program's "present or absent" results. */
module Wrappers {

  datatype Option<+T> = None | Some(value: T)

}
