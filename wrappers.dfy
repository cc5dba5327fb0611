/** Small helper datatypes shared by the settings modules. */
module Wrappers {

  datatype Option<+T> = None | Some(value: T)
}
