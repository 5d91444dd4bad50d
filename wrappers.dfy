/** The optional value used where the storage kernel returns `None`. */
module Wrappers {

  datatype Option<+T> = None | Some(value: T)
}
