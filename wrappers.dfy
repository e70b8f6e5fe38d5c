/** The optional value used for "a level filter, or none". */
module Wrappers {

  datatype Option<+T> = None | Some(value: T)
}
