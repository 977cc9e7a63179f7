/** The optional value used for every request field the handlers may or may not receive. */
module Wrappers {

  datatype Option<+T> = None | Some(value: T)
}
