/** The optional value used for absent fields and for amounts that do not parse. */
module Wrappers {

  datatype Option<+T> = None | Some(value: T)
}
