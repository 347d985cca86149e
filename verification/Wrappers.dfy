/** The optional value every other module returns where the source returns nil, null or undefined. */
module Wrappers {

  datatype Option<+T> = None | Some(value: T)
}
