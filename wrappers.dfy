/** The optional value used for every nullable column and every form field
    that may be absent from a request. */
module Wrappers {

  datatype Option<+T> = None | Some(value: T)
}
