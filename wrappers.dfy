/** The optional value used for request bodies that may be absent and for
    response fields that only some endpoints fill in. */
module Wrappers {

  datatype Option<+T> = None | Some(value: T)
}
