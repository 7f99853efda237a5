/** An optional value, used for the scope that only some sign-in requests carry. */
module Wrappers {

  datatype Option<+T> = None | Some(value: T)
}
