/** The optional value used wherever the builder passes `None` around. */
module Wrappers {

  datatype Option<+T> = None | Some(value: T)

}
