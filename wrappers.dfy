/** The optional value used wherever the experiment returns `None` or logs `NA`. */
module Wrappers {

  datatype Option<+T> = None | Some(value: T)
}
