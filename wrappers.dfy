/** The optional value used wherever the system may get nothing back:
    a directory listing that is null, a file read that fails, a response without a body. */
module Wrappers {
  datatype Option<+T> = None | Some(value: T)
}
