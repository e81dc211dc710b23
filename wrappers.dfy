/** The optional value used wherever the scanned inventory may leave a
    field undefined. */
module Wrappers {

  datatype Option<+T> = None | Some(value: T)
}
