/** The optional value used wherever the source reads a key that may be absent
    (Python's `dict.get` returning `None`). */
module Wrappers {

  datatype Option<+T> = None | Some(value: T)

}
