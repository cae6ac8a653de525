/** The optional value used for JavaScript `null`/`undefined` and Python `None` results. */
module Wrappers {
  datatype Option<+T> = None | Some(value: T)
}
