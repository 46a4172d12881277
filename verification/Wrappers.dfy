/** The optional value used where the source has NULL, nil or "no row". */
module Wrappers {
  datatype Option<+T> = None | Some(value: T)
}
