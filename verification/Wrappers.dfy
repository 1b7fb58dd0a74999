// The optional value used for nullable columns, nil identifiers and failed compare-and-set updates.
module Wrappers {
  datatype Option<+T> = None | Some(value: T)
}
