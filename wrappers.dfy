/** The optional value used wherever the picker or the search can come back empty-handed. */
module Wrappers {
  datatype Option<+T> = None | Some(value: T)
}
