/** A missing cell (pandas NaN / NaT) is `None`; a present one is `Some`. */
module Wrappers {
  datatype Option<+T> = None | Some(value: T)
}
