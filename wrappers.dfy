/** The nullable references of the UI manager are modelled as options. */
module Wrappers {

  /** `None` stands for a null reference, `Some(v)` for a live one. */
  datatype Option<+T> = None | Some(value: T)
}
