/** The absent-or-present wrapper used throughout the model. */
module Wrappers {

  /** `None` stands for JavaScript's `undefined` (and for "no value" in general). */
  datatype Option<+T> = None | Some(value: T)
}
