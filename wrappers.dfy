/** The optional value used for every reading that may be unknown. */
module Wrappers {

  /** `None` stands for the JavaScript `null`, `undefined` or `NaN` of a missing reading. */
  datatype Option<+T> = None | Some(value: T)
}
