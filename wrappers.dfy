/** The optional-value datatype shared by the modules of this model. */
module Wrappers {

  /** `None` stands for JavaScript's `undefined`/`null` where the source tests for it. */
  datatype Option<+T> = None | Some(value: T)
}
