/** The optional-value datatype used across the model: `None` stands for
    JavaScript's `null`/`undefined` where the component stores "nothing". */
module Wrappers {

  datatype Option<+T> = None | Some(value: T)
}
