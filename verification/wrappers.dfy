/** The optional-value datatype shared by the whole model; it stands for
    JavaScript's `null` / "no value". */
module Wrappers {

  datatype Option<+T> = None | Some(value: T)
}
