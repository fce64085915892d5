/** The optional value used wherever the program has a Rust `Option`. */
module Wrappers {

  datatype Option<+T> = None | Some(value: T)
}
