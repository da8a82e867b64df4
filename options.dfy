/** The partial result of parsing a number: the C++ program throws where this is `None`. */
module Options {
  datatype Option<+T> = None | Some(value: T)
}
