/** An optional value: a null pointer, an absent reply, an empty `std::optional`. */
module Options {
  datatype Option<+T> = None | Some(value: T)
}
