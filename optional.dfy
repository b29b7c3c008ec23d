/** An optional value: the model's stand-in for a pointer that may be null. */
module Optional {
  datatype Option<T> = None | Some(value: T)
}
