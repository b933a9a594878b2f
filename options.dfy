/** A value that may be absent (a C# null reference, an exception instead of a value). */
module Options {
  datatype Option<T> = None | Some(value: T)
}
