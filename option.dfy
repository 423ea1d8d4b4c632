/** An optional value, for results the scripts leave undefined or unbounded. */
module Optional {
  datatype Option<T> = None | Some(value: T)
}
