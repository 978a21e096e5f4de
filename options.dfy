/** The optional value returned when a pool record may disappear. */
module Options {
  datatype Option<+T> = None | Some(value: T)
}
