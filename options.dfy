/** A value that may be absent: a sensor reading that has not arrived, a
    gesture that was not recognised. */
module Options {
  datatype Option<T> = None | Some(value: T)
}
