/** A small Option type used by the parsing and routing helpers. */
module Optional {
  datatype Option<+T> = None | Some(value: T)
}
