/** The two failure-carrying types the model uses. */
module Base {

  datatype Option<+T> = None | Some(value: T)

  /** A parse either yields a value or names the wire field that was missing or
      of the wrong type. */
  datatype Result<+T> = Ok(value: T) | Malformed(field: string)
}
