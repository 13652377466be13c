/** The optional value used across the model for the source's `null`,
    `undefined` and optional fields. */
module Options {
  datatype Option<T> = None | Some(value: T)
}
