/** The optional value used for the source's (value, error) returns whose error carries nothing the model needs. */
module Options {

  datatype Option<+T> = None | Some(value: T)
}
