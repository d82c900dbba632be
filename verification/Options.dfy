/** Values that may be absent. JavaScript's null, undefined and the empty string, which
    the modelled code treats alike wherever it tests an identifier, are all None. */
module Options {
  datatype Option<+T> = None | Some(value: T)
}
