/** Python's `None`-or-value, as used for optional arguments and `dict.get`. */
module Options {

  datatype Option<+T> = None | Some(value: T)
}
