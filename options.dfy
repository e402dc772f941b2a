/** The optional value used for every nil-able result of the formatter. */
module Options {

  datatype Option<+T> = None | Some(value: T)
}
