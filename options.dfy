/** The optional value used wherever the source returns `undefined` for "nothing found". */
module Options {

  datatype Option<+T> = None | Some(value: T)
}
