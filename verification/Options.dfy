/** The optional value used wherever the source returns NULL, 0 or -1 for "nothing". */
module Options {
  datatype Option<+T> = None | Some(value: T)
}
