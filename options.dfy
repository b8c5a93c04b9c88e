/** The optional value used for a lookup that can miss and for a parse or an
    index that can fail. */
module Options {

  datatype Option<+T> = None | Some(value: T)
}
