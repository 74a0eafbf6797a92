/** The nullable values of the JavaScript source (`null` versus a value). */
module Options {

  datatype Option<+T> = None | Some(value: T)
}
