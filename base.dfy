/** Option, the model of a JavaScript value that may be `null` or `undefined`. */
module Base {

  datatype Option<+T> = None | Some(value: T)

}
