/** An optional value: the model's stand-in for a JavaScript field that may be `null`. */
module Options {

  datatype Option<+T> = None | Some(value: T)

}
