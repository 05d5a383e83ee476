/** An optional value: what a network request or a parser yields when it may fail. */
module Options {

  datatype Option<+T> = None | Some(value: T)

}
