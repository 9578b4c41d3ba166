/** An optional value: `None` stands for a JavaScript value that is absent (`undefined`) or falsy where the code tests it. */
module Options {
  datatype Option<T> = None | Some(value: T)
}
