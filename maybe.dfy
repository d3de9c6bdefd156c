/** An optional value: `null`/`undefined` in the page script becomes `None`. */
module Maybe {
  datatype Option<+T> = None | Some(value: T)
}
