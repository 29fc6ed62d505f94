/** Python's `None`-or-value results, used wherever the source returns or receives `None`. */
module Options {
  datatype Option<+T> = None | Some(value: T)
}
