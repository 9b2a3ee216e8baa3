/** The value a Python function returns when it may fall off its end:
    `None` when no `return` statement was reached. */
module Options {

  datatype Option<+T> = None | Some(value: T)
}
