/** Small value wrappers shared by the other modules. */
module Common {

  /** An optional value: Python's `None` or a present value. */
  datatype Option<T> = None | Some(value: T)
}
