/** Small result types shared by the other modules. */
module Wrappers {

  /** A value that may be absent; stands for Python's `None`. */
  datatype Option<+T> = None | Some(value: T)

  /** What a call into code outside the model does: it returns a value, or it
      raises an exception whose `str()` is `message`. */
  datatype Reply<+T> = Ok(value: T) | Raised(message: string)
}
