/** Failure-carrying datatypes shared by the other modules. */
module Wrappers {

  /** A value that may be absent: Python's `None` or a value. */
  datatype Option<+T> = None | Some(value: T)

  /** The outcome of a call to the external language model. `Failed` stands for
      every way the call can go wrong before its text is usable: the request
      raised, or the reply was not the JSON document that was asked for. */
  datatype Call<+T> = Answer(value: T) | Failed
}
