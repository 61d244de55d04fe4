/** Outcomes of the asynchronous collaborators the upload endpoint awaits. */
module Outcomes {

  datatype Option<T> = None | Some(value: T)

  /** What a `catch` clause receives: an `Error` instance with its message, or any other thrown value. */
  datatype Fault = ErrorValue(message: string) | OtherValue

  /** The settled outcome of an awaited call: the value it resolved to, or what it threw. */
  datatype Call<T> = Returned(value: T) | Threw(fault: Fault)
}
