/** Optional values and results shared by the modules of the conversion service. */
module Wrappers {

  datatype Option<+T> = None | Some(value: T)

  /** The outcome of an awaited step: the value it resolved to, or the message of what it threw. */
  datatype Result<+R> = Success(value: R) | Failure(message: string)
}
