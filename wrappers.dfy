/** Failure-carrying results for the exceptions the scripts raise. */
module Wrappers {

  datatype Option<+T> = None | Some(value: T)

  /** The Python exceptions the modelled code can raise. */
  datatype Error =
    | ValueError                   // a Quadrant range without exactly two bounds
    | KeyError(key: string)        // a string key missing from a dispatch table
    | IndexError                   // `lines[-1]` on an empty line list
    | UnboundLocalError(name: string) // a local name returned before it was bound

  datatype Result<+T> = Success(value: T) | Failure(error: Error)
}
