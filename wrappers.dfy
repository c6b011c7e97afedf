/** Failure-carrying values used throughout the model. The error kinds name the
    Python exception classes the source raises; messages are not modelled. */
module Wrappers {

  datatype Option<+T> = None | Some(value: T)

  /** The exception class a Python operation would raise. */
  datatype Error =
    | ValueError
    | KeyError
    | TypeError
    | IndexError
    | AttributeError
    | ImportError
    /** numpy's AxisError: a reduction over an axis the array does not have */
    | AxisError
    /** an OpenCV call rejecting its input array */
    | CvError

  datatype Result<+T> = Ok(value: T) | Err(error: Error)

  /** The outcome of an operation that returns nothing but may raise. */
  datatype Outcome = Pass | Fail(error: Error)
}
