/** Small value types shared by the client modules. */
module Common {

  /** A value that may be absent: a field the C++ code leaves unassigned is `None`. */
  datatype Option<+T> = None | Some(value: T)

  /** The outcome of an operation that the C++ code ends by throwing or aborting. */
  datatype Result<+T, +E> = Ok(value: T) | Err(error: E)

  /** `cv::Size`: a width and a height in pixels. */
  datatype Size = Size(width: int, height: int)
}
