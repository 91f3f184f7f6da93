/** Types shared by the models of both controllers. */
module Common {

  /** An 8-bit unsigned value, as the controllers' `unsigned char`. */
  type Byte = x: int | 0 <= x < 256

  /** A value that may be absent: a serial byte that has or has not arrived. */
  datatype Option<T> = None | Some(value: T)
}
