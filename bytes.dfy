/** Fixed-width integers of the firmware. */
module Bytes {

  /** Rust's `u8`: the type of the selector's counter and of the mappers' argument.
      Arithmetic on it must be proved to stay in range, which is how the model
      shows that the counter's `+= 1` and `-= 1` never overflow or underflow. */
  newtype Byte = x: int | 0 <= x < 256
}
