/** Small shared vocabulary: an optional value and the unsigned byte. */
module Common {

  /** Rust's `Option`: a value that may be absent. */
  datatype Option<+T> = None | Some(value: T)

  /** Rust's `u8`. */
  newtype u8 = b: int | 0 <= b < 256
}
