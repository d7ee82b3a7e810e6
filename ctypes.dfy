/** Types shared by the library's C-callable boundary. */
module CTypes {

  /** A Rust `i32`: the representation of `ErrorCode` and of every handle. */
  newtype i32 = x: int | -0x8000_0000 <= x < 0x8000_0000

  datatype Option<+T> = None | Some(value: T)
}
