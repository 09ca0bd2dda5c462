/** Small shared vocabulary: Rust's Option and the fixed-width integer types the core uses. */
module Base {

  /** Rust's Option<T>. */
  datatype Option<+T> = None | Some(value: T)

  /** Rust's u8. */
  newtype u8 = x: int | 0 <= x < 0x100

  /** Rust's i32 (the type of chunk line numbers). */
  newtype i32 = x: int | -0x8000_0000 <= x < 0x8000_0000
}
