/** Small value types shared by the other modules: an optional value, and the
    machine integer widths the client's records use. */
module Base {

  /** A value that may be absent, as Rust's `Option`. */
  datatype Option<+T> = None | Some(value: T)

  /** An octet, as Rust's `u8`. */
  type byte = x: int | 0 <= x < 0x100

  /** An unsigned 32-bit integer, as Rust's `u32`. */
  type u32 = x: int | 0 <= x < 0x1_0000_0000
}
