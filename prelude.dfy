/** Small shared vocabulary: an optional value and the fixed-width integer
    types that appear in the crate's signatures. */
module Prelude {

  /** An optional value. */
  datatype Option<+T> = None | Some(value: T) {

    /** The contained value, or `default` when there is none. */
    function GetOr(default: T): T {
      match this
      case Some(v) => v
      case None => default
    }
  }

  /** Rust `u16`: evdev key codes and Win32 virtual-key codes. */
  type u16 = x: int | 0 <= x < 0x1_0000

  /** Rust `i16`: the `SHORT` returned by `GetAsyncKeyState`. */
  type i16 = x: int | -0x8000 <= x < 0x8000

  /** Rust `i32`: the `value` field of an evdev input event. */
  type i32 = x: int | -0x8000_0000 <= x < 0x8000_0000
}
