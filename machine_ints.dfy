/** Fixed-width unsigned integers as the Rust source uses them (u8, u16, u32), with the
    wrapping and saturating arithmetic of Rust's standard library written out explicitly. */
module MachineInts {

  type u8 = x: int | 0 <= x < 0x100
  type u16 = x: int | 0 <= x < 0x1_0000
  type u32 = x: int | 0 <= x < 0x1_0000_0000
  type i8 = x: int | -0x80 <= x < 0x80
  type i16 = x: int | -0x8000 <= x < 0x8000

  const U8_MAX: u8 := 0xFF

  /** Reduction modulo 2^16: `wrapping_add`, `wrapping_sub` and `as u16` on a u16. */
  function Wrap16(x: int): (r: u16)
    ensures 0 <= x < 0x1_0000 ==> r == x
    ensures (r - x) % 0x1_0000 == 0
  {
    x % 0x1_0000
  }

  /** Reduction modulo 2^32: `wrapping_add` on a u32. */
  function Wrap32(x: int): (r: u32)
    ensures 0 <= x < 0x1_0000_0000 ==> r == x
    ensures (r - x) % 0x1_0000_0000 == 0
  {
    x % 0x1_0000_0000
  }

  /** `u8::saturating_add`: the sum, clamped at 255. */
  function SaturatingAddU8(a: u8, b: u8): (r: u8)
    ensures a <= r && b <= r
    ensures a + b <= U8_MAX ==> r == a + b
    ensures a + b > U8_MAX ==> r == U8_MAX
  {
    if a + b <= 0xFF then a + b else 0xFF
  }

  /** `saturating_sub(1)` on an unsigned counter: one less, but never below zero. */
  function SaturatingDecrement(a: nat): (r: nat)
    ensures a == 0 ==> r == 0
    ensures a > 0 ==> r + 1 == a
  {
    if a == 0 then 0 else a - 1
  }

  /** `b as i8` for a byte: the two's-complement reading of the byte. */
  function AsI8(b: u8): (r: i8)
    ensures Wrap16(r) % 0x100 == b
  {
    if b < 0x80 then b else b - 0x100
  }

  /** `w as i16` for a word: the two's-complement reading of the word. */
  function AsI16(w: u16): (r: i16)
    ensures Wrap16(r) == w
  {
    if w < 0x8000 then w else w - 0x1_0000
  }
}

/** Some/None, used where the source returns an `Option`. */
module Wrappers {

  datatype Option<+T> = None | Some(value: T)
}
