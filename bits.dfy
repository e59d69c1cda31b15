/** Fixed-width machine integers of the emulator, as bounded `int`s.
    Rust's `u8`, `u16` and `u32` become subset types; wrap-around is written out. */
module Bits {

  type U8 = x: int | 0 <= x < 0x100
  type U16 = x: int | 0 <= x < 0x1_0000
  type U32 = x: int | 0 <= x < 0x1_0000_0000

  /** `x as u8`: keep the low byte. */
  function Low8(x: nat): (r: U8)
    ensures x < 0x100 ==> r == x
    ensures 0x100 <= x < 0x200 ==> r == x - 0x100
  {
    x % 0x100
  }

  /** `wrapping_add` / `wrapping_sub` on `u16`: reduce modulo 2^16. */
  function Wrap16(x: int): (r: U16)
    ensures 0 <= x < 0x1_0000 ==> r == x
    ensures 0x1_0000 <= x < 0x2_0000 ==> r == x - 0x1_0000
    ensures -0x1_0000 <= x < 0 ==> r == x + 0x1_0000
  {
    x % 0x1_0000
  }

  /** `(v >> 7) & 1 == 1` */
  predicate Bit7(v: nat) {
    (v / 0x80) % 2 == 1
  }

  /** `(v >> 15) & 1 == 1` */
  predicate Bit15(v: nat) {
    (v / 0x8000) % 2 == 1
  }

  lemma Bit7OfByte(v: U8)
    ensures Bit7(v) <==> v >= 0x80
  {
  }

  lemma Bit15OfWord(v: U16)
    ensures Bit15(v) <==> v >= 0x8000
  {
  }
}
