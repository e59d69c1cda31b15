/** The 65C816 processor status register (`Flags` in src/cpu.rs).
    Eight bits; INDEX_REGISTER/BREAK_FLAG share bit 4 and MEMORY_SELECT/UNUSED
    share bit 5, so they are two names for one storage bit, never two booleans.
    Every bit is named, so `Flags::from_bits_truncate` keeps all of them. */
module Status {

  type Flags = bv8

  const CARRY: Flags := 0x01
  const ZERO: Flags := 0x02
  const IRQ_DISABLE: Flags := 0x04
  const DECIMAL_MODE: Flags := 0x08
  const INDEX_REGISTER: Flags := 0x10
  const BREAK_FLAG: Flags := 0x10
  const MEMORY_SELECT: Flags := 0x20
  const UNUSED: Flags := 0x20
  const OVERFLOW: Flags := 0x40
  const NEGATIVE: Flags := 0x80

  /** `Flags::empty()` */
  const EMPTY: Flags := 0

  /** bitflags' `contains`: every bit of `mask` is set in `f`. */
  predicate Contains(f: Flags, mask: Flags) {
    f & mask == mask
  }

  /** `f` and `g` agree on every bit outside `mask`. */
  predicate SameOutside(f: Flags, g: Flags, mask: Flags) {
    f & !mask == g & !mask
  }

  /** bitflags' `insert`. */
  function Insert(f: Flags, mask: Flags): (r: Flags)
    ensures Contains(r, mask) && SameOutside(r, f, mask)
  {
    f | mask
  }

  /** bitflags' `remove`. */
  function Remove(f: Flags, mask: Flags): (r: Flags)
    ensures r & mask == 0 && SameOutside(r, f, mask)
  {
    f & !mask
  }

  /** bitflags' `toggle`. */
  function Toggle(f: Flags, mask: Flags): (r: Flags)
    ensures SameOutside(r, f, mask)
    ensures r & mask == (f & mask) ^ mask
  {
    f ^ mask
  }

  /** bitflags' `set(mask, value)`: insert when `value`, remove otherwise. */
  function Set(f: Flags, mask: Flags, value: bool): (r: Flags)
    ensures value ==> Contains(r, mask)
    ensures !value ==> r & mask == 0
    ensures SameOutside(r, f, mask)
  {
    if value then Insert(f, mask) else Remove(f, mask)
  }

  /** The flags that a load, an add-with-carry or a compare may touch. */
  const NZ: Flags := NEGATIVE | ZERO
  const NZC: Flags := NEGATIVE | ZERO | CARRY

  /** The `status.set(NEGATIVE, n); status.set(ZERO, z)` pair. */
  function SetNZ(f: Flags, n: bool, z: bool): (r: Flags)
    ensures Contains(r, NEGATIVE) <==> n
    ensures Contains(r, ZERO) <==> z
    ensures SameOutside(r, f, NZ)
  {
    Set(Set(f, NEGATIVE, n), ZERO, z)
  }

  /** N, Z and then C set in turn, as loads, compares and adds do. */
  function SetNZC(f: Flags, n: bool, z: bool, c: bool): (r: Flags)
    ensures Contains(r, NEGATIVE) <==> n
    ensures Contains(r, ZERO) <==> z
    ensures Contains(r, CARRY) <==> c
    ensures SameOutside(r, f, NZC)
  {
    Set(SetNZ(f, n, z), CARRY, c)
  }

  /** Reading one of the single-bit flags after `Set` gives back the value set. */
  lemma SetThenContains(f: Flags, mask: Flags, value: bool)
    requires mask == CARRY || mask == ZERO || mask == NEGATIVE || mask == OVERFLOW
             || mask == IRQ_DISABLE || mask == DECIMAL_MODE || mask == INDEX_REGISTER
             || mask == MEMORY_SELECT
    ensures Contains(Set(f, mask, value), mask) <==> value
  {
  }
}
