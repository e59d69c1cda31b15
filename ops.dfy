/** The flag and arithmetic primitives of src/cpu/ops.rs.
    Each Rust function writes through `&mut target` / `&mut status` / `&mut pc`
    and is straight-line, so each is a function returning the new values that
    the caller assigns. */
module Ops {
  import opened Bits
  import opened Status

  /** New value of the `&mut target` register together with the new status. */
  datatype Written = Written(target: U16, status: Flags)

  function CarryIn(status: Flags): nat {
    if Contains(status, CARRY) then 1 else 0
  }

  /** `load_u8`: the target gets the byte zero-extended; N is its sign bit and
      Z says it is zero; no other flag moves. */
  function LoadU8(status: Flags, value: U8): (r: Written)
    ensures r.target == value
    ensures Contains(r.status, NEGATIVE) <==> value >= 0x80
    ensures Contains(r.status, ZERO) <==> value == 0
    ensures SameOutside(r.status, status, NZ)
  {
    Written(value, SetNZ(status, Bit7(value), value == 0))
  }

  /** `load_u16`: as `LoadU8`, with the sign taken from bit 15. */
  function LoadU16(status: Flags, value: U16): (r: Written)
    ensures r.target == value
    ensures Contains(r.status, NEGATIVE) <==> value >= 0x8000
    ensures Contains(r.status, ZERO) <==> value == 0
    ensures SameOutside(r.status, status, NZ)
  {
    Written(value, SetNZ(status, Bit15(value), value == 0))
  }

  /** `compare_u8`: C is unsigned `lhs >= rhs`, Z is `lhs == rhs`, N is the top
      bit of the wrapped difference; only N, Z and C move. */
  function CompareU8(status: Flags, lhs: U8, rhs: U8): (r: Flags)
    ensures Contains(r, CARRY) <==> lhs >= rhs
    ensures Contains(r, ZERO) <==> lhs == rhs
    ensures Contains(r, NEGATIVE) <==> (lhs - rhs) % 0x100 >= 0x80
    ensures SameOutside(r, status, NZC)
  {
    var result := Low8(lhs - rhs + 0x100);
    SetNZC(status, Bit7(result), result == 0, lhs >= rhs)
  }

  /** `compare_u16`: as `CompareU8` at 16 bits. */
  function CompareU16(status: Flags, lhs: U16, rhs: U16): (r: Flags)
    ensures Contains(r, CARRY) <==> lhs >= rhs
    ensures Contains(r, ZERO) <==> lhs == rhs
    ensures Contains(r, NEGATIVE) <==> (lhs - rhs) % 0x1_0000 >= 0x8000
    ensures SameOutside(r, status, NZC)
  {
    var result := Wrap16(lhs - rhs);
    SetNZC(status, Bit15(result), result == 0, lhs >= rhs)
  }

  /** The two's-complement reading of a displacement byte. */
  function Signed8(offset: U8): (r: int)
    ensures -0x80 <= r < 0x80
    ensures r % 0x100 == offset
  {
    if offset < 0x80 then offset else offset - 0x100
  }

  /** `branch`: a taken branch adds the signed displacement to PC modulo 2^16
      (no carry into the bank); an untaken one leaves PC alone. */
  function Branch(pc: U16, offset: U8, shouldBranch: bool): (r: U16)
    ensures !shouldBranch ==> r == pc
    ensures shouldBranch ==> r == (pc + Signed8(offset)) % 0x1_0000
  {
    if shouldBranch then
      if offset / 0x80 == 1 then
        // `!offset + 1` is the magnitude of a negative displacement
        Wrap16(pc - ((0xFF - offset) + 1))
      else
        Wrap16(pc + offset)
    else
      pc
  }

  /** `adc_u8`: 8-bit add of the low byte of A, the operand and the carry.
      The high byte of A is cleared. Carry out is derived as "result below the
      old low byte", which equals the true carry except when the operand plus
      carry-in is exactly 0x100. Overflow is never computed. */
  function AdcU8(target: U16, status: Flags, value: U8): (r: Written)
    ensures var sum := target % 0x100 + value + CarryIn(status);
      && r.target == sum % 0x100
      && (Contains(r.status, CARRY) <==> sum >= 0x100 && value + CarryIn(status) < 0x100)
    ensures r.target < 0x100
    ensures Contains(r.status, ZERO) <==> r.target == 0
    ensures Contains(r.status, NEGATIVE) <==> r.target >= 0x80
    ensures SameOutside(r.status, status, NZC)
  {
    var old8 := Low8(target);
    var result := Low8(Low8(old8 + value) + CarryIn(status));
    AddBytesWithCarry(old8, value, CarryIn(status));
    Bit7OfByte(result);
    var s := SetNZC(status, Bit7(result), result == 0, result < old8);
    Written(result, s)
  }

  /** `adc_u16`: 16-bit add with carry. As written, N is taken from bit 7 of
      the result, not bit 15. */
  function AdcU16(target: U16, status: Flags, value: U16): (r: Written)
    ensures var sum := target + value + CarryIn(status);
      && r.target == sum % 0x1_0000
      && (Contains(r.status, CARRY) <==> sum >= 0x1_0000 && value + CarryIn(status) < 0x1_0000)
    ensures Contains(r.status, ZERO) <==> r.target == 0
    ensures Contains(r.status, NEGATIVE) <==> (r.target / 0x80) % 2 == 1
    ensures SameOutside(r.status, status, NZC)
  {
    var result := Wrap16(Wrap16(target + value) + CarryIn(status));
    AddWordsWithCarry(target, value, CarryIn(status));
    var s := SetNZC(status, Bit7(result), result == 0, result < target);
    Written(result, s)
  }

  /** The carry test of `adc_u8`: the wrapped sum is below the old byte
      exactly when the sum overflowed and the operand plus carry-in did not. */
  lemma AddBytesWithCarry(old8: U8, value: U8, carry: nat)
    requires carry <= 1
    ensures Low8(Low8(old8 + value) + carry) == (old8 + value + carry) % 0x100
    ensures Low8(Low8(old8 + value) + carry) < old8
        <==> old8 + value + carry >= 0x100 && value + carry < 0x100
  {
    if old8 + value >= 0x100 {
      assert Low8(old8 + value) == old8 + value - 0x100;
    } else {
      assert Low8(old8 + value) == old8 + value;
    }
  }

  /** The carry test of `adc_u16`, as `AddBytesWithCarry` at 16 bits. */
  lemma AddWordsWithCarry(old16: U16, value: U16, carry: nat)
    requires carry <= 1
    ensures Wrap16(Wrap16(old16 + value) + carry) == (old16 + value + carry) % 0x1_0000
    ensures Wrap16(Wrap16(old16 + value) + carry) < old16
        <==> old16 + value + carry >= 0x1_0000 && value + carry < 0x1_0000
  {
    if old16 + value >= 0x1_0000 {
      assert Wrap16(old16 + value) == old16 + value - 0x1_0000;
    } else {
      assert Wrap16(old16 + value) == old16 + value;
    }
  }

  // ---------------------------------------------------------------------------
  // Worked cases

  /** A displacement of 0x80 moves PC back by 128, 0x7F forward by 127. */
  lemma BranchExtremes(pc: U16)
    requires 0x80 <= pc < 0x1_0000 - 0x7F
    ensures Branch(pc, 0x80, true) == pc - 128
    ensures Branch(pc, 0x7F, true) == pc + 127
  {
  }

  /** A = 0xFF, carry clear, operand 1: result 0 with C and Z set and N clear. */
  lemma AdcU8Wraps(status: Flags)
    requires !Contains(status, CARRY)
    ensures AdcU8(0xFF, status, 1).target == 0
    ensures Contains(AdcU8(0xFF, status, 1).status, CARRY)
    ensures Contains(AdcU8(0xFF, status, 1).status, ZERO)
    ensures !Contains(AdcU8(0xFF, status, 1).status, NEGATIVE)
  {
  }

  /** As written, a full carry-in plus an operand of 0xFF adds exactly 0x100,
      so the result equals the old byte and Carry is cleared although the sum
      overflowed. */
  lemma AdcU8LosesCarry(status: Flags)
    requires Contains(status, CARRY)
    ensures 0x01 + 0xFF + CarryIn(status) >= 0x100
    ensures AdcU8(0x01, status, 0xFF).target == 0x01
    ensures !Contains(AdcU8(0x01, status, 0xFF).status, CARRY)
  {
  }

  /** As written, a 16-bit sum of 0x8000 leaves N clear, and 0x0080 sets it. */
  lemma AdcU16SignFromBit7(status: Flags)
    requires !Contains(status, CARRY)
    ensures !Contains(AdcU16(0x7FFF, status, 1).status, NEGATIVE)
    ensures AdcU16(0x7FFF, status, 1).target == 0x8000
    ensures Contains(AdcU16(0x007F, status, 1).status, NEGATIVE)
  {
  }
}
