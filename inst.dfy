/** The instruction sum type of src/inst.rs and its disassembly text
    (`Instruction::asm` and the formatting helpers beside it).

    This is the payload-carrying enum the renderer works on; the executor in
    module `Execution` has its own payload-free tags, because `tick` fetches
    the operands itself. Each helper is specified by where its operand's
    digits sit in the text and by the number `HexValue` reads back from them,
    so every contract here is a round trip through module `Hex`. */
module Disassembly {
  import opened Bits
  import opened Hex
  import Ops

  /** An immediate operand, one byte or one word wide. */
  datatype Immediate = Immediate8(byte: U8) | Immediate16(word: U16)

  /** `Instruction`, with the operand each variant carries: a direct-page
      byte `dp`, an absolute word `addr`, a 32-bit long address `long`, a
      branch displacement `offset`, a status mask `mask`, or the two banks of
      a block move. */
  datatype Instruction =
    | Unknown
    // Load from memory
    | LoadAImmediate(imm: Immediate)
    | LoadAAbsolute(addr: U16)
    | LoadADirectPage(dp: U8)
    | LoadADirectPageIndirectLong(dp: U8)
    | LoadAAbsoluteIndexedX(addr: U16)
    | LoadAAbsoluteLongIndexedX(long: U32)
    | LoadXImmediate(imm: Immediate)
    | LoadXDirectPage(dp: U8)
    | LoadYImmediate(imm: Immediate)
    | LoadYDirectPage(dp: U8)
    // Store to memory
    | StoreAAbsolute(addr: U16)
    | StoreADirectPage(dp: U8)
    | StoreAAbsoluteIndexedX(addr: U16)
    | StoreAAbsoluteLongIndexedX(long: U32)
    | StoreADirectPageIndexedX(dp: U8)
    | StoreXAbsolute(addr: U16)
    | StoreXDirectPage(dp: U8)
    | StoreYDirectPage(dp: U8)
    | StoreZeroAbsolute(addr: U16)
    | StoreZeroDirectPage(dp: U8)
    | StoreZeroAbsoluteIndexedX(addr: U16)
    | StoreZeroDirectPageIndexedX(dp: U8)
    // Arithmetic
    | AddWithCarryImmediate(imm: Immediate)
    | AddWithCarryAbsolute(addr: U16)
    | AddWithCarryDirectPage(dp: U8)
    | IncrementDirectPage(dp: U8)
    | IncrementX
    | IncrementY
    | DecrementX
    | DecrementY
    // Shifts
    | ShiftLeft
    // Register transfers
    | MoveAX
    | MoveAY
    | MoveDA
    | MoveXSP
    | ExchangeBA
    // Block moves
    | BlockMoveNext(dest: U8, src: U8)
    // Comparisons
    | CompareImmediate(imm: Immediate)
    | CompareAbsolute(addr: U16)
    | CompareDirectPage(dp: U8)
    | CompareAbsoluteLongIndexedX(long: U32)
    | CompareXImmediate(imm: Immediate)
    // Branches
    | BranchCarryClear(offset: U8)
    | BranchCarrySet(offset: U8)
    | BranchNotEqual(offset: U8)
    | BranchEqual(offset: U8)
    | BranchAlways(offset: U8)
    // Stack pushes
    | PushA
    | PushB
    | PushD
    | PushX
    | PushY
    | PushStatus
    | PushAbsolute(addr: U16)
    // Stack pulls
    | PullA
    | PullB
    | PullD
    | PullX
    | PullY
    | PullStatus
    // Jumps and subroutines
    | JumpAbsolute(addr: U16)
    | JumpSubRoutineAbsolute(addr: U16)
    | JumpSubRoutineAbsoluteLong(bank: U8, addr: U16)
    | Return
    | ReturnLong
    // Status flags
    | ClearCarry
    | SetIrqDisable
    | ResetFlags(mask: U8)
    | SetFlags(mask: U8)
    | ExchangeCE
    // Interrupts
    | Break

  /** `s` is `mnemonic`, then the punctuation `mark`, then exactly `width`
      hexadecimal digits that read as `value`, then `tail`. */
  ghost predicate Renders(s: string, mnemonic: string, mark: string, width: nat, value: nat, tail: string) {
    var at := |mnemonic| + |mark|;
    |s| == at + width + |tail|
    && s[..|mnemonic|] == mnemonic
    && s[|mnemonic|..at] == mark
    && s[at + width..] == tail
    && AllHex(s[at..at + width])
    && HexValue(s[at..at + width]) == value
  }

  // ---------------------------------------------------------------------------
  // Addressing-mode forms

  /** `immediate`: "#$" and two digits for a byte operand, four for a word. */
  function ImmediateForm(mnemonic: string, imm: Immediate): (s: string)
    ensures imm.Immediate8? ==> Renders(s, mnemonic, " #$", 2, imm.byte, "")
    ensures imm.Immediate16? ==> Renders(s, mnemonic, " #$", 4, imm.word, "")
  {
    match imm
    case Immediate8(v) => ByteText(v); Layout(mnemonic, " #$", Padded(v, 2), "")
    case Immediate16(v) => WordText(v); Layout(mnemonic, " #$", Padded(v, 4), "")
  }

  /** `absolute`: "$" and four digits. */
  function AbsoluteForm(mnemonic: string, addr: U16): (s: string)
    ensures Renders(s, mnemonic, " $", 4, addr, "")
  {
    WordText(addr);
    Layout(mnemonic, " $", Padded(addr, 4), "")
  }

  /** `absolute_long`: "$", the bank as two digits and the address as four,
      with nothing between them: the six digits read as the 24-bit address. */
  function AbsoluteLongForm(mnemonic: string, bank: U8, addr: U16): (s: string)
    ensures Renders(s, mnemonic, " $", 6, bank * 0x1_0000 + addr, "")
  {
    var b, w := Padded(bank, 2), Padded(addr, 4);
    LongText(bank, addr);
    var s := Layout(mnemonic, " $", b + w, "");
    assert s == mnemonic + " $" + b + w;
    s
  }

  /** `direct_page`: "$" and two digits. */
  function DirectPageForm(mnemonic: string, dp: U8): (s: string)
    ensures Renders(s, mnemonic, " $", 2, dp, "")
  {
    ByteText(dp);
    Layout(mnemonic, " $", Padded(dp, 2), "")
  }

  /** `direct_page_indexed_x`: "$", two digits and ",X". */
  function DirectPageIndexedXForm(mnemonic: string, dp: U8): (s: string)
    ensures Renders(s, mnemonic, " $", 2, dp, ",X")
  {
    ByteText(dp);
    Layout(mnemonic, " $", Padded(dp, 2), ",X")
  }

  /** `direct_page_indirect_long`: two digits in square brackets. */
  function DirectPageIndirectLongForm(mnemonic: string, dp: U8): (s: string)
    ensures Renders(s, mnemonic, " [$", 2, dp, "]")
  {
    ByteText(dp);
    Layout(mnemonic, " [$", Padded(dp, 2), "]")
  }

  /** `absolute_indexed_x`: "$", four digits and ",X". */
  function AbsoluteIndexedXForm(mnemonic: string, addr: U16): (s: string)
    ensures Renders(s, mnemonic, " $", 4, addr, ",X")
  {
    WordText(addr);
    Layout(mnemonic, " $", Padded(addr, 4), ",X")
  }

  /** `absolute_long_indexed_x`: the 32-bit operand with a minimum of four
      digits, so an address in bank 0 prints exactly like the absolute form and
      one above 0xFFFF prints with more than four digits. */
  function AbsoluteLongIndexedXForm(mnemonic: string, long: U32): (s: string)
    ensures long < 0x1_0000 ==> Renders(s, mnemonic, " $", 4, long, ",X")
    ensures long >= 0x1_0000 ==>
      |s| > |mnemonic| + 8 && Renders(s, mnemonic, " $", |s| - |mnemonic| - 4, long, ",X")
  {
    PaddedLength(long, 4);
    PaddedRoundTrip(long, 4);
    Layout(mnemonic, " $", Padded(long, 4), ",X")
  }

  /** The magnitude `branch` prints for a displacement: the byte itself when
      bit 7 is clear, its two's-complement negation (`!offset + 1`, which
      cannot overflow a byte once bit 7 is set) when it is set. */
  function Magnitude(offset: U8): (r: U8)
    ensures r == if Ops.Signed8(offset) < 0 then -Ops.Signed8(offset) else Ops.Signed8(offset)
  {
    if offset / 0x80 == 1 then (0xFF - offset) + 1 else offset
  }

  /** `branch`: a sign and two digits of magnitude, so that the text reads as
      the signed displacement the branch adds to PC. */
  function BranchForm(mnemonic: string, offset: U8): (s: string)
    ensures offset >= 0x80 ==> Renders(s, mnemonic, " -$", 2, -Ops.Signed8(offset), "")
    ensures offset < 0x80 ==> Renders(s, mnemonic, " +$", 2, Ops.Signed8(offset), "")
  {
    var mark := if offset / 0x80 == 1 then " -$" else " +$";
    ByteText(Magnitude(offset));
    Layout(mnemonic, mark, Padded(Magnitude(offset), 2), "")
  }

  /** The block-move text of `asm`: the source bank's two digits come first,
      then the destination's. */
  function BlockMoveForm(dest: U8, src: U8): (s: string)
    ensures |s| == 11
    ensures Renders(s, "MVN", " $", 2, src, s[7..])
    ensures Renders(s, s[..7], ",$", 2, dest, "")
  {
    ByteText(src);
    ByteText(dest);
    var first := Layout("MVN", " $", Padded(src, 2), "");
    var s := Layout(first, ",$", Padded(dest, 2), "");
    LayoutPrefix(first, ",$" + Padded(dest, 2), "MVN", " $", 2, src);
    s
  }

  // ---------------------------------------------------------------------------
  // The disassembler

  /** `Instruction::asm`: the assembly text of every instruction. */
  function Asm(inst: Instruction): (r: string)
    ensures |r| >= 3
  {
    match inst
    case Unknown => "???"

    case LoadAImmediate(imm) => ImmediateForm("LDA", imm)
    case LoadAAbsolute(addr) => AbsoluteForm("LDA", addr)
    case LoadADirectPage(dp) => DirectPageForm("LDA", dp)
    case LoadADirectPageIndirectLong(dp) => DirectPageIndirectLongForm("LDA", dp)
    case LoadAAbsoluteIndexedX(addr) => AbsoluteIndexedXForm("LDA", addr)
    case LoadAAbsoluteLongIndexedX(long) => AbsoluteLongIndexedXForm("LDA", long)
    case LoadXImmediate(imm) => ImmediateForm("LDX", imm)
    case LoadXDirectPage(dp) => DirectPageForm("LDX", dp)
    case LoadYImmediate(imm) => ImmediateForm("LDY", imm)
    case LoadYDirectPage(dp) => DirectPageForm("LDY", dp)

    case StoreAAbsolute(addr) => AbsoluteForm("STA", addr)
    case StoreADirectPage(dp) => DirectPageForm("STA", dp)
    case StoreAAbsoluteIndexedX(addr) => AbsoluteIndexedXForm("STA", addr)
    case StoreAAbsoluteLongIndexedX(long) => AbsoluteLongIndexedXForm("STA", long)
    case StoreADirectPageIndexedX(dp) => DirectPageIndexedXForm("STA", dp)
    case StoreXAbsolute(addr) => AbsoluteForm("STX", addr)
    case StoreXDirectPage(dp) => DirectPageForm("STX", dp)
    case StoreYDirectPage(dp) => DirectPageForm("STY", dp)
    case StoreZeroAbsolute(addr) => AbsoluteForm("STZ", addr)
    case StoreZeroDirectPage(dp) => DirectPageForm("STZ", dp)
    case StoreZeroAbsoluteIndexedX(addr) => AbsoluteIndexedXForm("STZ", addr)
    case StoreZeroDirectPageIndexedX(dp) => DirectPageIndexedXForm("STZ", dp)

    case AddWithCarryImmediate(imm) => ImmediateForm("ADC", imm)
    case AddWithCarryAbsolute(addr) => AbsoluteForm("ADC", addr)
    case AddWithCarryDirectPage(dp) => DirectPageForm("ADC", dp)
    case IncrementDirectPage(dp) => DirectPageForm("INC", dp)
    case IncrementX => "INX"
    case IncrementY => "INY"
    case DecrementX => "DEX"
    case DecrementY => "DEY"

    case ShiftLeft => "ASL"

    case MoveAX => "TAX"
    case MoveAY => "TAY"
    case MoveDA => "TDC"
    case MoveXSP => "TXS"
    case ExchangeBA => "XBA"

    case BlockMoveNext(dest, src) => BlockMoveForm(dest, src)

    case CompareImmediate(imm) => ImmediateForm("CMP", imm)
    case CompareAbsolute(addr) => AbsoluteForm("CMP", addr)
    case CompareDirectPage(dp) => DirectPageForm("CMP", dp)
    case CompareAbsoluteLongIndexedX(long) => AbsoluteLongIndexedXForm("CMP", long)
    case CompareXImmediate(imm) => ImmediateForm("CPX", imm)

    case BranchCarryClear(offset) => BranchForm("BCC", offset)
    case BranchCarrySet(offset) => BranchForm("BCS", offset)
    case BranchNotEqual(offset) => BranchForm("BNE", offset)
    case BranchEqual(offset) => BranchForm("BEQ", offset)
    case BranchAlways(offset) => BranchForm("BRA", offset)

    case PushA => "PHA"
    case PushB => "PHB"
    case PushD => "PHD"
    case PushX => "PHX"
    case PushY => "PHY"
    case PushStatus => "PHP"
    case PushAbsolute(addr) => AbsoluteForm("PEA", addr)
    case PullA => "PLA"
    case PullB => "PLB"
    case PullD => "PLD"
    case PullX => "PLX"
    case PullY => "PLY"
    case PullStatus => "PLP"

    case JumpAbsolute(addr) => AbsoluteForm("JMP", addr)

    case JumpSubRoutineAbsolute(addr) => AbsoluteForm("JSR", addr)
    case JumpSubRoutineAbsoluteLong(bank, addr) => AbsoluteLongForm("JSL", bank, addr)
    case Return => "RTS"
    case ReturnLong => "RTL"

    case ClearCarry => "CLC"
    case SetIrqDisable => "SEI"
    case ResetFlags(mask) => ImmediateForm("REP", Immediate8(mask))
    case SetFlags(mask) => ImmediateForm("SEP", Immediate8(mask))
    case ExchangeCE => "XCE"

    case Break => "BRK"
  }

  // ---------------------------------------------------------------------------
  // Layout of concatenated text

  /** Text made of a mnemonic, punctuation, digits and a tail, in that order,
      with the proof of where each part sits. */
  function Layout(mnemonic: string, mark: string, digits: string, tail: string): (s: string)
    requires AllHex(digits)
    ensures s == mnemonic + mark + digits + tail
    ensures Renders(s, mnemonic, mark, |digits|, HexValue(digits), tail)
  {
    var s := mnemonic + mark + digits + tail;
    var at := |mnemonic| + |mark|;
    assert s[..|mnemonic|] == mnemonic;
    assert s[|mnemonic|..at] == mark;
    assert s[at + |digits|..] == tail;
    assert s[at..at + |digits|] == digits;
    s
  }

  /** Appending to text keeps what `Renders` says about its front. */
  lemma LayoutPrefix(s: string, more: string, mnemonic: string, mark: string, width: nat, value: nat)
    requires Renders(s, mnemonic, mark, width, value, "")
    ensures Renders(s + more, mnemonic, mark, width, value, more)
  {
    var at := |mnemonic| + |mark|;
    assert (s + more)[..|mnemonic|] == s[..|mnemonic|];
    assert (s + more)[|mnemonic|..at] == s[|mnemonic|..at];
    assert (s + more)[at..at + width] == s[at..at + width];
    assert (s + more)[at + width..] == more;
  }

  /** The six digits of a long address read as bank * 2^16 + address. */
  lemma LongText(bank: U8, addr: U16)
    ensures |Padded(bank, 2) + Padded(addr, 4)| == 6
    ensures AllHex(Padded(bank, 2) + Padded(addr, 4))
    ensures HexValue(Padded(bank, 2) + Padded(addr, 4)) == bank * 0x1_0000 + addr
  {
    var b, w := Padded(bank, 2), Padded(addr, 4);
    ByteText(bank);
    WordText(addr);
    assert forall i :: 0 <= i < |b + w| ==> (b + w)[i] == if i < |b| then b[i] else w[i - |b|];
    HexValueConcat(b, w);
    assert Pow16(4) == 0x1_0000;
  }

  // ---------------------------------------------------------------------------
  // Properties of the text

  /** An instruction that was not decoded prints as "???". */
  lemma UnknownText()
    ensures Asm(Unknown) == "???"
  {
  }

  /** Each family of variants is written with one mnemonic, whatever its
      addressing mode. */
  lemma LoadAMnemonic(inst: Instruction)
    requires inst.LoadAImmediate? || inst.LoadAAbsolute? || inst.LoadADirectPage?
             || inst.LoadADirectPageIndirectLong? || inst.LoadAAbsoluteIndexedX?
             || inst.LoadAAbsoluteLongIndexedX?
    ensures Asm(inst)[..3] == "LDA"
  {
  }

  lemma LoadXMnemonic(inst: Instruction)
    requires inst.LoadXImmediate? || inst.LoadXDirectPage?
    ensures Asm(inst)[..3] == "LDX"
  {
  }

  lemma StoreZeroMnemonic(inst: Instruction)
    requires inst.StoreZeroAbsolute? || inst.StoreZeroDirectPage?
             || inst.StoreZeroAbsoluteIndexedX? || inst.StoreZeroDirectPageIndexedX?
    ensures Asm(inst)[..3] == "STZ"
  {
  }

  /** X is compared with CPX, not with the accumulator's CMP. */
  lemma CompareXMnemonic(imm: Immediate)
    ensures Asm(CompareXImmediate(imm))[..3] == "CPX"
  {
  }

  /** REP and SEP write their mask as "#$" and two digits. */
  lemma ResetMaskText(mask: U8)
    ensures Renders(Asm(ResetFlags(mask)), "REP", " #$", 2, mask, "")
  {
    assert Asm(ResetFlags(mask)) == ImmediateForm("REP", Immediate8(mask));
  }

  lemma SetMaskText(mask: U8)
    ensures Renders(Asm(SetFlags(mask)), "SEP", " #$", 2, mask, "")
  {
    assert Asm(SetFlags(mask)) == ImmediateForm("SEP", Immediate8(mask));
  }

  /** A long indexed operand prints with a minimum of four digits, so its
      text is that of the absolute indexed form exactly when the long
      address lies in bank 0 and equals the absolute one: the text does not
      tell the two instructions apart. */
  lemma LongIndexedLooksAbsolute(long: U32, addr: U16)
    ensures Asm(LoadAAbsoluteLongIndexedX(long)) == Asm(LoadAAbsoluteIndexedX(addr)) <==> long == addr
  {
    var l, a := Asm(LoadAAbsoluteLongIndexedX(long)), Asm(LoadAAbsoluteIndexedX(addr));
    if l == a {
      assert |a| == 11;
      assert l[5..9] == a[5..9];
    }
  }

  /** The extremes of the displacement range: 0x80 reads as -0x80, 0xFE as
      -2 and 0x7F as +0x7F. */
  lemma BranchExtremes()
    ensures Renders(Asm(BranchAlways(0x80)), "BRA", " -$", 2, 0x80, "")
    ensures Renders(Asm(BranchAlways(0xFE)), "BRA", " -$", 2, 2, "")
    ensures Renders(Asm(BranchAlways(0x7F)), "BRA", " +$", 2, 0x7F, "")
  {
  }
}
