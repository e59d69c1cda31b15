/** Properties of one `tick` and of short instruction sequences, stated over
    the specification `Step` of module `Execution`. The imperative `Cpu.Tick`
    is proved to implement `Step`, so each property holds for it as well. */
module Properties {
  import opened Bits
  import opened Status
  import opened Ops
  import opened MemoryMap
  import opened CpuSemantics
  import opened Execution

  // ---------------------------------------------------------------------------
  // Modes

  /** Emulation mode forces both 8-bit modes, whatever the M and X bits say;
      in native mode each width follows its own status bit. */
  lemma EmulationForcesByteModes(r: Regs)
    ensures r.emulation ==> AU8Mode(r) && XYU8Mode(r)
    ensures !r.emulation ==> (AU8Mode(r) <==> Contains(r.status, MEMORY_SELECT))
    ensures !r.emulation ==> (XYU8Mode(r) <==> Contains(r.status, INDEX_REGISTER))
  {
  }

  /** `Cpu::new` starts in emulation mode with the stack at 0x01FF. */
  lemma PowerOnState()
    ensures AU8Mode(POWER_ON) && XYU8Mode(POWER_ON)
    ensures POWER_ON.sp == 0x1FF && CurrentAddr(POWER_ON) == 0
  {
  }

  // ---------------------------------------------------------------------------
  // Instructions that do nothing

  /** `Unknown` and `Break` only consume their opcode byte: the step succeeds
      exactly when that byte can be fetched, and then PC moves on by one and
      nothing else changes. */
  lemma NoOperation(r: Regs, m: Memory, op: Op)
    requires WellFormed(m) && (op.Unknown? || op.Break?)
    ensures Step(r, m, op).Ok? <==> Readable(m, CurrentAddr(r)) && r.pc < 0xFFFF
    ensures Step(r, m, op).Ok? ==> Step(r, m, op).value == Machine(r.(pc := r.pc + 1), m)
  {
  }

  // ---------------------------------------------------------------------------
  // The stack

  /** The stack cells from `sp - depth + 1` up to `sp` are console RAM in
      bank 0, and `depth` bytes can be pushed without SP underflowing. */
  predicate StackRoom(r: Regs, depth: nat) {
    depth <= r.sp <= 0x1FFF
  }

  /** A stack address in low RAM decodes to the RAM cell of that index. */
  lemma StackCell(a: U32)
    requires a <= 0x1FFF
    ensures Decode(a) == Ram(a) && Writable(a)
  {
  }

  /** `pull_u8` right after `push_u8` gives back the byte and the stack
      pointer, whatever else changed in the registers in between. */
  lemma PullAfterPush8(r: Regs, m: Memory, value: U8)
    requires WellFormed(m) && r.sp + 1 <= 0x1FFF
    ensures Pull8(r, Store(m, r.sp + 1, value)) == Ok(Taken(value, r.(sp := r.sp + 1)))
  {
    StackCell(r.sp + 1);
    StoreThenRead(m, r.sp + 1, value);
  }

  /** `pull_u16` right after `push_u16` gives back the word and the stack
      pointer, whatever else changed in the registers in between. */
  lemma PullAfterPush16(r: Regs, m: Memory, value: U16)
    requires WellFormed(m) && r.sp + 2 <= 0x1FFF
    ensures Pull16(r, StoreWord(m, r.sp + 1, value)) == Ok(Taken(value, r.(sp := r.sp + 2)))
  {
    StackCell(r.sp + 1);
    StackCell(r.sp + 2);
    StoreWordThenReadWord(m, r.sp + 1, value);
  }

  /** A byte pushed below a word on the stack leaves the word readable and
      unchanged. */
  lemma PushKeepsWordAbove(m: Memory, a: U32, value: U8)
    requires WellFormed(m) && 1 <= a && a + 1 <= 0x1FFF
    requires ReadableWord(m, a)
    ensures ReadableWord(Store(m, a - 1, value), a)
    ensures ReadWord(Store(m, a - 1, value), a) == ReadWord(m, a)
  {
    StackCell(a - 1);
    StackCell(a);
    StackCell(a + 1);
    ReadAfterStore(m, a - 1, value, a);
    ReadAfterStore(m, a - 1, value, a + 1);
  }

  /** `pull_u8` after `push_u8` gives back the byte and the registers. */
  lemma PushThenPull8(r: Regs, m: Memory, value: U8)
    requires WellFormed(m) && StackRoom(r, 1)
    ensures Push8(r, m, value).Ok?
    ensures var pushed := Push8(r, m, value).value;
      Pull8(pushed.regs, pushed.mem) == Ok(Taken(value, r))
  {
    var q := r.(sp := r.sp - 1);
    assert Push8(r, m, value) == Ok(Machine(q, Store(m, q.sp + 1, value)));
    PullAfterPush8(q, m, value);
  }

  /** `pull_u16` after `push_u16` gives back the word and the registers. */
  lemma PushThenPull16(r: Regs, m: Memory, value: U16)
    requires WellFormed(m) && StackRoom(r, 2)
    ensures Push16(r, m, value).Ok?
    ensures var pushed := Push16(r, m, value).value;
      Pull16(pushed.regs, pushed.mem) == Ok(Taken(value, r))
  {
    var q := r.(sp := r.sp - 2);
    assert Push16(r, m, value) == Ok(Machine(q, StoreWord(m, q.sp + 1, value)));
    PullAfterPush16(q, m, value);
  }

  /** Pushing A and pulling it back restores A at the current width and sets
      N and Z from the restored value. */
  lemma PushAThenPullA(r: Regs, m: Memory)
    requires WellFormed(m) && StackRoom(r, 2)
    ensures PushStep(r, m, PushA).Ok?
    ensures var pushed := PushStep(r, m, PushA).value;
      && PullStep(pushed.regs, pushed.mem, PullA).Ok?
      && var pulled := PullStep(pushed.regs, pushed.mem, PullA).value.regs;
      && pulled.a == (if AU8Mode(r) then r.a % 0x100 else r.a)
      && (Contains(pulled.status, NEGATIVE) <==> pulled.a >= (if AU8Mode(r) then 0x80 else 0x8000))
      && (Contains(pulled.status, ZERO) <==> pulled.a == 0)
      && SameOutside(pulled.status, r.status, NZ)
      && pulled.(a := r.a, status := r.status) == r
  {
    if AU8Mode(r) {
      PushThenPull8(r, m, Low8(r.a));
    } else {
      PushThenPull16(r, m, r.a);
    }
  }

  // ---------------------------------------------------------------------------
  // Calls and returns
  //
  // These are stated over the arms of `tick`, which run after the opcode
  // byte has been fetched: the call is entered with PC on its operand, and
  // the return may be executed at any address `pc` in any bank `bank`.

  /** The `JSR` arm: the address of its own last byte is pushed as a word at
      SP - 1, and control moves to the target in the same bank. */
  lemma CallEffect(r: Regs, m: Memory)
    requires WellFormed(m) && StackRoom(r, 2)
    requires JumpSubRoutineAbsoluteStep(r, m).Ok?
    ensures Fetch16(r, m).Ok? && r.pc + 2 <= 0xFFFF
    ensures JumpSubRoutineAbsoluteStep(r, m).value
         == Machine(r.(sp := r.sp - 2, pc := Fetch16(r, m).value.value),
                    StoreWord(m, r.sp - 1, r.pc + 1))
  {
  }

  /** The `RTS` arm: the word at SP + 1 is the address of the caller's last
      byte, and PC resumes one past it, wrapping within the bank. */
  lemma ReturnEffect(r: Regs, m: Memory)
    requires WellFormed(m) && r.sp < 0xFFFE && ReadableWord(m, r.sp + 1)
    ensures ReturnStep(r, m)
         == Ok(Machine(r.(sp := r.sp + 2, pc := Wrap16(ReadWord(m, r.sp + 1) + 1)), m))
  {
  }

  /** `JSR` then `RTS` resumes right after the two operand bytes of `JSR`,
      with every register as it was before the call. */
  lemma CallThenReturn(r: Regs, m: Memory, pc: U16, bank: U8)
    requires WellFormed(m) && StackRoom(r, 2)
    requires JumpSubRoutineAbsoluteStep(r, m).Ok?
    ensures r.pc + 2 <= 0xFFFF
    ensures var called := JumpSubRoutineAbsoluteStep(r, m).value;
      ReturnStep(called.regs.(pc := pc, programBank := bank), called.mem)
        == Ok(Machine(r.(pc := r.pc + 2, programBank := bank), called.mem))
  {
    CallEffect(r, m);
    var called := JumpSubRoutineAbsoluteStep(r, m).value;
    var entry := called.regs.(pc := pc, programBank := bank);
    StackCell(r.sp - 1);
    StackCell(r.sp);
    StoreWordThenReadWord(m, r.sp - 1, r.pc + 1);
    assert entry.sp + 1 == r.sp - 1;
    ReturnEffect(entry, called.mem);
  }

  /** The `JSL` arm: the address of its own last byte is pushed as a word at
      SP - 1, then the calling bank at SP - 2; apart from SP only PC and the
      program bank change. */
  lemma LongCallEffect(r: Regs, m: Memory)
    requires WellFormed(m) && StackRoom(r, 3)
    requires JumpSubRoutineAbsoluteLongStep(r, m).Ok?
    ensures r.pc + 3 <= 0xFFFF
    ensures var called := JumpSubRoutineAbsoluteLongStep(r, m).value;
      && called.mem == Store(StoreWord(m, r.sp - 1, r.pc + 2), r.sp - 2, r.programBank)
      && called.regs.(pc := r.pc, programBank := r.programBank) == r.(sp := r.sp - 3)
  {
  }

  /** The `RTL` arm: the bank is pulled from SP + 1 and the word at SP + 2 is
      the address of the caller's last byte. */
  lemma LongReturnEffect(r: Regs, m: Memory)
    requires WellFormed(m)
    requires r.sp < 0xFFFD && Readable(m, r.sp + 1) && ReadableWord(m, r.sp + 2)
    ensures ReturnLongStep(r, m)
         == Ok(Machine(r.(sp := r.sp + 3, programBank := Read(m, r.sp + 1),
                          pc := Wrap16(ReadWord(m, r.sp + 2) + 1)), m))
  {
  }

  /** `RTL` over the frame that `JSL` leaves below `sp`: it takes back the
      bank byte and resumes one past the pushed word. */
  lemma LongReturnOverFrame(r: Regs, m: Memory, sp: nat, word: U16, bank: U8)
    requires WellFormed(m) && 3 <= sp <= 0x1FFF && r.sp == sp - 3
    ensures var frame := Store(StoreWord(m, sp - 1, word), sp - 2, bank);
      ReturnLongStep(r, frame)
        == Ok(Machine(r.(sp := sp, programBank := bank, pc := Wrap16(word + 1)), frame))
  {
    var pushedWord := StoreWord(m, sp - 1, word);
    var frame := Store(pushedWord, sp - 2, bank);
    StackCell(sp - 2);
    StackCell(sp - 1);
    StackCell(sp);
    StoreWordThenReadWord(m, sp - 1, word);
    StoreThenRead(pushedWord, sp - 2, bank);
    PushKeepsWordAbove(pushedWord, sp - 1, bank);
    LongReturnEffect(r, frame);
  }

  /** `JSL` then `RTL` resumes right after the three operand bytes of `JSL`,
      back in the calling bank, with every register as it was before the call. */
  lemma LongCallThenReturn(r: Regs, m: Memory, pc: U16, bank: U8)
    requires WellFormed(m) && StackRoom(r, 3)
    requires JumpSubRoutineAbsoluteLongStep(r, m).Ok?
    ensures r.pc + 3 <= 0xFFFF
    ensures var called := JumpSubRoutineAbsoluteLongStep(r, m).value;
      ReturnLongStep(called.regs.(pc := pc, programBank := bank), called.mem)
        == Ok(Machine(r.(pc := r.pc + 3), called.mem))
  {
    LongCallEffect(r, m);
    var called := JumpSubRoutineAbsoluteLongStep(r, m).value;
    var entry := called.regs.(pc := pc, programBank := bank);
    LongReturnOverFrame(entry, m, r.sp, r.pc + 2, r.programBank);
  }

  // ---------------------------------------------------------------------------
  // Operand widths

  /** An immediate operand of one byte (`byte`) or two can be fetched at PC. */
  predicate ImmediateFits(r: Regs, m: Memory, byte: bool) {
    if byte then Readable(m, CurrentAddr(r)) && r.pc < 0xFFFF
    else ReadableWord(m, CurrentAddr(r)) && r.pc < 0xFFFE
  }

  /** The immediate operand at PC, one byte or a little-endian word. */
  function Immediate(r: Regs, m: Memory, byte: bool): U16
    requires ImmediateFits(r, m, byte)
  {
    if byte then Read(m, CurrentAddr(r)) else ReadWord(m, CurrentAddr(r))
  }

  /** The length of an immediate operand. */
  function ImmediateLength(byte: bool): nat {
    if byte then 1 else 2
  }

  /** `LDA #imm` takes one operand byte in 8-bit accumulator mode and two
      otherwise, faults only when that operand cannot be fetched, and loads
      exactly the operand. */
  lemma LoadImmediateWidth(r: Regs, m: Memory)
    requires WellFormed(m)
    ensures LoadAImmediateStep(r, m).Ok? <==> ImmediateFits(r, m, AU8Mode(r))
    ensures ImmediateFits(r, m, AU8Mode(r)) ==>
      var after := LoadAImmediateStep(r, m).value;
      && after.mem == m
      && after.regs.pc == r.pc + ImmediateLength(AU8Mode(r))
      && after.regs.a == Immediate(r, m, AU8Mode(r))
      && after.regs.(a := r.a, pc := r.pc, status := r.status) == r
  {
  }

  /** `LDX #imm` takes one operand byte in 8-bit index mode and two otherwise. */
  lemma LoadXImmediateWidth(r: Regs, m: Memory)
    requires WellFormed(m)
    ensures LoadXImmediateStep(r, m).Ok? <==> ImmediateFits(r, m, XYU8Mode(r))
    ensures ImmediateFits(r, m, XYU8Mode(r)) ==>
      var after := LoadXImmediateStep(r, m).value;
      && after.mem == m
      && after.regs.pc == r.pc + ImmediateLength(XYU8Mode(r))
      && after.regs.x == Immediate(r, m, XYU8Mode(r))
      && after.regs.(x := r.x, pc := r.pc, status := r.status) == r
  {
  }

  /** `LDY #imm` takes one operand byte in 8-bit index mode and two otherwise. */
  lemma LoadYImmediateWidth(r: Regs, m: Memory)
    requires WellFormed(m)
    ensures LoadYImmediateStep(r, m).Ok? <==> ImmediateFits(r, m, XYU8Mode(r))
    ensures ImmediateFits(r, m, XYU8Mode(r)) ==>
      var after := LoadYImmediateStep(r, m).value;
      && after.mem == m
      && after.regs.pc == r.pc + ImmediateLength(XYU8Mode(r))
      && after.regs.y == Immediate(r, m, XYU8Mode(r))
      && after.regs.(y := r.y, pc := r.pc, status := r.status) == r
  {
  }

  /** `ADC #imm` takes one operand byte in 8-bit accumulator mode and two
      otherwise, and adds exactly that operand at that width. */
  lemma AddImmediateWidth(r: Regs, m: Memory)
    requires WellFormed(m)
    ensures AddWithCarryImmediateStep(r, m).Ok? <==> ImmediateFits(r, m, AU8Mode(r))
    ensures ImmediateFits(r, m, AU8Mode(r)) ==>
      var after := AddWithCarryImmediateStep(r, m).value;
      var sum := if AU8Mode(r) then AdcU8(r.a, r.status, Read(m, CurrentAddr(r)))
                 else AdcU16(r.a, r.status, ReadWord(m, CurrentAddr(r)));
      && after.mem == m
      && after.regs.pc == r.pc + ImmediateLength(AU8Mode(r))
      && after.regs.a == sum.target && after.regs.status == sum.status
      && after.regs.(a := r.a, pc := r.pc, status := r.status) == r
  {
  }

  /** `CMP #imm` compares A with one operand byte in 8-bit accumulator mode
      and with a word otherwise. */
  lemma CompareImmediateWidth(r: Regs, m: Memory)
    requires WellFormed(m)
    ensures CompareImmediateStep(r, m).Ok? <==> ImmediateFits(r, m, AU8Mode(r))
    ensures ImmediateFits(r, m, AU8Mode(r)) ==>
      var after := CompareImmediateStep(r, m).value;
      && after.mem == m
      && after.regs.pc == r.pc + ImmediateLength(AU8Mode(r))
      && after.regs.status
         == (if AU8Mode(r) then CompareU8(r.status, r.a % 0x100, Read(m, CurrentAddr(r)))
             else CompareU16(r.status, r.a, ReadWord(m, CurrentAddr(r))))
      && after.regs.(pc := r.pc, status := r.status) == r
  {
  }

  /** `CPX #imm` compares X with one operand byte in 8-bit index mode and
      with a word otherwise. */
  lemma CompareXImmediateWidth(r: Regs, m: Memory)
    requires WellFormed(m)
    ensures CompareXImmediateStep(r, m).Ok? <==> ImmediateFits(r, m, XYU8Mode(r))
    ensures ImmediateFits(r, m, XYU8Mode(r)) ==>
      var after := CompareXImmediateStep(r, m).value;
      && after.mem == m
      && after.regs.pc == r.pc + ImmediateLength(XYU8Mode(r))
      && after.regs.status
         == (if XYU8Mode(r) then CompareU8(r.status, r.x % 0x100, Read(m, CurrentAddr(r)))
             else CompareU16(r.status, r.x, ReadWord(m, CurrentAddr(r))))
      && after.regs.(pc := r.pc, status := r.status) == r
  {
  }

  /** `STZ dp`, as written, takes a two-byte operand and adds the whole word
      to the direct page register: the instruction is three bytes long. */
  lemma StoreZeroDirectPageWidth(r: Regs, m: Memory)
    requires WellFormed(m) && StoreZeroDirectPageStep(r, m).Ok?
    ensures ReadableWord(m, CurrentAddr(r))
    ensures StoreZeroDirectPageStep(r, m).value
         == Machine(r.(pc := r.pc + 2), Store(m, r.directPage + ReadWord(m, CurrentAddr(r)), 0))
  {
  }

  // ---------------------------------------------------------------------------
  // What each family leaves alone

  /** A compare only moves PC past its operand and sets N, Z and C: the
      registers and the memory are otherwise unchanged. */
  lemma CompareKeepsRegisters(r: Regs, m: Memory, op: CompareOp)
    requires WellFormed(m) && CompareStep(r, m, op).Ok?
    ensures var after := CompareStep(r, m, op).value;
      && after.mem == m
      && after.regs.(pc := r.pc, status := r.status) == r
      && SameOutside(after.regs.status, r.status, NZC)
  {
  }

  /** A load only writes its target register, moves PC past its operand and
      sets N and Z; the memory is unchanged. */
  lemma LoadKeepsOthers(r: Regs, m: Memory, op: LoadOp)
    requires WellFormed(m) && LoadStep(r, m, op).Ok?
    ensures var after := LoadStep(r, m, op).value;
      && after.mem == m
      && after.regs.(a := r.a, x := r.x, y := r.y, pc := r.pc, status := r.status) == r
      && SameOutside(after.regs.status, r.status, NZ)
  {
    match op
    case LoadAImmediate =>
    case LoadAAbsolute =>
    case LoadADirectPage =>
    case LoadADirectPageIndirectLong =>
    case LoadAAbsoluteIndexedX =>
    case LoadAAbsoluteLongIndexedX =>
    case LoadAAbsoluteIndexedY =>
    case LoadXImmediate =>
    case LoadXDirectPage =>
    case LoadYImmediate =>
    case LoadYDirectPage =>
  }

  /** A store only moves PC past its operand: no register or flag changes. */
  lemma StoreKeepsRegisters(r: Regs, m: Memory, op: StoreOp)
    requires WellFormed(m) && StoreStep(r, m, op).Ok?
    ensures StoreStep(r, m, op).value.regs.(pc := r.pc) == r
  {
  }

  // ---------------------------------------------------------------------------
  // Counting, transfers and branches

  /** N and Z describe the byte `v` and no other bit of `before` moved. */
  predicate FlagsOf8(status: Flags, before: Flags, v: U8) {
    && (Contains(status, NEGATIVE) <==> v >= 0x80)
    && (Contains(status, ZERO) <==> v == 0)
    && SameOutside(status, before, NZ)
  }

  /** N and Z describe the word `v` and no other bit of `before` moved. */
  predicate FlagsOf16(status: Flags, before: Flags, v: U16) {
    && (Contains(status, NEGATIVE) <==> v >= 0x8000)
    && (Contains(status, ZERO) <==> v == 0)
    && SameOutside(status, before, NZ)
  }

  /** The flags `NZ16` leaves describe the word. */
  lemma NZ16Describes(status: Flags, v: U16)
    ensures FlagsOf16(NZ16(status, v), status, v)
  {
    Bit15OfWord(v);
  }

  /** `INC dp` adds one, modulo 256, to the byte at the 32-bit sum D + operand
      and sets N and Z from the new byte; it faults only when the operand or
      that byte cannot be read, and changes no register but PC and N, Z. */
  lemma IncrementDirectPageEffect(r: Regs, m: Memory)
    requires WellFormed(m)
    ensures IncrementDirectPageStep(r, m).Ok?
        <==> Readable(m, CurrentAddr(r)) && r.pc < 0xFFFF
             && Readable(m, r.directPage + Read(m, CurrentAddr(r)))
    ensures IncrementDirectPageStep(r, m).Ok? ==>
      var addr := r.directPage + Read(m, CurrentAddr(r));
      var v := (Read(m, addr) + 1) % 0x100;
      var after := IncrementDirectPageStep(r, m).value;
      && after.mem == Store(m, addr, v)
      && FlagsOf8(after.regs.status, r.status, v)
      && after.regs == r.(pc := r.pc + 1, status := after.regs.status)
  {
  }

  /** `INX` and `INY` add one to their register modulo 2^16 and set N and Z
      from the 16-bit result; nothing else changes. */
  lemma IndexIncrement(r: Regs, m: Memory)
    requires WellFormed(m)
    ensures var after := IncrementXStep(r, m).value;
      && after.mem == m && after.regs.x == (r.x + 1) % 0x1_0000
      && FlagsOf16(after.regs.status, r.status, after.regs.x)
      && after.regs.(x := r.x, status := r.status) == r
    ensures var after := IncrementYStep(r, m).value;
      && after.mem == m && after.regs.y == (r.y + 1) % 0x1_0000
      && FlagsOf16(after.regs.status, r.status, after.regs.y)
      && after.regs.(y := r.y, status := r.status) == r
  {
    NZ16Describes(r.status, Wrap16(r.x + 1));
    NZ16Describes(r.status, Wrap16(r.y + 1));
  }

  /** `DEX` and `DEY` subtract one from their register modulo 2^16 (0 wraps
      to 0xFFFF) and set N and Z from the 16-bit result; nothing else
      changes. */
  lemma IndexDecrement(r: Regs, m: Memory)
    requires WellFormed(m)
    ensures var after := DecrementXStep(r, m).value;
      && after.mem == m && after.regs.x == (r.x - 1) % 0x1_0000
      && FlagsOf16(after.regs.status, r.status, after.regs.x)
      && after.regs.(x := r.x, status := r.status) == r
    ensures var after := DecrementYStep(r, m).value;
      && after.mem == m && after.regs.y == (r.y - 1) % 0x1_0000
      && FlagsOf16(after.regs.status, r.status, after.regs.y)
      && after.regs.(y := r.y, status := r.status) == r
  {
    NZ16Describes(r.status, Wrap16(r.x - 1));
    NZ16Describes(r.status, Wrap16(r.y - 1));
  }

  /** `TAX`, `TAY`, `TDC` and `TXS` copy the whole 16-bit source into the
      target, whatever the register widths, and set N and Z from it at 16
      bits; nothing else changes. */
  lemma TransferCopies(r: Regs, m: Memory)
    requires WellFormed(m)
    ensures var after := MoveAXStep(r, m).value;
      && after.mem == m && after.regs.x == r.a
      && FlagsOf16(after.regs.status, r.status, r.a)
      && after.regs.(x := r.x, status := r.status) == r
    ensures var after := MoveAYStep(r, m).value;
      && after.mem == m && after.regs.y == r.a
      && FlagsOf16(after.regs.status, r.status, r.a)
      && after.regs.(y := r.y, status := r.status) == r
    ensures var after := MoveDAStep(r, m).value;
      && after.mem == m && after.regs.a == r.directPage
      && FlagsOf16(after.regs.status, r.status, r.directPage)
      && after.regs.(a := r.a, status := r.status) == r
    ensures var after := MoveXSPStep(r, m).value;
      && after.mem == m && after.regs.sp == r.x
      && FlagsOf16(after.regs.status, r.status, r.x)
      && after.regs.(sp := r.sp, status := r.status) == r
  {
  }

  /** The condition each relative branch tests: `BCC` carry clear, `BCS`
      carry set, `BNE` zero clear, `BEQ` zero set, `BRA` none. */
  predicate BranchTaken(op: BranchOp, status: Flags) {
    match op
    case BranchCarryClear => status & CARRY == 0
    case BranchCarrySet => status & CARRY != 0
    case BranchNotEqual => status & ZERO == 0
    case BranchEqual => status & ZERO != 0
    case BranchAlways => true
  }

  /** A branch faults only when its displacement byte cannot be fetched; it
      then moves PC past that byte and, when its condition holds, on by the
      signed displacement within the bank. Nothing else changes. */
  lemma BranchEffect(r: Regs, m: Memory, op: BranchOp)
    requires WellFormed(m)
    ensures BranchStep(r, m, op).Ok? <==> Readable(m, CurrentAddr(r)) && r.pc < 0xFFFF
    ensures BranchStep(r, m, op).Ok? ==>
      var after := BranchStep(r, m, op).value;
      && after.mem == m
      && after.regs.pc == Branch(r.pc + 1, Read(m, CurrentAddr(r)), BranchTaken(op, r.status))
      && after.regs.(pc := r.pc) == r
  {
  }

  // ---------------------------------------------------------------------------
  // Flags and modes

  /** `REP` clears exactly the status bits named by its operand byte. */
  lemma ResetFlagsClearsMask(r: Regs, m: Memory)
    requires WellFormed(m) && ResetFlagsStep(r, m).Ok?
    ensures var mask := Read(m, CurrentAddr(r)) as bv8;
      var after := ResetFlagsStep(r, m).value.regs;
      && after.status & mask == 0
      && SameOutside(after.status, r.status, mask)
      && after.(status := r.status, pc := r.pc) == r
  {
  }

  /** `SEP` sets exactly the status bits named by its operand byte. */
  lemma SetFlagsSetsMask(r: Regs, m: Memory)
    requires WellFormed(m) && SetFlagsStep(r, m).Ok?
    ensures var mask := Read(m, CurrentAddr(r)) as bv8;
      var after := SetFlagsStep(r, m).value.regs;
      && Contains(after.status, mask)
      && SameOutside(after.status, r.status, mask)
      && after.(status := r.status, pc := r.pc) == r
  {
  }

  /** `REP #$30` in native mode widens the accumulator and the index
      registers to 16 bits; `SEP #$30` narrows both to 8 bits. */
  lemma WidthSwitches(r: Regs, m: Memory)
    requires WellFormed(m) && Readable(m, CurrentAddr(r)) && r.pc < 0xFFFF
    requires Read(m, CurrentAddr(r)) == 0x30
    ensures !r.emulation ==> !AU8Mode(ResetFlagsStep(r, m).value.regs)
    ensures !r.emulation ==> !XYU8Mode(ResetFlagsStep(r, m).value.regs)
    ensures AU8Mode(SetFlagsStep(r, m).value.regs) && XYU8Mode(SetFlagsStep(r, m).value.regs)
  {
  }

  /** `XCE`, as written, copies the carry into the emulation bit and then
      inverts the carry; no other flag or register moves. */
  lemma ExchangeCEEffect(r: Regs, m: Memory)
    requires WellFormed(m)
    ensures ExchangeCEStep(r, m).Ok?
    ensures var after := ExchangeCEStep(r, m).value.regs;
      && after.emulation == Contains(r.status, CARRY)
      && (Contains(after.status, CARRY) <==> !Contains(r.status, CARRY))
      && SameOutside(after.status, r.status, CARRY)
      && after.(emulation := r.emulation, status := r.status) == r
  {
  }

  // ---------------------------------------------------------------------------
  // Quirks of the arms as written

  /** `ASL A`, as written, takes Z from the Y register: shifting 0x80 out of
      an 8-bit accumulator leaves A zero but Z clear whenever Y is non-zero. */
  lemma ShiftLeftZeroFromY(r: Regs, m: Memory)
    requires WellFormed(m)
    ensures var after := ShiftLeftStep(r, m).value.regs;
      && after.a == (r.a % 0x100) * 2 % 0x100
      && (Contains(after.status, ZERO) <==> r.y == 0)
      && (Contains(after.status, CARRY) <==> r.a % 0x100 >= 0x80)
    ensures r.a == 0x80 && r.y == 1 ==>
      ShiftLeftStep(r, m).value.regs.a == 0 && !Contains(ShiftLeftStep(r, m).value.regs.status, ZERO)
  {
    Bit7OfByte(r.a % 0x100);
  }

  /** `XBA` swaps the two bytes of A, so doing it twice gives A back; as
      written, N and Z both come from bit 0 of the new A. */
  lemma ExchangeBATwice(r: Regs, m: Memory)
    requires WellFormed(m)
    ensures var once := ExchangeBAStep(r, m).value.regs;
      && once.a == (r.a % 0x100) * 0x100 + r.a / 0x100
      && (Contains(once.status, ZERO) <==> once.a % 2 == 1)
      && (Contains(once.status, NEGATIVE) <==> once.a % 2 == 1)
      && ExchangeBAStep(once, m).value.regs.a == r.a
  {
    SwapBytesTwice(r.a);
  }

  /** Swapping the bytes of a word twice gives the word back. */
  lemma SwapBytesTwice(a: U16)
    ensures var b := (a % 0x100) * 0x100 + a / 0x100;
      b < 0x1_0000 && (b % 0x100) * 0x100 + b / 0x100 == a
  {
    var b := (a % 0x100) * 0x100 + a / 0x100;
    assert b % 0x100 == a / 0x100 && b / 0x100 == a % 0x100;
  }

  // ---------------------------------------------------------------------------
  // The block move

  /** However many bytes `MVN` copies, it ends with A = 0xFFFF and X and Y
      each advanced by the count, modulo 2^16; no other register moves. */
  lemma {:induction false} MoveLoopRegisters(r: Regs, m: Memory, src: U8)
    requires WellFormed(m) && MoveLoop(r, m, src).Ok?
    ensures MoveLoop(r, m, src).value.regs
         == r.(a := 0xFFFF, x := (r.x + MoveCount(r.a)) % 0x1_0000,
               y := (r.y + MoveCount(r.a)) % 0x1_0000)
    decreases MoveCount(r.a)
  {
    if r.a != 0xFFFF {
      MoveStep(r, m, src);
      var next := MoveNext(r);
      var m' := Store(m, BankAddr(r.dataBank, r.y), Read(m, BankAddr(src, r.x)));
      MoveLoopRegisters(next, m', src);
      MoveNextRegisters(r);
    }
  }

  /** The final registers the loop promises are the same whether counted
      from `r` or from the registers after one more iteration. */
  lemma MoveNextRegisters(r: Regs)
    requires r.a != 0xFFFF
    ensures var next := MoveNext(r);
      next.(a := 0xFFFF, x := (next.x + MoveCount(next.a)) % 0x1_0000,
            y := (next.y + MoveCount(next.a)) % 0x1_0000)
      == r.(a := 0xFFFF, x := (r.x + MoveCount(r.a)) % 0x1_0000,
            y := (r.y + MoveCount(r.a)) % 0x1_0000)
  {
    var next := MoveNext(r);
    assert MoveCount(next.a) + 1 == MoveCount(r.a);
    WrapThenAdd(r.x, MoveCount(next.a));
    WrapThenAdd(r.y, MoveCount(next.a));
  }

  /** Incrementing modulo 2^16 and then adding `n` modulo 2^16 is adding
      `n + 1` modulo 2^16. */
  lemma WrapThenAdd(v: U16, n: nat)
    ensures (Wrap16(v + 1) + n) % 0x1_0000 == (v + (n + 1)) % 0x1_0000
  {
    if v + 1 == 0x1_0000 {
      assert Wrap16(v + 1) == 0;
      assert v + (n + 1) == n + 0x1_0000;
    }
  }

  /** The loop copies nothing when A = 0xFFFF on entry, and exactly one byte,
      from (source bank, X) to (data bank, Y), when A = 0. */
  lemma MoveLoopSmallCounts(r: Regs, m: Memory, src: U8)
    requires WellFormed(m)
    ensures r.a == 0xFFFF ==> MoveLoop(r, m, src) == Ok(Machine(r, m))
    ensures r.a == 0 && Readable(m, BankAddr(src, r.x)) ==>
      MoveLoop(r, m, src).Ok? &&
      MoveLoop(r, m, src).value.mem == Store(m, BankAddr(r.dataBank, r.y), Read(m, BankAddr(src, r.x)))
  {
  }

  /** The `MVN` arm fetches the destination bank first and the source bank
      second, makes the destination the data bank, and then runs the copy
      loop from PC past both operands. */
  lemma BlockMoveNextEffect(r: Regs, m: Memory)
    requires WellFormed(m)
    ensures BlockMoveNextStep(r, m).Ok? ==>
      && r.pc < 0xFFFE && Readable(m, CurrentAddr(r)) && Readable(m, CurrentAddr(r) + 1)
      && BlockMoveNextStep(r, m)
         == MoveLoop(r.(pc := r.pc + 2, dataBank := Read(m, CurrentAddr(r))), m,
                     Read(m, CurrentAddr(r) + 1))
  {
  }

  /** The source address of iteration `i` of a loop entered with `r`. */
  function MoveSource(r: Regs, src: U8, i: nat): U32 {
    BankAddr(src, (r.x + i) % 0x1_0000)
  }

  /** The destination address of iteration `i` of a loop entered with `r`. */
  function MoveDest(r: Regs, i: nat): U32 {
    BankAddr(r.dataBank, (r.y + i) % 0x1_0000)
  }

  /** A store at `a` reaches the cell that `b` names. */
  predicate Hits(a: U32, b: U32) {
    Writable(a) && Decode(a) == Decode(b)
  }

  /** No iteration of the loop from `r` stores into the cell `b` names. */
  predicate Untouched(r: Regs, b: U32) {
    forall i :: 0 <= i < MoveCount(r.a) ==> !Hits(MoveDest(r, i), b)
  }

  /** No iteration after `k` stores into the cell iteration `k` wrote. */
  predicate KeptAfter(r: Regs, k: nat) {
    forall j :: k < j < MoveCount(r.a) ==> !Hits(MoveDest(r, j), MoveDest(r, k))
  }

  /** No iteration before `k` stores into the cell iteration `k` reads. */
  predicate IntactBefore(r: Regs, src: U8, k: nat) {
    forall j :: 0 <= j < k ==> !Hits(MoveDest(r, j), MoveSource(r, src, k))
  }

  /** Iteration 0 of the loop from `r` copies (source bank, X) to (data
      bank, Y). */
  lemma MoveFirst(r: Regs, src: U8)
    ensures MoveSource(r, src, 0) == BankAddr(src, r.x)
    ensures MoveDest(r, 0) == BankAddr(r.dataBank, r.y)
  {
  }

  /** Iteration `i + 1` of the loop from `r` is iteration `i` of the loop
      from the registers after one step. */
  lemma MoveShift(r: Regs, src: U8, i: nat)
    ensures MoveSource(MoveNext(r), src, i) == MoveSource(r, src, i + 1)
    ensures MoveDest(MoveNext(r), i) == MoveDest(r, i + 1)
  {
    WrapThenAdd(r.x, i);
    WrapThenAdd(r.y, i);
  }

  /** A store changes what is stored, never whether an address can be read. */
  lemma StoreKeepsReadable(m: Memory, a: U32, value: U8, b: U32)
    requires WellFormed(m)
    ensures Readable(Store(m, a, value), b) <==> Readable(m, b)
  {
  }

  /** A store that does not reach the cell `b` names leaves its byte. */
  lemma StoreMisses(m: Memory, a: U32, value: U8, b: U32)
    requires WellFormed(m) && Readable(Store(m, a, value), b) && !Hits(a, b)
    ensures Readable(m, b) && Read(Store(m, a, value), b) == Read(m, b)
  {
    StoreKeepsReadable(m, a, value, b);
    ReadAfterStore(m, a, value, b);
  }

  /** The loop faults exactly when one of the source bytes it would copy
      cannot be read (an unimplemented bank or a ROM index past the image). */
  lemma {:induction false} MoveLoopFaults(r: Regs, m: Memory, src: U8)
    requires WellFormed(m)
    ensures MoveLoop(r, m, src) == Fault
        <==> exists i :: 0 <= i < MoveCount(r.a) && !Readable(m, MoveSource(r, src, i))
    decreases MoveCount(r.a)
  {
    if r.a != 0xFFFF {
      MoveFirst(r, src);
      if Readable(m, BankAddr(src, r.x)) {
        var next := MoveNext(r);
        var m' := Store(m, BankAddr(r.dataBank, r.y), Read(m, BankAddr(src, r.x)));
        MoveLoopFaults(next, m', src);
        if MoveLoop(r, m, src) == Fault {
          var i :| 0 <= i < MoveCount(next.a) && !Readable(m', MoveSource(next, src, i));
          MoveShift(r, src, i);
          StoreKeepsReadable(m, BankAddr(r.dataBank, r.y), Read(m, BankAddr(src, r.x)),
                             MoveSource(r, src, i + 1));
        } else {
          forall i | 0 <= i < MoveCount(r.a)
            ensures Readable(m, MoveSource(r, src, i))
          {
            if i > 0 {
              MoveShift(r, src, i - 1);
              StoreKeepsReadable(m, BankAddr(r.dataBank, r.y), Read(m, BankAddr(src, r.x)),
                                 MoveSource(r, src, i));
            }
          }
        }
      }
    }
  }

  /** A readable cell that no destination of the loop reaches keeps its
      byte. */
  lemma {:induction false} MoveLoopFrame(r: Regs, m: Memory, src: U8, b: U32)
    requires WellFormed(m) && MoveLoop(r, m, src).Ok? && Readable(m, b)
    requires Untouched(r, b)
    ensures Readable(MoveLoop(r, m, src).value.mem, b)
    ensures Read(MoveLoop(r, m, src).value.mem, b) == Read(m, b)
    decreases MoveCount(r.a)
  {
    if r.a != 0xFFFF {
      MoveFirst(r, src);
      MoveStep(r, m, src);
      var next := MoveNext(r);
      var m' := Store(m, BankAddr(r.dataBank, r.y), Read(m, BankAddr(src, r.x)));
      ReadAfterStore(m, BankAddr(r.dataBank, r.y), Read(m, BankAddr(src, r.x)), b);
      forall i | 0 <= i < MoveCount(next.a)
        ensures !Hits(MoveDest(next, i), b)
      {
        MoveShift(r, src, i);
      }
      assert Untouched(next, b);
      MoveLoopFrame(next, m', src, b);
    }
  }

  /** The first iteration's copy survives the rest of the loop when no later
      iteration stores into the same cell. */
  lemma MoveLoopCopiesFirst(r: Regs, m: Memory, src: U8)
    requires WellFormed(m) && MoveLoop(r, m, src).Ok? && r.a != 0xFFFF
    requires Writable(MoveDest(r, 0)) && KeptAfter(r, 0)
    ensures Readable(m, MoveSource(r, src, 0))
    ensures Readable(MoveLoop(r, m, src).value.mem, MoveDest(r, 0))
    ensures Read(MoveLoop(r, m, src).value.mem, MoveDest(r, 0)) == Read(m, MoveSource(r, src, 0))
  {
    MoveFirst(r, src);
    MoveStep(r, m, src);
    var next := MoveNext(r);
    var dest, from := BankAddr(r.dataBank, r.y), BankAddr(src, r.x);
    var m' := Store(m, dest, Read(m, from));
    StoreThenRead(m, dest, Read(m, from));
    forall i | 0 <= i < MoveCount(next.a)
      ensures !Hits(MoveDest(next, i), dest)
    {
      MoveShift(r, src, i);
      assert !Hits(MoveDest(r, i + 1), MoveDest(r, 0));
    }
    assert Untouched(next, dest);
    MoveLoopFrame(next, m', src, dest);
  }

  /** The premises of the copy for iteration `k` of the loop from `r` are
      those for iteration `k - 1` of the loop from the next registers. */
  lemma MoveShiftPremises(r: Regs, src: U8, k: nat)
    requires 1 <= k < MoveCount(r.a) && r.a != 0xFFFF
    requires KeptAfter(r, k) && IntactBefore(r, src, k)
    ensures KeptAfter(MoveNext(r), k - 1) && IntactBefore(MoveNext(r), src, k - 1)
  {
    var next := MoveNext(r);
    assert MoveCount(next.a) + 1 == MoveCount(r.a);
    MoveShift(r, src, k - 1);
    forall j | k - 1 < j < MoveCount(next.a)
      ensures !Hits(MoveDest(next, j), MoveDest(next, k - 1))
    {
      MoveShift(r, src, j);
      assert !Hits(MoveDest(r, j + 1), MoveDest(r, k));
    }
    forall j | 0 <= j < k - 1
      ensures !Hits(MoveDest(next, j), MoveSource(next, src, k - 1))
    {
      MoveShift(r, src, j);
      assert !Hits(MoveDest(r, j + 1), MoveSource(r, src, k));
    }
  }

  /** Iteration `k` copies the byte at its source to its destination, and the
      copy survives to the end of the loop: it holds when the destination is
      writable, no later iteration writes the same cell again, and no earlier
      one overwrote the source first. */
  lemma {:induction false} MoveLoopCopies(r: Regs, m: Memory, src: U8, k: nat)
    requires WellFormed(m) && MoveLoop(r, m, src).Ok? && k < MoveCount(r.a)
    requires Writable(MoveDest(r, k)) && KeptAfter(r, k) && IntactBefore(r, src, k)
    ensures Readable(m, MoveSource(r, src, k))
    ensures Readable(MoveLoop(r, m, src).value.mem, MoveDest(r, k))
    ensures Read(MoveLoop(r, m, src).value.mem, MoveDest(r, k)) == Read(m, MoveSource(r, src, k))
    decreases k
  {
    if k == 0 {
      MoveLoopCopiesFirst(r, m, src);
    } else {
      MoveFirst(r, src);
      MoveStep(r, m, src);
      var next := MoveNext(r);
      var dest, from := BankAddr(r.dataBank, r.y), BankAddr(src, r.x);
      var m' := Store(m, dest, Read(m, from));
      MoveShift(r, src, k - 1);
      MoveShiftPremises(r, src, k);
      MoveLoopCopies(next, m', src, k - 1);
      StoreMisses(m, dest, Read(m, from), MoveSource(r, src, k));
    }
  }

  // ---------------------------------------------------------------------------
  // Direct-page sums

  /** The direct-page sums are taken in 32 bits, so they can carry into bank
      1 or 2 where the hardware would wrap within bank 0. In this memory map
      the carry is invisible to the stores: the carried address and its bank-0
      wrap-around are writable together and name the same cell. */
  lemma DirectPageCarryHarmless(a: U32)
    requires a < 0x3_0000
    ensures Writable(a) <==> Writable(a % 0x1_0000)
    ensures Writable(a) ==> Decode(a) == Decode(a % 0x1_0000)
  {
  }

  /** The direct-page sums of the 8-bit-operand arms stay below 0x1_0100, so
      a load through them always reads the RAM cell of the bank-0 wrap-around. */
  lemma DirectPageLoadInRam(r: Regs, operand: U8, k: nat)
    requires k <= 2
    ensures DirectAddr(r, operand) + k < 0x1_0102
    ensures DirectAddr(r, operand) + k >= 0x1_0000 ==>
      Decode(DirectAddr(r, operand) + k) == Ram((DirectAddr(r, operand) + k) % 0x1_0000)
  {
  }
}
