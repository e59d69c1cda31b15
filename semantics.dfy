/** What one `Cpu::tick` of src/cpu.rs does, as a function of the register
    file and the memory.

    `Step` is the specification that the imperative `Cpu.Tick` in module
    `Processor` is proved to implement. A Rust panic (a `u16` overflow of PC or
    SP, a read of an unimplemented bank, a cartridge index past the image) makes
    the step `Fault`; `Tick` requires that this does not happen. */
module CpuSemantics {
  import opened Bits
  import opened Status
  import opened Ops
  import opened MemoryMap

  /** The register file of `Cpu` (the debug-only `sp_base` is not kept). */
  datatype Regs = Regs(
    a: U16, x: U16, y: U16,
    pc: U16, sp: U16, directPage: U16,
    programBank: U8, dataBank: U8,
    status: Flags, emulation: bool)

  /** The registers as `Cpu::new` sets them. */
  const POWER_ON: Regs := Regs(0, 0, 0, 0, 0x1FF, 0, 0, 0, EMPTY, true)

  /** Outcome of a step: the new state, or the panic that ends the program. */
  datatype Result<T> = Ok(value: T) | Fault {
    predicate IsFailure() {
      Fault?
    }
    function PropagateFailure<U>(): Result<U>
      requires Fault?
    {
      Fault
    }
    function Extract(): T
      requires Ok?
    {
      value
    }
  }

  datatype Machine = Machine(regs: Regs, mem: Memory)

  /** A value produced by a fetch or a pull, with the registers after it. */
  datatype Taken<T> = Taken(value: T, regs: Regs)

  /** `bank_addr`: the bank in bits 16-23 and the offset in bits 0-15. */
  function BankAddr(bank: U8, addr: U16): (r: U32)
    ensures r < 0x100_0000
    ensures (r / 0x1_0000) % 0x100 == bank && r % 0x1_0000 == addr
  {
    bank * 0x1_0000 + addr
  }

  /** `current_addr`: where the next instruction byte is fetched from. */
  function CurrentAddr(r: Regs): U32 {
    BankAddr(r.programBank, r.pc)
  }

  /** `a_u8_mode`: the accumulator is 8 bits wide. */
  predicate AU8Mode(r: Regs) {
    r.emulation || Contains(r.status, MEMORY_SELECT)
  }

  /** `xy_u8_mode`: the index registers are 8 bits wide. */
  predicate XYU8Mode(r: Regs) {
    r.emulation || Contains(r.status, INDEX_REGISTER)
  }

  // ---------------------------------------------------------------------------
  // Instruction stream and stack

  /** `fetch_u8`: read at (program bank, PC), then `pc += 1`. */
  function Fetch8(r: Regs, m: Memory): Result<Taken<U8>> {
    var addr := CurrentAddr(r);
    if Readable(m, addr) && r.pc < 0xFFFF then Ok(Taken(Read(m, addr), r.(pc := r.pc + 1)))
    else Fault
  }

  /** `fetch_u16`: a little-endian word, then `pc += 2`. */
  function Fetch16(r: Regs, m: Memory): Result<Taken<U16>> {
    var addr := CurrentAddr(r);
    if ReadableWord(m, addr) && r.pc < 0xFFFE then Ok(Taken(ReadWord(m, addr), r.(pc := r.pc + 2)))
    else Fault
  }

  /** `fetch_long`: a 24-bit little-endian address, then `pc += 3`. */
  function FetchLong(r: Regs, m: Memory): Result<Taken<U32>> {
    var addr := CurrentAddr(r);
    if ReadableLong(m, addr) && r.pc < 0xFFFD then Ok(Taken(ReadLong(m, addr), r.(pc := r.pc + 3)))
    else Fault
  }

  /** `push_u8`: store at SP in bank 0, then `sp -= 1`. */
  function Push8(r: Regs, m: Memory, value: U8): Result<Machine>
    requires WellFormed(m)
  {
    if r.sp == 0 then Fault
    else Ok(Machine(r.(sp := r.sp - 1), Store(m, r.sp, value)))
  }

  /** `push_u16`: one word store at SP - 1, then `sp -= 2`. */
  function Push16(r: Regs, m: Memory, value: U16): Result<Machine>
    requires WellFormed(m)
  {
    if r.sp < 2 then Fault
    else Ok(Machine(r.(sp := r.sp - 2), StoreWord(m, r.sp - 1, value)))
  }

  /** `pull_u8`: `sp += 1`, then read at SP. */
  function Pull8(r: Regs, m: Memory): Result<Taken<U8>> {
    if r.sp < 0xFFFF && Readable(m, r.sp + 1) then Ok(Taken(Read(m, r.sp + 1), r.(sp := r.sp + 1)))
    else Fault
  }

  /** `pull_u16`: `sp += 2`, then read the word at SP - 1. */
  function Pull16(r: Regs, m: Memory): Result<Taken<U16>> {
    if r.sp < 0xFFFE && ReadableWord(m, r.sp + 1) then Ok(Taken(ReadWord(m, r.sp + 1), r.(sp := r.sp + 2)))
    else Fault
  }

  // ---------------------------------------------------------------------------
  // Register updates shared by several arms

  function WithA(r: Regs, w: Written): Regs { r.(a := w.target, status := w.status) }
  function WithX(r: Regs, w: Written): Regs { r.(x := w.target, status := w.status) }
  function WithY(r: Regs, w: Written): Regs { r.(y := w.target, status := w.status) }
  function WithD(r: Regs, w: Written): Regs { r.(directPage := w.target, status := w.status) }

  /** N from bit 7 and Z from zero, as the inline `status.set` pairs do. */
  function NZ8(status: Flags, v: U8): Flags {
    SetNZ(status, Bit7(v), v == 0)
  }

  /** N from bit 15 and Z from zero. */
  function NZ16(status: Flags, v: U16): Flags {
    SetNZ(status, Bit15(v), v == 0)
  }

  /** The direct-page sum `direct_page as u32 + addr as u32`: done in 32 bits,
      so it can carry into the bank byte. */
  function DirectAddr(r: Regs, operand: U16): U32 {
    r.directPage + operand
  }

  /** An 8-bit accumulator load from `addr`. */
  function LoadAFrom(r: Regs, m: Memory, addr: U32): Result<Machine> {
    if Readable(m, addr) then Ok(Machine(WithA(r, LoadU8(r.status, Read(m, addr))), m))
    else Fault
  }

  /** An 8-bit compare of the accumulator's low byte with the byte at `addr`. */
  function CompareAWith(r: Regs, m: Memory, addr: U32): Result<Machine> {
    if Readable(m, addr) then Ok(Machine(r.(status := CompareU8(r.status, Low8(r.a), Read(m, addr))), m))
    else Fault
  }

  /** An add-with-carry from `addr` at the accumulator's width. */
  function AdcFrom(r: Regs, m: Memory, addr: U32): Result<Machine> {
    if AU8Mode(r) then
      if Readable(m, addr) then Ok(Machine(WithA(r, AdcU8(r.a, r.status, Read(m, addr))), m))
      else Fault
    else
      if ReadableWord(m, addr) then Ok(Machine(WithA(r, AdcU16(r.a, r.status, ReadWord(m, addr))), m))
      else Fault
  }

  /** A 16-bit index load from `addr` (LDX/LDY direct page are always 16-bit). */
  function LoadWordFrom(m: Memory, addr: U32): Result<U16> {
    if ReadableWord(m, addr) then Ok(ReadWord(m, addr)) else Fault
  }

  /** A branch on `cond` with the displacement fetched from the stream. */
  function BranchIf(r: Regs, m: Memory, cond: bool): Result<Machine> {
    var f :- Fetch8(r, m);
    Ok(Machine(f.regs.(pc := Branch(f.regs.pc, f.value, cond)), m))
  }

  // ---------------------------------------------------------------------------
  // The block move loop

  /** Iterations left before the `while self.a != 0xFFFF` loop stops. */
  function MoveCount(a: U16): nat {
    if a == 0xFFFF then 0 else a + 1
  }

  /** The `MVN` loop: copy (src, X) to (data bank, Y), decrement A, increment
      X and Y, until A wraps to 0xFFFF. */
  function MoveLoop(r: Regs, m: Memory, src: U8): Result<Machine>
    requires WellFormed(m)
    decreases MoveCount(r.a)
  {
    if r.a == 0xFFFF then Ok(Machine(r, m))
    else
      var from := BankAddr(src, r.x);
      if !Readable(m, from) then Fault
      else
        var m' := Store(m, BankAddr(r.dataBank, r.y), Read(m, from));
        MoveLoop(MoveNext(r), m', src)
  }

  /** The registers after one iteration of the `MVN` loop. */
  function MoveNext(r: Regs): Regs {
    Regs(Wrap16(r.a - 1), Wrap16(r.x + 1), Wrap16(r.y + 1), r.pc, r.sp, r.directPage,
         r.programBank, r.dataBank, r.status, r.emulation)
  }

  /** One iteration of the `MVN` loop, for the loop's proof. */
  lemma MoveStep(r: Regs, m: Memory, src: U8)
    requires WellFormed(m) && MoveLoop(r, m, src).Ok? && r.a != 0xFFFF
    ensures Readable(m, BankAddr(src, r.x))
    ensures MoveLoop(r, m, src)
         == MoveLoop(MoveNext(r), Store(m, BankAddr(r.dataBank, r.y), Read(m, BankAddr(src, r.x))), src)
  {
  }
}
