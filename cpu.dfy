/** The execution engine of src/cpu.rs: the `Cpu` object whose fields `tick`
    updates in place, one instruction per call, together with the `Mmu`.
    Every method is proved to leave exactly the state that the specification
    functions of `CpuSemantics` describe. */
module Processor {
  import opened Bits
  import opened Status
  import opened Ops
  import opened MemoryMap
  import opened CpuSemantics
  import opened Execution

  class Cpu {
    var a: U16
    var x: U16
    var y: U16
    var pc: U16
    var sp: U16
    var directPage: U16
    var programBank: U8
    var dataBank: U8
    var status: Flags
    var emulation: bool

    /** The register file as a value. */
    function Registers(): Regs
      reads this
    {
      Regs(a, x, y, pc, sp, directPage, programBank, dataBank, status, emulation)
    }

    /** `Cpu::new`: emulation mode, stack at 0x01FF, everything else zero. */
    constructor ()
      ensures Registers() == POWER_ON
    {
      a, x, y := 0, 0, 0;
      pc, sp, directPage := 0, 0x1FF, 0;
      programBank, dataBank := 0, 0;
      status := EMPTY;
      emulation := true;
    }

    /** `set_current_addr`: bank from bits 16-23, PC from bits 0-15. */
    method SetCurrentAddr(addr: U32)
      modifies this
      ensures Registers() == old(Registers()).(programBank := (addr / 0x1_0000) % 0x100, pc := addr % 0x1_0000)
      ensures CurrentAddr(Registers()) == addr % 0x100_0000
    {
      programBank := (addr / 0x1_0000) % 0x100;
      pc := addr % 0x1_0000;
    }

    /** `fetch_u8` */
    method FetchU8(mmu: Mmu) returns (value: U8)
      requires mmu.Valid() && Fetch8(Registers(), mmu.State()).Ok?
      modifies this
      ensures Fetch8(old(Registers()), mmu.State()) == Ok(Taken(value, Registers()))
    {
      value := Read(mmu.State(), CurrentAddr(Registers()));
      pc := pc + 1;
    }

    /** `fetch_u16` */
    method FetchU16(mmu: Mmu) returns (value: U16)
      requires mmu.Valid() && Fetch16(Registers(), mmu.State()).Ok?
      modifies this
      ensures Fetch16(old(Registers()), mmu.State()) == Ok(Taken(value, Registers()))
    {
      value := ReadWord(mmu.State(), CurrentAddr(Registers()));
      pc := pc + 2;
    }

    /** `fetch_long` */
    method FetchLong(mmu: Mmu) returns (value: U32)
      requires mmu.Valid() && CpuSemantics.FetchLong(Registers(), mmu.State()).Ok?
      modifies this
      ensures CpuSemantics.FetchLong(old(Registers()), mmu.State()) == Ok(Taken(value, Registers()))
    {
      value := ReadLong(mmu.State(), CurrentAddr(Registers()));
      pc := pc + 3;
    }

    /** `push_u8` */
    method PushU8(mmu: Mmu, value: U8)
      requires mmu.Valid() && Push8(Registers(), mmu.State(), value).Ok?
      modifies this, mmu, mmu.spc
      ensures mmu.Valid()
      ensures Push8(old(Registers()), old(mmu.State()), value) == Ok(Machine(Registers(), mmu.State()))
    {
      mmu.StoreU8(sp, value);
      sp := sp - 1;
    }

    /** `push_u16` */
    method PushU16(mmu: Mmu, value: U16)
      requires mmu.Valid() && Push16(Registers(), mmu.State(), value).Ok?
      modifies this, mmu, mmu.spc
      ensures mmu.Valid()
      ensures Push16(old(Registers()), old(mmu.State()), value) == Ok(Machine(Registers(), mmu.State()))
    {
      mmu.StoreU16(sp - 1, value);
      sp := sp - 2;
    }

    /** `pull_u8` */
    method PullU8(mmu: Mmu) returns (value: U8)
      requires mmu.Valid() && Pull8(Registers(), mmu.State()).Ok?
      modifies this
      ensures Pull8(old(Registers()), mmu.State()) == Ok(Taken(value, Registers()))
    {
      sp := sp + 1;
      value := Read(mmu.State(), sp);
    }

    /** `pull_u16` */
    method PullU16(mmu: Mmu) returns (value: U16)
      requires mmu.Valid() && Pull16(Registers(), mmu.State()).Ok?
      modifies this
      ensures Pull16(old(Registers()), mmu.State()) == Ok(Taken(value, Registers()))
    {
      sp := sp + 2;
      value := ReadWord(mmu.State(), sp - 1);
    }

    /** The `while self.a != 0xFFFF` loop of `MVN`. */
    method BlockMove(mmu: Mmu, src: U8)
      requires mmu.Valid() && MoveLoop(Registers(), mmu.State(), src).Ok?
      modifies this, mmu, mmu.spc
      ensures mmu.Valid()
      ensures MoveLoop(old(Registers()), old(mmu.State()), src) == Ok(Machine(Registers(), mmu.State()))
    {
      ghost var outcome := MoveLoop(Registers(), mmu.State(), src);
      while a != 0xFFFF
        invariant mmu.Valid()
        invariant MoveLoop(Registers(), mmu.State(), src) == outcome
        decreases MoveCount(a)
      {
        MoveStep(Registers(), mmu.State(), src);
        MoveOne(mmu, src);
      }
    }

    /** The body of the `MVN` loop: copy one byte, then step A, X and Y. */
    method MoveOne(mmu: Mmu, src: U8)
      requires mmu.Valid() && Readable(mmu.State(), BankAddr(src, x))
      modifies this, mmu, mmu.spc
      ensures mmu.Valid()
      ensures Registers() == MoveNext(old(Registers()))
      ensures mmu.State() == Store(old(mmu.State()), BankAddr(old(dataBank), old(y)),
                                   Read(old(mmu.State()), BankAddr(src, old(x))))
    {
      var value := Read(mmu.State(), BankAddr(src, x));
      mmu.StoreU8(BankAddr(dataBank, y), value);
      a := Wrap16(a - 1);
      x := Wrap16(x + 1);
      y := Wrap16(y + 1);
    }

    /** `tick`: fetch the opcode byte and execute the decoded instruction. */
    method Tick(mmu: Mmu, op: Op)
      requires mmu.Valid() && Step(Registers(), mmu.State(), op).Ok?
      modifies this, mmu, mmu.spc
      ensures mmu.Valid()
      ensures Step(old(Registers()), old(mmu.State()), op) == Ok(Machine(Registers(), mmu.State()))
    {
      // the opcode byte itself is decoded outside this model into `op`
      var opcode := FetchU8(mmu);
      Dispatch(mmu, op);
    }

    /** The body of `tick`'s `match inst`, one instruction family at a time. */
    method Dispatch(mmu: Mmu, op: Op)
      requires mmu.Valid() && Execute(Registers(), mmu.State(), op).Ok?
      modifies this, mmu, mmu.spc
      ensures mmu.Valid()
      ensures Execute(old(Registers()), old(mmu.State()), op) == Ok(Machine(Registers(), mmu.State()))
    {
      match op
      case LoadGroup(load) => ExecuteLoad(mmu, load);
      case StoreGroup(store) => ExecuteStore(mmu, store);
      case ArithmeticGroup(arithmetic) => ExecuteArithmetic(mmu, arithmetic);
      case TransferGroup(transfer) => ExecuteTransfer(mmu, transfer);
      case CompareGroup(compare) => ExecuteCompare(mmu, compare);
      case BranchGroup(branch) => ExecuteBranch(mmu, branch);
      case PushGroup(push) => ExecutePush(mmu, push);
      case PullGroup(pull) => ExecutePull(mmu, pull);
      case JumpGroup(jump) => ExecuteJump(mmu, jump);
      case FlagGroup(flag) => ExecuteFlag(mmu, flag);
      case BlockMoveNext => ExecuteBlockMoveNext(mmu);
      case Unknown =>
      case Break =>
    }

    // -------------------------------------------------------------------------
    // Loads into A, X and Y.

    method ExecuteLoad(mmu: Mmu, op: LoadOp)
      requires mmu.Valid() && LoadStep(Registers(), mmu.State(), op).Ok?
      modifies this, mmu, mmu.spc
      ensures mmu.Valid()
      ensures LoadStep(old(Registers()), old(mmu.State()), op) == Ok(Machine(Registers(), mmu.State()))
    {
      match op
      case LoadAImmediate => ExecuteLoadAImmediate(mmu);
      case LoadAAbsolute => ExecuteLoadAAbsolute(mmu);
      case LoadADirectPage => ExecuteLoadADirectPage(mmu);
      case LoadADirectPageIndirectLong => ExecuteLoadADirectPageIndirectLong(mmu);
      case LoadAAbsoluteIndexedX => ExecuteLoadAAbsoluteIndexedX(mmu);
      case LoadAAbsoluteLongIndexedX => ExecuteLoadAAbsoluteLongIndexedX(mmu);
      case LoadAAbsoluteIndexedY => ExecuteLoadAAbsoluteIndexedY(mmu);
      case LoadXImmediate => ExecuteLoadXImmediate(mmu);
      case LoadXDirectPage => ExecuteLoadXDirectPage(mmu);
      case LoadYImmediate => ExecuteLoadYImmediate(mmu);
      case LoadYDirectPage => ExecuteLoadYDirectPage(mmu);
    }

    method ExecuteLoadAImmediate(mmu: Mmu)
      requires mmu.Valid() && LoadAImmediateStep(Registers(), mmu.State()).Ok?
      modifies this
      ensures LoadAImmediateStep(old(Registers()), old(mmu.State())) == Ok(Machine(Registers(), mmu.State()))
    {
      if AU8Mode(Registers()) {
        var value := FetchU8(mmu);
        var w := LoadU8(status, value);
        a, status := w.target, w.status;
      } else {
        var value := FetchU16(mmu);
        var w := LoadU16(status, value);
        a, status := w.target, w.status;
      }
    }

    method ExecuteLoadAAbsolute(mmu: Mmu)
      requires mmu.Valid() && LoadAAbsoluteStep(Registers(), mmu.State()).Ok?
      modifies this
      ensures LoadAAbsoluteStep(old(Registers()), old(mmu.State())) == Ok(Machine(Registers(), mmu.State()))
    {
      var addr := FetchU16(mmu);
      var w := LoadU8(status, Read(mmu.State(), BankAddr(dataBank, addr)));
      a, status := w.target, w.status;
    }

    method ExecuteLoadADirectPage(mmu: Mmu)
      requires mmu.Valid() && LoadADirectPageStep(Registers(), mmu.State()).Ok?
      modifies this
      ensures LoadADirectPageStep(old(Registers()), old(mmu.State())) == Ok(Machine(Registers(), mmu.State()))
    {
      var addr := FetchU8(mmu);
      var w := LoadU8(status, Read(mmu.State(), directPage + addr));
      a, status := w.target, w.status;
    }

    method ExecuteLoadADirectPageIndirectLong(mmu: Mmu)
      requires mmu.Valid() && LoadADirectPageIndirectLongStep(Registers(), mmu.State()).Ok?
      modifies this
      ensures LoadADirectPageIndirectLongStep(old(Registers()), old(mmu.State())) == Ok(Machine(Registers(), mmu.State()))
    {
      var addr := FetchU8(mmu);
      var ptr := ReadLong(mmu.State(), directPage + addr);
      var w := LoadU8(status, Read(mmu.State(), ptr));
      a, status := w.target, w.status;
    }

    method ExecuteLoadAAbsoluteIndexedX(mmu: Mmu)
      requires mmu.Valid() && LoadAAbsoluteIndexedXStep(Registers(), mmu.State()).Ok?
      modifies this
      ensures LoadAAbsoluteIndexedXStep(old(Registers()), old(mmu.State())) == Ok(Machine(Registers(), mmu.State()))
    {
      var addr := FetchU16(mmu);
      var w := LoadU8(status, Read(mmu.State(), BankAddr(dataBank, addr) + x));
      a, status := w.target, w.status;
    }

    method ExecuteLoadAAbsoluteLongIndexedX(mmu: Mmu)
      requires mmu.Valid() && LoadAAbsoluteLongIndexedXStep(Registers(), mmu.State()).Ok?
      modifies this
      ensures LoadAAbsoluteLongIndexedXStep(old(Registers()), old(mmu.State())) == Ok(Machine(Registers(), mmu.State()))
    {
      var addr := FetchLong(mmu);
      var w := LoadU8(status, Read(mmu.State(), addr + x));
      a, status := w.target, w.status;
    }

    method ExecuteLoadAAbsoluteIndexedY(mmu: Mmu)
      requires mmu.Valid() && LoadAAbsoluteIndexedYStep(Registers(), mmu.State()).Ok?
      modifies this
      ensures LoadAAbsoluteIndexedYStep(old(Registers()), old(mmu.State())) == Ok(Machine(Registers(), mmu.State()))
    {
      var addr := FetchU16(mmu);
      var w := LoadU8(status, Read(mmu.State(), BankAddr(dataBank, addr) + y));
      a, status := w.target, w.status;
    }

    method ExecuteLoadXImmediate(mmu: Mmu)
      requires mmu.Valid() && LoadXImmediateStep(Registers(), mmu.State()).Ok?
      modifies this
      ensures LoadXImmediateStep(old(Registers()), old(mmu.State())) == Ok(Machine(Registers(), mmu.State()))
    {
      if XYU8Mode(Registers()) {
        var value := FetchU8(mmu);
        var w := LoadU8(status, value);
        x, status := w.target, w.status;
      } else {
        var value := FetchU16(mmu);
        var w := LoadU16(status, value);
        x, status := w.target, w.status;
      }
    }

    method ExecuteLoadXDirectPage(mmu: Mmu)
      requires mmu.Valid() && LoadXDirectPageStep(Registers(), mmu.State()).Ok?
      modifies this
      ensures LoadXDirectPageStep(old(Registers()), old(mmu.State())) == Ok(Machine(Registers(), mmu.State()))
    {
      var addr := FetchU8(mmu);
      var w := LoadU16(status, ReadWord(mmu.State(), directPage + addr));
      x, status := w.target, w.status;
    }

    method ExecuteLoadYImmediate(mmu: Mmu)
      requires mmu.Valid() && LoadYImmediateStep(Registers(), mmu.State()).Ok?
      modifies this
      ensures LoadYImmediateStep(old(Registers()), old(mmu.State())) == Ok(Machine(Registers(), mmu.State()))
    {
      if XYU8Mode(Registers()) {
        var value := FetchU8(mmu);
        var w := LoadU8(status, value);
        y, status := w.target, w.status;
      } else {
        var value := FetchU16(mmu);
        var w := LoadU16(status, value);
        y, status := w.target, w.status;
      }
    }

    method ExecuteLoadYDirectPage(mmu: Mmu)
      requires mmu.Valid() && LoadYDirectPageStep(Registers(), mmu.State()).Ok?
      modifies this
      ensures LoadYDirectPageStep(old(Registers()), old(mmu.State())) == Ok(Machine(Registers(), mmu.State()))
    {
      var addr := FetchU8(mmu);
      var w := LoadU16(status, ReadWord(mmu.State(), directPage + addr));
      y, status := w.target, w.status;
    }

    // -------------------------------------------------------------------------
    // Stores of A, X, Y (always 16-bit) and of a zero byte.

    method ExecuteStore(mmu: Mmu, op: StoreOp)
      requires mmu.Valid() && StoreStep(Registers(), mmu.State(), op).Ok?
      modifies this, mmu, mmu.spc
      ensures mmu.Valid()
      ensures StoreStep(old(Registers()), old(mmu.State()), op) == Ok(Machine(Registers(), mmu.State()))
    {
      match op
      case StoreAAbsolute => ExecuteStoreAAbsolute(mmu);
      case StoreADirectPage => ExecuteStoreADirectPage(mmu);
      case StoreAAbsoluteIndexedX => ExecuteStoreAAbsoluteIndexedX(mmu);
      case StoreAAbsoluteLongIndexedX => ExecuteStoreAAbsoluteLongIndexedX(mmu);
      case StoreADirectPageIndexedX => ExecuteStoreADirectPageIndexedX(mmu);
      case StoreXAbsolute => ExecuteStoreXAbsolute(mmu);
      case StoreXDirectPage => ExecuteStoreXDirectPage(mmu);
      case StoreYDirectPage => ExecuteStoreYDirectPage(mmu);
      case StoreZeroAbsolute => ExecuteStoreZeroAbsolute(mmu);
      case StoreZeroDirectPage => ExecuteStoreZeroDirectPage(mmu);
      case StoreZeroAbsoluteIndexedX => ExecuteStoreZeroAbsoluteIndexedX(mmu);
      case StoreZeroDirectPageIndexedX => ExecuteStoreZeroDirectPageIndexedX(mmu);
    }

    method ExecuteStoreAAbsolute(mmu: Mmu)
      requires mmu.Valid() && StoreAAbsoluteStep(Registers(), mmu.State()).Ok?
      modifies this, mmu, mmu.spc
      ensures mmu.Valid()
      ensures StoreAAbsoluteStep(old(Registers()), old(mmu.State())) == Ok(Machine(Registers(), mmu.State()))
    {
      var addr := FetchU16(mmu);
      mmu.StoreU16(BankAddr(dataBank, addr), a);
    }

    method ExecuteStoreADirectPage(mmu: Mmu)
      requires mmu.Valid() && StoreADirectPageStep(Registers(), mmu.State()).Ok?
      modifies this, mmu, mmu.spc
      ensures mmu.Valid()
      ensures StoreADirectPageStep(old(Registers()), old(mmu.State())) == Ok(Machine(Registers(), mmu.State()))
    {
      var addr := FetchU8(mmu);
      mmu.StoreU16(directPage + addr, a);
    }

    method ExecuteStoreAAbsoluteIndexedX(mmu: Mmu)
      requires mmu.Valid() && StoreAAbsoluteIndexedXStep(Registers(), mmu.State()).Ok?
      modifies this, mmu, mmu.spc
      ensures mmu.Valid()
      ensures StoreAAbsoluteIndexedXStep(old(Registers()), old(mmu.State())) == Ok(Machine(Registers(), mmu.State()))
    {
      var addr := FetchU16(mmu);
      mmu.StoreU16(BankAddr(dataBank, addr) + x, a);
    }

    method ExecuteStoreAAbsoluteLongIndexedX(mmu: Mmu)
      requires mmu.Valid() && StoreAAbsoluteLongIndexedXStep(Registers(), mmu.State()).Ok?
      modifies this, mmu, mmu.spc
      ensures mmu.Valid()
      ensures StoreAAbsoluteLongIndexedXStep(old(Registers()), old(mmu.State())) == Ok(Machine(Registers(), mmu.State()))
    {
      var addr := FetchLong(mmu);
      mmu.StoreU16(addr + x, a);
    }

    method ExecuteStoreADirectPageIndexedX(mmu: Mmu)
      requires mmu.Valid() && StoreADirectPageIndexedXStep(Registers(), mmu.State()).Ok?
      modifies this, mmu, mmu.spc
      ensures mmu.Valid()
      ensures StoreADirectPageIndexedXStep(old(Registers()), old(mmu.State())) == Ok(Machine(Registers(), mmu.State()))
    {
      var addr := FetchU8(mmu);
      mmu.StoreU16(directPage + addr + x, a);
    }

    method ExecuteStoreXAbsolute(mmu: Mmu)
      requires mmu.Valid() && StoreXAbsoluteStep(Registers(), mmu.State()).Ok?
      modifies this, mmu, mmu.spc
      ensures mmu.Valid()
      ensures StoreXAbsoluteStep(old(Registers()), old(mmu.State())) == Ok(Machine(Registers(), mmu.State()))
    {
      var addr := FetchU16(mmu);
      mmu.StoreU16(BankAddr(dataBank, addr), x);
    }

    method ExecuteStoreXDirectPage(mmu: Mmu)
      requires mmu.Valid() && StoreXDirectPageStep(Registers(), mmu.State()).Ok?
      modifies this, mmu, mmu.spc
      ensures mmu.Valid()
      ensures StoreXDirectPageStep(old(Registers()), old(mmu.State())) == Ok(Machine(Registers(), mmu.State()))
    {
      var addr := FetchU8(mmu);
      mmu.StoreU16(directPage + addr, x);
    }

    method ExecuteStoreYDirectPage(mmu: Mmu)
      requires mmu.Valid() && StoreYDirectPageStep(Registers(), mmu.State()).Ok?
      modifies this, mmu, mmu.spc
      ensures mmu.Valid()
      ensures StoreYDirectPageStep(old(Registers()), old(mmu.State())) == Ok(Machine(Registers(), mmu.State()))
    {
      var addr := FetchU8(mmu);
      mmu.StoreU16(directPage + addr, y);
    }

    method ExecuteStoreZeroAbsolute(mmu: Mmu)
      requires mmu.Valid() && StoreZeroAbsoluteStep(Registers(), mmu.State()).Ok?
      modifies this, mmu, mmu.spc
      ensures mmu.Valid()
      ensures StoreZeroAbsoluteStep(old(Registers()), old(mmu.State())) == Ok(Machine(Registers(), mmu.State()))
    {
      var addr := FetchU16(mmu);
      mmu.StoreU8(BankAddr(dataBank, addr), 0);
    }

    method ExecuteStoreZeroDirectPage(mmu: Mmu)
      requires mmu.Valid() && StoreZeroDirectPageStep(Registers(), mmu.State()).Ok?
      modifies this, mmu, mmu.spc
      ensures mmu.Valid()
      ensures StoreZeroDirectPageStep(old(Registers()), old(mmu.State())) == Ok(Machine(Registers(), mmu.State()))
    {
      var addr := FetchU16(mmu);
      mmu.StoreU8(directPage + addr, 0);
    }

    method ExecuteStoreZeroAbsoluteIndexedX(mmu: Mmu)
      requires mmu.Valid() && StoreZeroAbsoluteIndexedXStep(Registers(), mmu.State()).Ok?
      modifies this, mmu, mmu.spc
      ensures mmu.Valid()
      ensures StoreZeroAbsoluteIndexedXStep(old(Registers()), old(mmu.State())) == Ok(Machine(Registers(), mmu.State()))
    {
      var addr := FetchU16(mmu);
      mmu.StoreU8(BankAddr(dataBank, addr) + x, 0);
    }

    method ExecuteStoreZeroDirectPageIndexedX(mmu: Mmu)
      requires mmu.Valid() && StoreZeroDirectPageIndexedXStep(Registers(), mmu.State()).Ok?
      modifies this, mmu, mmu.spc
      ensures mmu.Valid()
      ensures StoreZeroDirectPageIndexedXStep(old(Registers()), old(mmu.State())) == Ok(Machine(Registers(), mmu.State()))
    {
      var addr := FetchU8(mmu);
      mmu.StoreU8(directPage + addr + x, 0);
    }

    // -------------------------------------------------------------------------
    // Add with carry, increments, decrements and the shift.

    method ExecuteArithmetic(mmu: Mmu, op: ArithmeticOp)
      requires mmu.Valid() && ArithmeticStep(Registers(), mmu.State(), op).Ok?
      modifies this, mmu, mmu.spc
      ensures mmu.Valid()
      ensures ArithmeticStep(old(Registers()), old(mmu.State()), op) == Ok(Machine(Registers(), mmu.State()))
    {
      match op
      case AddWithCarryImmediate => ExecuteAddWithCarryImmediate(mmu);
      case AddWithCarryAbsolute => ExecuteAddWithCarryAbsolute(mmu);
      case AddWithCarryDirectPage => ExecuteAddWithCarryDirectPage(mmu);
      case IncrementDirectPage => ExecuteIncrementDirectPage(mmu);
      case IncrementX => ExecuteIncrementX(mmu);
      case IncrementY => ExecuteIncrementY(mmu);
      case DecrementX => ExecuteDecrementX(mmu);
      case DecrementY => ExecuteDecrementY(mmu);
      case ShiftLeft => ExecuteShiftLeft(mmu);
    }

    method ExecuteAddWithCarryImmediate(mmu: Mmu)
      requires mmu.Valid() && AddWithCarryImmediateStep(Registers(), mmu.State()).Ok?
      modifies this
      ensures AddWithCarryImmediateStep(old(Registers()), old(mmu.State())) == Ok(Machine(Registers(), mmu.State()))
    {
      if AU8Mode(Registers()) {
        var value := FetchU8(mmu);
        var w := AdcU8(a, status, value);
        a, status := w.target, w.status;
      } else {
        var value := FetchU16(mmu);
        var w := AdcU16(a, status, value);
        a, status := w.target, w.status;
      }
    }

    method ExecuteAddWithCarryAbsolute(mmu: Mmu)
      requires mmu.Valid() && AddWithCarryAbsoluteStep(Registers(), mmu.State()).Ok?
      modifies this
      ensures AddWithCarryAbsoluteStep(old(Registers()), old(mmu.State())) == Ok(Machine(Registers(), mmu.State()))
    {
      var addr := FetchU16(mmu);
      if AU8Mode(Registers()) {
        var w := AdcU8(a, status, Read(mmu.State(), BankAddr(dataBank, addr)));
        a, status := w.target, w.status;
      } else {
        var w := AdcU16(a, status, ReadWord(mmu.State(), BankAddr(dataBank, addr)));
        a, status := w.target, w.status;
      }
    }

    method ExecuteAddWithCarryDirectPage(mmu: Mmu)
      requires mmu.Valid() && AddWithCarryDirectPageStep(Registers(), mmu.State()).Ok?
      modifies this
      ensures AddWithCarryDirectPageStep(old(Registers()), old(mmu.State())) == Ok(Machine(Registers(), mmu.State()))
    {
      var addr := FetchU8(mmu);
      if AU8Mode(Registers()) {
        var w := AdcU8(a, status, Read(mmu.State(), directPage + addr));
        a, status := w.target, w.status;
      } else {
        var w := AdcU16(a, status, ReadWord(mmu.State(), directPage + addr));
        a, status := w.target, w.status;
      }
    }

    method ExecuteIncrementDirectPage(mmu: Mmu)
      requires mmu.Valid() && IncrementDirectPageStep(Registers(), mmu.State()).Ok?
      modifies this, mmu, mmu.spc
      ensures mmu.Valid()
      ensures IncrementDirectPageStep(old(Registers()), old(mmu.State())) == Ok(Machine(Registers(), mmu.State()))
    {
      var addr := FetchU8(mmu);
      var offsetAddr := directPage + addr;
      var value := Low8(Read(mmu.State(), offsetAddr) + 1);
      mmu.StoreU8(offsetAddr, value);
      status := Set(status, NEGATIVE, Bit7(value));
      status := Set(status, ZERO, value == 0);
    }

    method ExecuteIncrementX(mmu: Mmu)
      requires mmu.Valid() && IncrementXStep(Registers(), mmu.State()).Ok?
      modifies this
      ensures IncrementXStep(old(Registers()), old(mmu.State())) == Ok(Machine(Registers(), mmu.State()))
    {
      x := Wrap16(x + 1);
      status := Set(status, NEGATIVE, Bit15(x));
      status := Set(status, ZERO, x == 0);
    }

    method ExecuteIncrementY(mmu: Mmu)
      requires mmu.Valid() && IncrementYStep(Registers(), mmu.State()).Ok?
      modifies this
      ensures IncrementYStep(old(Registers()), old(mmu.State())) == Ok(Machine(Registers(), mmu.State()))
    {
      y := Wrap16(y + 1);
      status := Set(status, NEGATIVE, Bit15(y));
      status := Set(status, ZERO, y == 0);
    }

    method ExecuteDecrementX(mmu: Mmu)
      requires mmu.Valid() && DecrementXStep(Registers(), mmu.State()).Ok?
      modifies this
      ensures DecrementXStep(old(Registers()), old(mmu.State())) == Ok(Machine(Registers(), mmu.State()))
    {
      x := Wrap16(x - 1);
      status := Set(status, NEGATIVE, Bit15(x));
      status := Set(status, ZERO, x == 0);
    }

    method ExecuteDecrementY(mmu: Mmu)
      requires mmu.Valid() && DecrementYStep(Registers(), mmu.State()).Ok?
      modifies this
      ensures DecrementYStep(old(Registers()), old(mmu.State())) == Ok(Machine(Registers(), mmu.State()))
    {
      y := Wrap16(y - 1);
      status := Set(status, NEGATIVE, Bit15(y));
      status := Set(status, ZERO, y == 0);
    }

    method ExecuteShiftLeft(mmu: Mmu)
      requires mmu.Valid() && ShiftLeftStep(Registers(), mmu.State()).Ok?
      modifies this
      ensures ShiftLeftStep(old(Registers()), old(mmu.State())) == Ok(Machine(Registers(), mmu.State()))
    {
      var original := Low8(a);
      var value := Low8(original as int * 2);
      status := Set(status, NEGATIVE, Bit7(value));
      status := Set(status, ZERO, y == 0);
      status := Set(status, CARRY, Bit7(original));
      a := value;
    }

    // -------------------------------------------------------------------------
    // Register transfers and the byte exchange.

    method ExecuteTransfer(mmu: Mmu, op: TransferOp)
      requires mmu.Valid() && TransferStep(Registers(), mmu.State(), op).Ok?
      modifies this, mmu, mmu.spc
      ensures mmu.Valid()
      ensures TransferStep(old(Registers()), old(mmu.State()), op) == Ok(Machine(Registers(), mmu.State()))
    {
      match op
      case MoveAX => ExecuteMoveAX(mmu);
      case MoveAY => ExecuteMoveAY(mmu);
      case MoveDA => ExecuteMoveDA(mmu);
      case MoveXSP => ExecuteMoveXSP(mmu);
      case ExchangeBA => ExecuteExchangeBA(mmu);
    }

    method ExecuteMoveAX(mmu: Mmu)
      requires mmu.Valid() && MoveAXStep(Registers(), mmu.State()).Ok?
      modifies this
      ensures MoveAXStep(old(Registers()), old(mmu.State())) == Ok(Machine(Registers(), mmu.State()))
    {
      x := a;
      status := Set(status, NEGATIVE, Bit15(x));
      status := Set(status, ZERO, x == 0);
    }

    method ExecuteMoveAY(mmu: Mmu)
      requires mmu.Valid() && MoveAYStep(Registers(), mmu.State()).Ok?
      modifies this
      ensures MoveAYStep(old(Registers()), old(mmu.State())) == Ok(Machine(Registers(), mmu.State()))
    {
      y := a;
      status := Set(status, NEGATIVE, Bit15(y));
      status := Set(status, ZERO, y == 0);
    }

    method ExecuteMoveDA(mmu: Mmu)
      requires mmu.Valid() && MoveDAStep(Registers(), mmu.State()).Ok?
      modifies this
      ensures MoveDAStep(old(Registers()), old(mmu.State())) == Ok(Machine(Registers(), mmu.State()))
    {
      a := directPage;
      status := Set(status, NEGATIVE, Bit15(a));
      status := Set(status, ZERO, a == 0);
    }

    method ExecuteMoveXSP(mmu: Mmu)
      requires mmu.Valid() && MoveXSPStep(Registers(), mmu.State()).Ok?
      modifies this
      ensures MoveXSPStep(old(Registers()), old(mmu.State())) == Ok(Machine(Registers(), mmu.State()))
    {
      sp := x;
      status := Set(status, NEGATIVE, Bit15(sp));
      status := Set(status, ZERO, sp == 0);
    }

    method ExecuteExchangeBA(mmu: Mmu)
      requires mmu.Valid() && ExchangeBAStep(Registers(), mmu.State()).Ok?
      modifies this
      ensures ExchangeBAStep(old(Registers()), old(mmu.State())) == Ok(Machine(Registers(), mmu.State()))
    {
      a := Low8(a) * 0x100 + a / 0x100;
      status := Set(status, NEGATIVE, a % 2 == 1);
      status := Set(status, ZERO, a % 2 == 1);
    }

    // -------------------------------------------------------------------------
    // Compares of A and X.

    method ExecuteCompare(mmu: Mmu, op: CompareOp)
      requires mmu.Valid() && CompareStep(Registers(), mmu.State(), op).Ok?
      modifies this, mmu, mmu.spc
      ensures mmu.Valid()
      ensures CompareStep(old(Registers()), old(mmu.State()), op) == Ok(Machine(Registers(), mmu.State()))
    {
      match op
      case CompareImmediate => ExecuteCompareImmediate(mmu);
      case CompareAbsolute => ExecuteCompareAbsolute(mmu);
      case CompareDirectPage => ExecuteCompareDirectPage(mmu);
      case CompareAbsoluteLongIndexedX => ExecuteCompareAbsoluteLongIndexedX(mmu);
      case CompareXImmediate => ExecuteCompareXImmediate(mmu);
    }

    method ExecuteCompareImmediate(mmu: Mmu)
      requires mmu.Valid() && CompareImmediateStep(Registers(), mmu.State()).Ok?
      modifies this
      ensures CompareImmediateStep(old(Registers()), old(mmu.State())) == Ok(Machine(Registers(), mmu.State()))
    {
      if AU8Mode(Registers()) {
        var value := FetchU8(mmu);
        status := CompareU8(status, Low8(a), value);
      } else {
        var value := FetchU16(mmu);
        status := CompareU16(status, a, value);
      }
    }

    method ExecuteCompareAbsolute(mmu: Mmu)
      requires mmu.Valid() && CompareAbsoluteStep(Registers(), mmu.State()).Ok?
      modifies this
      ensures CompareAbsoluteStep(old(Registers()), old(mmu.State())) == Ok(Machine(Registers(), mmu.State()))
    {
      var addr := FetchU16(mmu);
      status := CompareU8(status, Low8(a), Read(mmu.State(), BankAddr(dataBank, addr)));
    }

    method ExecuteCompareDirectPage(mmu: Mmu)
      requires mmu.Valid() && CompareDirectPageStep(Registers(), mmu.State()).Ok?
      modifies this
      ensures CompareDirectPageStep(old(Registers()), old(mmu.State())) == Ok(Machine(Registers(), mmu.State()))
    {
      var addr := FetchU8(mmu);
      status := CompareU8(status, Low8(a), Read(mmu.State(), directPage + addr));
    }

    method ExecuteCompareAbsoluteLongIndexedX(mmu: Mmu)
      requires mmu.Valid() && CompareAbsoluteLongIndexedXStep(Registers(), mmu.State()).Ok?
      modifies this
      ensures CompareAbsoluteLongIndexedXStep(old(Registers()), old(mmu.State())) == Ok(Machine(Registers(), mmu.State()))
    {
      var addr := FetchLong(mmu);
      status := CompareU8(status, Low8(a), Read(mmu.State(), addr + x));
    }

    method ExecuteCompareXImmediate(mmu: Mmu)
      requires mmu.Valid() && CompareXImmediateStep(Registers(), mmu.State()).Ok?
      modifies this
      ensures CompareXImmediateStep(old(Registers()), old(mmu.State())) == Ok(Machine(Registers(), mmu.State()))
    {
      if XYU8Mode(Registers()) {
        var value := FetchU8(mmu);
        status := CompareU8(status, Low8(x), value);
      } else {
        var value := FetchU16(mmu);
        status := CompareU16(status, x, value);
      }
    }

    // -------------------------------------------------------------------------
    // Relative branches.

    method ExecuteBranch(mmu: Mmu, op: BranchOp)
      requires mmu.Valid() && BranchStep(Registers(), mmu.State(), op).Ok?
      modifies this, mmu, mmu.spc
      ensures mmu.Valid()
      ensures BranchStep(old(Registers()), old(mmu.State()), op) == Ok(Machine(Registers(), mmu.State()))
    {
      match op
      case BranchCarryClear => ExecuteBranchCarryClear(mmu);
      case BranchCarrySet => ExecuteBranchCarrySet(mmu);
      case BranchNotEqual => ExecuteBranchNotEqual(mmu);
      case BranchEqual => ExecuteBranchEqual(mmu);
      case BranchAlways => ExecuteBranchAlways(mmu);
    }

    method ExecuteBranchCarryClear(mmu: Mmu)
      requires mmu.Valid() && BranchCarryClearStep(Registers(), mmu.State()).Ok?
      modifies this
      ensures BranchCarryClearStep(old(Registers()), old(mmu.State())) == Ok(Machine(Registers(), mmu.State()))
    {
      var offset := FetchU8(mmu);
      pc := Branch(pc, offset, !Contains(status, CARRY));
    }

    method ExecuteBranchCarrySet(mmu: Mmu)
      requires mmu.Valid() && BranchCarrySetStep(Registers(), mmu.State()).Ok?
      modifies this
      ensures BranchCarrySetStep(old(Registers()), old(mmu.State())) == Ok(Machine(Registers(), mmu.State()))
    {
      var offset := FetchU8(mmu);
      pc := Branch(pc, offset, Contains(status, CARRY));
    }

    method ExecuteBranchNotEqual(mmu: Mmu)
      requires mmu.Valid() && BranchNotEqualStep(Registers(), mmu.State()).Ok?
      modifies this
      ensures BranchNotEqualStep(old(Registers()), old(mmu.State())) == Ok(Machine(Registers(), mmu.State()))
    {
      var offset := FetchU8(mmu);
      pc := Branch(pc, offset, !Contains(status, ZERO));
    }

    method ExecuteBranchEqual(mmu: Mmu)
      requires mmu.Valid() && BranchEqualStep(Registers(), mmu.State()).Ok?
      modifies this
      ensures BranchEqualStep(old(Registers()), old(mmu.State())) == Ok(Machine(Registers(), mmu.State()))
    {
      var offset := FetchU8(mmu);
      pc := Branch(pc, offset, Contains(status, ZERO));
    }

    method ExecuteBranchAlways(mmu: Mmu)
      requires mmu.Valid() && BranchAlwaysStep(Registers(), mmu.State()).Ok?
      modifies this
      ensures BranchAlwaysStep(old(Registers()), old(mmu.State())) == Ok(Machine(Registers(), mmu.State()))
    {
      var offset := FetchU8(mmu);
      pc := Branch(pc, offset, true);
    }

    // -------------------------------------------------------------------------
    // Pushes.

    method ExecutePush(mmu: Mmu, op: PushOp)
      requires mmu.Valid() && PushStep(Registers(), mmu.State(), op).Ok?
      modifies this, mmu, mmu.spc
      ensures mmu.Valid()
      ensures PushStep(old(Registers()), old(mmu.State()), op) == Ok(Machine(Registers(), mmu.State()))
    {
      match op
      case PushA => ExecutePushA(mmu);
      case PushB => ExecutePushB(mmu);
      case PushD => ExecutePushD(mmu);
      case PushX => ExecutePushX(mmu);
      case PushY => ExecutePushY(mmu);
      case PushStatus => ExecutePushStatus(mmu);
      case PushAbsolute => ExecutePushAbsolute(mmu);
    }

    method ExecutePushA(mmu: Mmu)
      requires mmu.Valid() && PushAStep(Registers(), mmu.State()).Ok?
      modifies this, mmu, mmu.spc
      ensures mmu.Valid()
      ensures PushAStep(old(Registers()), old(mmu.State())) == Ok(Machine(Registers(), mmu.State()))
    {
      if AU8Mode(Registers()) {
        PushU8(mmu, Low8(a));
      } else {
        PushU16(mmu, a);
      }
    }

    method ExecutePushB(mmu: Mmu)
      requires mmu.Valid() && PushBStep(Registers(), mmu.State()).Ok?
      modifies this, mmu, mmu.spc
      ensures mmu.Valid()
      ensures PushBStep(old(Registers()), old(mmu.State())) == Ok(Machine(Registers(), mmu.State()))
    {
      PushU8(mmu, dataBank);
    }

    method ExecutePushD(mmu: Mmu)
      requires mmu.Valid() && PushDStep(Registers(), mmu.State()).Ok?
      modifies this, mmu, mmu.spc
      ensures mmu.Valid()
      ensures PushDStep(old(Registers()), old(mmu.State())) == Ok(Machine(Registers(), mmu.State()))
    {
      PushU16(mmu, directPage);
    }

    method ExecutePushX(mmu: Mmu)
      requires mmu.Valid() && PushXStep(Registers(), mmu.State()).Ok?
      modifies this, mmu, mmu.spc
      ensures mmu.Valid()
      ensures PushXStep(old(Registers()), old(mmu.State())) == Ok(Machine(Registers(), mmu.State()))
    {
      if XYU8Mode(Registers()) {
        PushU8(mmu, Low8(x));
      } else {
        PushU16(mmu, x);
      }
    }

    method ExecutePushY(mmu: Mmu)
      requires mmu.Valid() && PushYStep(Registers(), mmu.State()).Ok?
      modifies this, mmu, mmu.spc
      ensures mmu.Valid()
      ensures PushYStep(old(Registers()), old(mmu.State())) == Ok(Machine(Registers(), mmu.State()))
    {
      if XYU8Mode(Registers()) {
        PushU8(mmu, Low8(y));
      } else {
        PushU16(mmu, y);
      }
    }

    method ExecutePushStatus(mmu: Mmu)
      requires mmu.Valid() && PushStatusStep(Registers(), mmu.State()).Ok?
      modifies this, mmu, mmu.spc
      ensures mmu.Valid()
      ensures PushStatusStep(old(Registers()), old(mmu.State())) == Ok(Machine(Registers(), mmu.State()))
    {
      PushU8(mmu, status as int);
    }

    method ExecutePushAbsolute(mmu: Mmu)
      requires mmu.Valid() && PushAbsoluteStep(Registers(), mmu.State()).Ok?
      modifies this, mmu, mmu.spc
      ensures mmu.Valid()
      ensures PushAbsoluteStep(old(Registers()), old(mmu.State())) == Ok(Machine(Registers(), mmu.State()))
    {
      var addr := FetchU16(mmu);
      PushU16(mmu, addr);
    }

    // -------------------------------------------------------------------------
    // Pulls.

    method ExecutePull(mmu: Mmu, op: PullOp)
      requires mmu.Valid() && PullStep(Registers(), mmu.State(), op).Ok?
      modifies this, mmu, mmu.spc
      ensures mmu.Valid()
      ensures PullStep(old(Registers()), old(mmu.State()), op) == Ok(Machine(Registers(), mmu.State()))
    {
      match op
      case PullA => ExecutePullA(mmu);
      case PullB => ExecutePullB(mmu);
      case PullD => ExecutePullD(mmu);
      case PullX => ExecutePullX(mmu);
      case PullY => ExecutePullY(mmu);
      case PullStatus => ExecutePullStatus(mmu);
    }

    method ExecutePullA(mmu: Mmu)
      requires mmu.Valid() && PullAStep(Registers(), mmu.State()).Ok?
      modifies this
      ensures PullAStep(old(Registers()), old(mmu.State())) == Ok(Machine(Registers(), mmu.State()))
    {
      if AU8Mode(Registers()) {
        var value := PullU8(mmu);
        var w := LoadU8(status, value);
        a, status := w.target, w.status;
      } else {
        var value := PullU16(mmu);
        var w := LoadU16(status, value);
        a, status := w.target, w.status;
      }
    }

    method ExecutePullB(mmu: Mmu)
      requires mmu.Valid() && PullBStep(Registers(), mmu.State()).Ok?
      modifies this
      ensures PullBStep(old(Registers()), old(mmu.State())) == Ok(Machine(Registers(), mmu.State()))
    {
      var value := PullU8(mmu);
      dataBank := value;
      status := Set(status, NEGATIVE, Bit7(value));
      status := Set(status, ZERO, value == 0);
    }

    method ExecutePullD(mmu: Mmu)
      requires mmu.Valid() && PullDStep(Registers(), mmu.State()).Ok?
      modifies this
      ensures PullDStep(old(Registers()), old(mmu.State())) == Ok(Machine(Registers(), mmu.State()))
    {
      var value := PullU16(mmu);
      var w := LoadU16(status, value);
      directPage, status := w.target, w.status;
    }

    method ExecutePullX(mmu: Mmu)
      requires mmu.Valid() && PullXStep(Registers(), mmu.State()).Ok?
      modifies this
      ensures PullXStep(old(Registers()), old(mmu.State())) == Ok(Machine(Registers(), mmu.State()))
    {
      if XYU8Mode(Registers()) {
        var value := PullU8(mmu);
        var w := LoadU8(status, value);
        x, status := w.target, w.status;
      } else {
        var value := PullU16(mmu);
        var w := LoadU16(status, value);
        x, status := w.target, w.status;
      }
    }

    method ExecutePullY(mmu: Mmu)
      requires mmu.Valid() && PullYStep(Registers(), mmu.State()).Ok?
      modifies this
      ensures PullYStep(old(Registers()), old(mmu.State())) == Ok(Machine(Registers(), mmu.State()))
    {
      if XYU8Mode(Registers()) {
        var value := PullU8(mmu);
        var w := LoadU8(status, value);
        y, status := w.target, w.status;
      } else {
        var value := PullU16(mmu);
        var w := LoadU16(status, value);
        y, status := w.target, w.status;
      }
    }

    method ExecutePullStatus(mmu: Mmu)
      requires mmu.Valid() && PullStatusStep(Registers(), mmu.State()).Ok?
      modifies this
      ensures PullStatusStep(old(Registers()), old(mmu.State())) == Ok(Machine(Registers(), mmu.State()))
    {
      var value := PullU8(mmu);
      status := value as bv8;
      status := Set(status, NEGATIVE, Bit7(value));
      status := Set(status, ZERO, value == 0);
    }

    // -------------------------------------------------------------------------
    // Jumps, calls and returns.

    method ExecuteJump(mmu: Mmu, op: JumpOp)
      requires mmu.Valid() && JumpStep(Registers(), mmu.State(), op).Ok?
      modifies this, mmu, mmu.spc
      ensures mmu.Valid()
      ensures JumpStep(old(Registers()), old(mmu.State()), op) == Ok(Machine(Registers(), mmu.State()))
    {
      match op
      case JumpAbsolute => ExecuteJumpAbsolute(mmu);
      case JumpSubRoutineAbsolute => ExecuteJumpSubRoutineAbsolute(mmu);
      case JumpSubRoutineAbsoluteLong => ExecuteJumpSubRoutineAbsoluteLong(mmu);
      case Return => ExecuteReturn(mmu);
      case ReturnLong => ExecuteReturnLong(mmu);
    }

    method ExecuteJumpAbsolute(mmu: Mmu)
      requires mmu.Valid() && JumpAbsoluteStep(Registers(), mmu.State()).Ok?
      modifies this
      ensures JumpAbsoluteStep(old(Registers()), old(mmu.State())) == Ok(Machine(Registers(), mmu.State()))
    {
      var addr := FetchU16(mmu);
      pc := addr;
    }

    method ExecuteJumpSubRoutineAbsolute(mmu: Mmu)
      requires mmu.Valid() && JumpSubRoutineAbsoluteStep(Registers(), mmu.State()).Ok?
      modifies this, mmu, mmu.spc
      ensures mmu.Valid()
      ensures JumpSubRoutineAbsoluteStep(old(Registers()), old(mmu.State())) == Ok(Machine(Registers(), mmu.State()))
    {
      var addr := FetchU16(mmu);
      PushU16(mmu, pc - 1);
      pc := addr;
    }

    method ExecuteJumpSubRoutineAbsoluteLong(mmu: Mmu)
      requires mmu.Valid() && JumpSubRoutineAbsoluteLongStep(Registers(), mmu.State()).Ok?
      modifies this, mmu, mmu.spc
      ensures mmu.Valid()
      ensures JumpSubRoutineAbsoluteLongStep(old(Registers()), old(mmu.State())) == Ok(Machine(Registers(), mmu.State()))
    {
      var addr := FetchU16(mmu);
      var bank := FetchU8(mmu);
      PushU16(mmu, pc - 1);
      PushU8(mmu, programBank);
      programBank := bank;
      pc := addr;
    }

    method ExecuteReturn(mmu: Mmu)
      requires mmu.Valid() && ReturnStep(Registers(), mmu.State()).Ok?
      modifies this
      ensures ReturnStep(old(Registers()), old(mmu.State())) == Ok(Machine(Registers(), mmu.State()))
    {
      var addr := PullU16(mmu);
      pc := Wrap16(addr as int + 1);
    }

    method ExecuteReturnLong(mmu: Mmu)
      requires mmu.Valid() && ReturnLongStep(Registers(), mmu.State()).Ok?
      modifies this
      ensures ReturnLongStep(old(Registers()), old(mmu.State())) == Ok(Machine(Registers(), mmu.State()))
    {
      var bank := PullU8(mmu);
      var addr := PullU16(mmu);
      pc := Wrap16(addr as int + 1);
      programBank := bank;
    }

    // -------------------------------------------------------------------------
    // The instructions that only change the status register or the mode.

    method ExecuteFlag(mmu: Mmu, op: FlagOp)
      requires mmu.Valid() && FlagStep(Registers(), mmu.State(), op).Ok?
      modifies this, mmu, mmu.spc
      ensures mmu.Valid()
      ensures FlagStep(old(Registers()), old(mmu.State()), op) == Ok(Machine(Registers(), mmu.State()))
    {
      match op
      case ClearCarry => ExecuteClearCarry(mmu);
      case SetIrqDisable => ExecuteSetIrqDisable(mmu);
      case ResetFlags => ExecuteResetFlags(mmu);
      case SetFlags => ExecuteSetFlags(mmu);
      case ExchangeCE => ExecuteExchangeCE(mmu);
    }

    method ExecuteClearCarry(mmu: Mmu)
      requires mmu.Valid() && ClearCarryStep(Registers(), mmu.State()).Ok?
      modifies this
      ensures ClearCarryStep(old(Registers()), old(mmu.State())) == Ok(Machine(Registers(), mmu.State()))
    {
      status := Remove(status, CARRY);
    }

    method ExecuteSetIrqDisable(mmu: Mmu)
      requires mmu.Valid() && SetIrqDisableStep(Registers(), mmu.State()).Ok?
      modifies this
      ensures SetIrqDisableStep(old(Registers()), old(mmu.State())) == Ok(Machine(Registers(), mmu.State()))
    {
      status := Insert(status, IRQ_DISABLE);
    }

    method ExecuteResetFlags(mmu: Mmu)
      requires mmu.Valid() && ResetFlagsStep(Registers(), mmu.State()).Ok?
      modifies this
      ensures ResetFlagsStep(old(Registers()), old(mmu.State())) == Ok(Machine(Registers(), mmu.State()))
    {
      var mask := FetchU8(mmu);
      status := status & !(mask as bv8);
    }

    method ExecuteSetFlags(mmu: Mmu)
      requires mmu.Valid() && SetFlagsStep(Registers(), mmu.State()).Ok?
      modifies this
      ensures SetFlagsStep(old(Registers()), old(mmu.State())) == Ok(Machine(Registers(), mmu.State()))
    {
      var mask := FetchU8(mmu);
      status := status | (mask as bv8);
    }

    method ExecuteExchangeCE(mmu: Mmu)
      requires mmu.Valid() && ExchangeCEStep(Registers(), mmu.State()).Ok?
      modifies this
      ensures ExchangeCEStep(old(Registers()), old(mmu.State())) == Ok(Machine(Registers(), mmu.State()))
    {
      var carry := Contains(status, CARRY);
      emulation := carry;
      status := Toggle(status, CARRY);
    }

    /** `MVN` */
    method ExecuteBlockMoveNext(mmu: Mmu)
      requires mmu.Valid() && BlockMoveNextStep(Registers(), mmu.State()).Ok?
      modifies this, mmu, mmu.spc
      ensures mmu.Valid()
      ensures BlockMoveNextStep(old(Registers()), old(mmu.State())) == Ok(Machine(Registers(), mmu.State()))
    {
      var dest := FetchU8(mmu);
      var src := FetchU8(mmu);
      dataBank := dest;
      BlockMove(mmu, src);
    }
  }
}
