/** What one `Cpu::tick` of src/cpu.rs does, instruction by instruction.

    `Step` is the specification that the imperative `Cpu.Tick` in module
    `Processor` is proved to implement. Each arm of `tick`'s match is one
    function here, named after the instruction tag with the suffix `Step`. */
module Execution {
  import opened Bits
  import opened Status
  import opened Ops
  import opened MemoryMap
  import opened CpuSemantics

  /** The tags `tick` dispatches on, grouped by instruction family; each
      leaf tag is one arm of `tick`'s match. Decoding an opcode byte into a tag
      (`Instruction::from_opcode`) is not part of this model: the tag is an
      input of the step, and the operands are fetched by the step itself. */
  datatype Op =
    | Unknown
    | Break
    | BlockMoveNext
    | LoadGroup(load: LoadOp)
    | StoreGroup(store: StoreOp)
    | ArithmeticGroup(arithmetic: ArithmeticOp)
    | TransferGroup(transfer: TransferOp)
    | CompareGroup(compare: CompareOp)
    | BranchGroup(branch: BranchOp)
    | PushGroup(push: PushOp)
    | PullGroup(pull: PullOp)
    | JumpGroup(jump: JumpOp)
    | FlagGroup(flag: FlagOp)

  /** Loads into A, X and Y. */
  datatype LoadOp =
    | LoadAImmediate | LoadAAbsolute | LoadADirectPage | LoadADirectPageIndirectLong |
      LoadAAbsoluteIndexedX | LoadAAbsoluteLongIndexedX | LoadAAbsoluteIndexedY |
      LoadXImmediate | LoadXDirectPage | LoadYImmediate | LoadYDirectPage

  /** Stores of A, X, Y (always 16-bit) and of a zero byte. */
  datatype StoreOp =
    | StoreAAbsolute | StoreADirectPage | StoreAAbsoluteIndexedX | StoreAAbsoluteLongIndexedX |
      StoreADirectPageIndexedX | StoreXAbsolute | StoreXDirectPage | StoreYDirectPage |
      StoreZeroAbsolute | StoreZeroDirectPage | StoreZeroAbsoluteIndexedX |
      StoreZeroDirectPageIndexedX

  /** Add with carry, increments, decrements and the shift. */
  datatype ArithmeticOp =
    | AddWithCarryImmediate | AddWithCarryAbsolute | AddWithCarryDirectPage |
      IncrementDirectPage | IncrementX | IncrementY | DecrementX | DecrementY | ShiftLeft

  /** Register transfers and the byte exchange. */
  datatype TransferOp = MoveAX | MoveAY | MoveDA | MoveXSP | ExchangeBA

  /** Compares of A and X. */
  datatype CompareOp =
    | CompareImmediate | CompareAbsolute | CompareDirectPage | CompareAbsoluteLongIndexedX |
      CompareXImmediate

  /** Relative branches. */
  datatype BranchOp =
    | BranchCarryClear | BranchCarrySet | BranchNotEqual | BranchEqual | BranchAlways

  /** Pushes. */
  datatype PushOp = PushA | PushB | PushD | PushX | PushY | PushStatus | PushAbsolute

  /** Pulls. */
  datatype PullOp = PullA | PullB | PullD | PullX | PullY | PullStatus

  /** Jumps, calls and returns. */
  datatype JumpOp =
    | JumpAbsolute | JumpSubRoutineAbsolute | JumpSubRoutineAbsoluteLong | Return | ReturnLong

  /** The instructions that only change the status register or the mode. */
  datatype FlagOp = ClearCarry | SetIrqDisable | ResetFlags | SetFlags | ExchangeCE


  /** Everything `tick` does after the opcode byte has been fetched. */
  function Execute(r: Regs, m: Memory, op: Op): Result<Machine>
    requires WellFormed(m)
  {
    match op
    case LoadGroup(load) => LoadStep(r, m, load)
    case StoreGroup(store) => StoreStep(r, m, store)
    case ArithmeticGroup(arithmetic) => ArithmeticStep(r, m, arithmetic)
    case TransferGroup(transfer) => TransferStep(r, m, transfer)
    case CompareGroup(compare) => CompareStep(r, m, compare)
    case BranchGroup(branch) => BranchStep(r, m, branch)
    case PushGroup(push) => PushStep(r, m, push)
    case PullGroup(pull) => PullStep(r, m, pull)
    case JumpGroup(jump) => JumpStep(r, m, jump)
    case FlagGroup(flag) => FlagStep(r, m, flag)
    case BlockMoveNext => BlockMoveNextStep(r, m)
    // `Unknown` and `Break` change nothing
    case Unknown => Ok(Machine(r, m))
    case Break => Ok(Machine(r, m))
  }

  /** `tick`: fetch the opcode byte, then execute the decoded tag. */
  function Step(r: Regs, m: Memory, op: Op): Result<Machine>
    requires WellFormed(m)
  {
    var opcode :- Fetch8(r, m);
    Execute(opcode.regs, m, op)
  }

  // ---------------------------------------------------------------------------
  // Loads into A, X and Y.

  function LoadStep(r: Regs, m: Memory, op: LoadOp): Result<Machine>
    requires WellFormed(m)
  {
    match op
    case LoadAImmediate => LoadAImmediateStep(r, m)
    case LoadAAbsolute => LoadAAbsoluteStep(r, m)
    case LoadADirectPage => LoadADirectPageStep(r, m)
    case LoadADirectPageIndirectLong => LoadADirectPageIndirectLongStep(r, m)
    case LoadAAbsoluteIndexedX => LoadAAbsoluteIndexedXStep(r, m)
    case LoadAAbsoluteLongIndexedX => LoadAAbsoluteLongIndexedXStep(r, m)
    case LoadAAbsoluteIndexedY => LoadAAbsoluteIndexedYStep(r, m)
    case LoadXImmediate => LoadXImmediateStep(r, m)
    case LoadXDirectPage => LoadXDirectPageStep(r, m)
    case LoadYImmediate => LoadYImmediateStep(r, m)
    case LoadYDirectPage => LoadYDirectPageStep(r, m)
  }

  function LoadAImmediateStep(r: Regs, m: Memory): Result<Machine>
    requires WellFormed(m)
  {
    if AU8Mode(r) then
      var f :- Fetch8(r, m);
      Ok(Machine(WithA(f.regs, LoadU8(f.regs.status, f.value)), m))
    else
      var f :- Fetch16(r, m);
      Ok(Machine(WithA(f.regs, LoadU16(f.regs.status, f.value)), m))
  }

  function LoadAAbsoluteStep(r: Regs, m: Memory): Result<Machine>
    requires WellFormed(m)
  {
    var f :- Fetch16(r, m);
    LoadAFrom(f.regs, m, BankAddr(f.regs.dataBank, f.value))
  }

  function LoadADirectPageStep(r: Regs, m: Memory): Result<Machine>
    requires WellFormed(m)
  {
    var f :- Fetch8(r, m);
    LoadAFrom(f.regs, m, DirectAddr(f.regs, f.value))
  }

  function LoadADirectPageIndirectLongStep(r: Regs, m: Memory): Result<Machine>
    requires WellFormed(m)
  {
    var f :- Fetch8(r, m);
    var pointer := DirectAddr(f.regs, f.value);
    if ReadableLong(m, pointer) then LoadAFrom(f.regs, m, ReadLong(m, pointer)) else Fault
  }

  function LoadAAbsoluteIndexedXStep(r: Regs, m: Memory): Result<Machine>
    requires WellFormed(m)
  {
    var f :- Fetch16(r, m);
    LoadAFrom(f.regs, m, BankAddr(f.regs.dataBank, f.value) + f.regs.x)
  }

  function LoadAAbsoluteLongIndexedXStep(r: Regs, m: Memory): Result<Machine>
    requires WellFormed(m)
  {
    var f :- FetchLong(r, m);
    LoadAFrom(f.regs, m, f.value + f.regs.x)
  }

  function LoadAAbsoluteIndexedYStep(r: Regs, m: Memory): Result<Machine>
    requires WellFormed(m)
  {
    var f :- Fetch16(r, m);
    LoadAFrom(f.regs, m, BankAddr(f.regs.dataBank, f.value) + f.regs.y)
  }

  function LoadXImmediateStep(r: Regs, m: Memory): Result<Machine>
    requires WellFormed(m)
  {
    if XYU8Mode(r) then
      var f :- Fetch8(r, m);
      Ok(Machine(WithX(f.regs, LoadU8(f.regs.status, f.value)), m))
    else
      var f :- Fetch16(r, m);
      Ok(Machine(WithX(f.regs, LoadU16(f.regs.status, f.value)), m))
  }

  function LoadXDirectPageStep(r: Regs, m: Memory): Result<Machine>
    requires WellFormed(m)
  {
    var f :- Fetch8(r, m);
    var v :- LoadWordFrom(m, DirectAddr(f.regs, f.value));
    Ok(Machine(WithX(f.regs, LoadU16(f.regs.status, v)), m))
  }

  function LoadYImmediateStep(r: Regs, m: Memory): Result<Machine>
    requires WellFormed(m)
  {
    if XYU8Mode(r) then
      var f :- Fetch8(r, m);
      Ok(Machine(WithY(f.regs, LoadU8(f.regs.status, f.value)), m))
    else
      var f :- Fetch16(r, m);
      Ok(Machine(WithY(f.regs, LoadU16(f.regs.status, f.value)), m))
  }

  function LoadYDirectPageStep(r: Regs, m: Memory): Result<Machine>
    requires WellFormed(m)
  {
    var f :- Fetch8(r, m);
    var v :- LoadWordFrom(m, DirectAddr(f.regs, f.value));
    Ok(Machine(WithY(f.regs, LoadU16(f.regs.status, v)), m))
  }

  // ---------------------------------------------------------------------------
  // Stores of A, X, Y (always 16-bit) and of a zero byte.

  function StoreStep(r: Regs, m: Memory, op: StoreOp): Result<Machine>
    requires WellFormed(m)
  {
    match op
    case StoreAAbsolute => StoreAAbsoluteStep(r, m)
    case StoreADirectPage => StoreADirectPageStep(r, m)
    case StoreAAbsoluteIndexedX => StoreAAbsoluteIndexedXStep(r, m)
    case StoreAAbsoluteLongIndexedX => StoreAAbsoluteLongIndexedXStep(r, m)
    case StoreADirectPageIndexedX => StoreADirectPageIndexedXStep(r, m)
    case StoreXAbsolute => StoreXAbsoluteStep(r, m)
    case StoreXDirectPage => StoreXDirectPageStep(r, m)
    case StoreYDirectPage => StoreYDirectPageStep(r, m)
    case StoreZeroAbsolute => StoreZeroAbsoluteStep(r, m)
    case StoreZeroDirectPage => StoreZeroDirectPageStep(r, m)
    case StoreZeroAbsoluteIndexedX => StoreZeroAbsoluteIndexedXStep(r, m)
    case StoreZeroDirectPageIndexedX => StoreZeroDirectPageIndexedXStep(r, m)
  }

  function StoreAAbsoluteStep(r: Regs, m: Memory): Result<Machine>
    requires WellFormed(m)
  {
    var f :- Fetch16(r, m);
    Ok(Machine(f.regs, StoreWord(m, BankAddr(f.regs.dataBank, f.value), f.regs.a)))
  }

  function StoreADirectPageStep(r: Regs, m: Memory): Result<Machine>
    requires WellFormed(m)
  {
    var f :- Fetch8(r, m);
    Ok(Machine(f.regs, StoreWord(m, DirectAddr(f.regs, f.value), f.regs.a)))
  }

  function StoreAAbsoluteIndexedXStep(r: Regs, m: Memory): Result<Machine>
    requires WellFormed(m)
  {
    var f :- Fetch16(r, m);
    Ok(Machine(f.regs, StoreWord(m, BankAddr(f.regs.dataBank, f.value) + f.regs.x, f.regs.a)))
  }

  function StoreAAbsoluteLongIndexedXStep(r: Regs, m: Memory): Result<Machine>
    requires WellFormed(m)
  {
    var f :- FetchLong(r, m);
    Ok(Machine(f.regs, StoreWord(m, f.value + f.regs.x, f.regs.a)))
  }

  function StoreADirectPageIndexedXStep(r: Regs, m: Memory): Result<Machine>
    requires WellFormed(m)
  {
    var f :- Fetch8(r, m);
    Ok(Machine(f.regs, StoreWord(m, DirectAddr(f.regs, f.value) + f.regs.x, f.regs.a)))
  }

  function StoreXAbsoluteStep(r: Regs, m: Memory): Result<Machine>
    requires WellFormed(m)
  {
    var f :- Fetch16(r, m);
    Ok(Machine(f.regs, StoreWord(m, BankAddr(f.regs.dataBank, f.value), f.regs.x)))
  }

  function StoreXDirectPageStep(r: Regs, m: Memory): Result<Machine>
    requires WellFormed(m)
  {
    var f :- Fetch8(r, m);
    Ok(Machine(f.regs, StoreWord(m, DirectAddr(f.regs, f.value), f.regs.x)))
  }

  function StoreYDirectPageStep(r: Regs, m: Memory): Result<Machine>
    requires WellFormed(m)
  {
    var f :- Fetch8(r, m);
    Ok(Machine(f.regs, StoreWord(m, DirectAddr(f.regs, f.value), f.regs.y)))
  }

  function StoreZeroAbsoluteStep(r: Regs, m: Memory): Result<Machine>
    requires WellFormed(m)
  {
    var f :- Fetch16(r, m);
    Ok(Machine(f.regs, Store(m, BankAddr(f.regs.dataBank, f.value), 0)))
  }

  function StoreZeroDirectPageStep(r: Regs, m: Memory): Result<Machine>
    requires WellFormed(m)
  {
    // as written, the direct-page operand is fetched as a word
    var f :- Fetch16(r, m);
    Ok(Machine(f.regs, Store(m, DirectAddr(f.regs, f.value), 0)))
  }

  function StoreZeroAbsoluteIndexedXStep(r: Regs, m: Memory): Result<Machine>
    requires WellFormed(m)
  {
    var f :- Fetch16(r, m);
    Ok(Machine(f.regs, Store(m, BankAddr(f.regs.dataBank, f.value) + f.regs.x, 0)))
  }

  function StoreZeroDirectPageIndexedXStep(r: Regs, m: Memory): Result<Machine>
    requires WellFormed(m)
  {
    var f :- Fetch8(r, m);
    Ok(Machine(f.regs, Store(m, DirectAddr(f.regs, f.value) + f.regs.x, 0)))
  }

  // ---------------------------------------------------------------------------
  // Add with carry, increments, decrements and the shift.

  function ArithmeticStep(r: Regs, m: Memory, op: ArithmeticOp): Result<Machine>
    requires WellFormed(m)
  {
    match op
    case AddWithCarryImmediate => AddWithCarryImmediateStep(r, m)
    case AddWithCarryAbsolute => AddWithCarryAbsoluteStep(r, m)
    case AddWithCarryDirectPage => AddWithCarryDirectPageStep(r, m)
    case IncrementDirectPage => IncrementDirectPageStep(r, m)
    case IncrementX => IncrementXStep(r, m)
    case IncrementY => IncrementYStep(r, m)
    case DecrementX => DecrementXStep(r, m)
    case DecrementY => DecrementYStep(r, m)
    case ShiftLeft => ShiftLeftStep(r, m)
  }

  function AddWithCarryImmediateStep(r: Regs, m: Memory): Result<Machine>
    requires WellFormed(m)
  {
    if AU8Mode(r) then
      var f :- Fetch8(r, m);
      Ok(Machine(WithA(f.regs, AdcU8(f.regs.a, f.regs.status, f.value)), m))
    else
      var f :- Fetch16(r, m);
      Ok(Machine(WithA(f.regs, AdcU16(f.regs.a, f.regs.status, f.value)), m))
  }

  function AddWithCarryAbsoluteStep(r: Regs, m: Memory): Result<Machine>
    requires WellFormed(m)
  {
    var f :- Fetch16(r, m);
    AdcFrom(f.regs, m, BankAddr(f.regs.dataBank, f.value))
  }

  function AddWithCarryDirectPageStep(r: Regs, m: Memory): Result<Machine>
    requires WellFormed(m)
  {
    var f :- Fetch8(r, m);
    AdcFrom(f.regs, m, DirectAddr(f.regs, f.value))
  }

  function IncrementDirectPageStep(r: Regs, m: Memory): Result<Machine>
    requires WellFormed(m)
  {
    var f :- Fetch8(r, m);
    var addr := DirectAddr(f.regs, f.value);
    if Readable(m, addr) then
      var v := Low8(Read(m, addr) + 1);
      Ok(Machine(f.regs.(status := NZ8(f.regs.status, v)), Store(m, addr, v)))
    else Fault
  }

  function IncrementXStep(r: Regs, m: Memory): Result<Machine>
    requires WellFormed(m)
  {
    var v := Wrap16(r.x + 1);
    Ok(Machine(r.(x := v, status := NZ16(r.status, v)), m))
  }

  function IncrementYStep(r: Regs, m: Memory): Result<Machine>
    requires WellFormed(m)
  {
    var v := Wrap16(r.y + 1);
    Ok(Machine(r.(y := v, status := NZ16(r.status, v)), m))
  }

  function DecrementXStep(r: Regs, m: Memory): Result<Machine>
    requires WellFormed(m)
  {
    var v := Wrap16(r.x - 1);
    Ok(Machine(r.(x := v, status := NZ16(r.status, v)), m))
  }

  function DecrementYStep(r: Regs, m: Memory): Result<Machine>
    requires WellFormed(m)
  {
    var v := Wrap16(r.y - 1);
    Ok(Machine(r.(y := v, status := NZ16(r.status, v)), m))
  }

  function ShiftLeftStep(r: Regs, m: Memory): Result<Machine>
    requires WellFormed(m)
  {
    var original := Low8(r.a);
    var v := Low8(original * 2);
    // as written, Z is taken from Y
    var s := SetNZC(r.status, Bit7(v), r.y == 0, Bit7(original));
    Ok(Machine(r.(a := v, status := s), m))
  }

  // ---------------------------------------------------------------------------
  // Register transfers and the byte exchange.

  function TransferStep(r: Regs, m: Memory, op: TransferOp): Result<Machine>
    requires WellFormed(m)
  {
    match op
    case MoveAX => MoveAXStep(r, m)
    case MoveAY => MoveAYStep(r, m)
    case MoveDA => MoveDAStep(r, m)
    case MoveXSP => MoveXSPStep(r, m)
    case ExchangeBA => ExchangeBAStep(r, m)
  }

  function MoveAXStep(r: Regs, m: Memory): Result<Machine>
    requires WellFormed(m)
  {
    Ok(Machine(r.(x := r.a, status := NZ16(r.status, r.a)), m))
  }

  function MoveAYStep(r: Regs, m: Memory): Result<Machine>
    requires WellFormed(m)
  {
    Ok(Machine(r.(y := r.a, status := NZ16(r.status, r.a)), m))
  }

  function MoveDAStep(r: Regs, m: Memory): Result<Machine>
    requires WellFormed(m)
  {
    Ok(Machine(r.(a := r.directPage, status := NZ16(r.status, r.directPage)), m))
  }

  function MoveXSPStep(r: Regs, m: Memory): Result<Machine>
    requires WellFormed(m)
  {
    Ok(Machine(r.(sp := r.x, status := NZ16(r.status, r.x)), m))
  }

  function ExchangeBAStep(r: Regs, m: Memory): Result<Machine>
    requires WellFormed(m)
  {
    var v := Low8(r.a) * 0x100 + r.a / 0x100;
    // as written, N and Z are both taken from bit 0
    var s := SetNZ(r.status, v % 2 == 1, v % 2 == 1);
    Ok(Machine(r.(a := v, status := s), m))
  }

  // ---------------------------------------------------------------------------
  // Compares of A and X.

  function CompareStep(r: Regs, m: Memory, op: CompareOp): Result<Machine>
    requires WellFormed(m)
  {
    match op
    case CompareImmediate => CompareImmediateStep(r, m)
    case CompareAbsolute => CompareAbsoluteStep(r, m)
    case CompareDirectPage => CompareDirectPageStep(r, m)
    case CompareAbsoluteLongIndexedX => CompareAbsoluteLongIndexedXStep(r, m)
    case CompareXImmediate => CompareXImmediateStep(r, m)
  }

  function CompareImmediateStep(r: Regs, m: Memory): Result<Machine>
    requires WellFormed(m)
  {
    if AU8Mode(r) then
      var f :- Fetch8(r, m);
      Ok(Machine(f.regs.(status := CompareU8(f.regs.status, Low8(f.regs.a), f.value)), m))
    else
      var f :- Fetch16(r, m);
      Ok(Machine(f.regs.(status := CompareU16(f.regs.status, f.regs.a, f.value)), m))
  }

  function CompareAbsoluteStep(r: Regs, m: Memory): Result<Machine>
    requires WellFormed(m)
  {
    var f :- Fetch16(r, m);
    CompareAWith(f.regs, m, BankAddr(f.regs.dataBank, f.value))
  }

  function CompareDirectPageStep(r: Regs, m: Memory): Result<Machine>
    requires WellFormed(m)
  {
    var f :- Fetch8(r, m);
    CompareAWith(f.regs, m, DirectAddr(f.regs, f.value))
  }

  function CompareAbsoluteLongIndexedXStep(r: Regs, m: Memory): Result<Machine>
    requires WellFormed(m)
  {
    var f :- FetchLong(r, m);
    CompareAWith(f.regs, m, f.value + f.regs.x)
  }

  function CompareXImmediateStep(r: Regs, m: Memory): Result<Machine>
    requires WellFormed(m)
  {
    if XYU8Mode(r) then
      var f :- Fetch8(r, m);
      Ok(Machine(f.regs.(status := CompareU8(f.regs.status, Low8(f.regs.x), f.value)), m))
    else
      var f :- Fetch16(r, m);
      Ok(Machine(f.regs.(status := CompareU16(f.regs.status, f.regs.x, f.value)), m))
  }

  // ---------------------------------------------------------------------------
  // Relative branches.

  function BranchStep(r: Regs, m: Memory, op: BranchOp): Result<Machine>
    requires WellFormed(m)
  {
    match op
    case BranchCarryClear => BranchCarryClearStep(r, m)
    case BranchCarrySet => BranchCarrySetStep(r, m)
    case BranchNotEqual => BranchNotEqualStep(r, m)
    case BranchEqual => BranchEqualStep(r, m)
    case BranchAlways => BranchAlwaysStep(r, m)
  }

  function BranchCarryClearStep(r: Regs, m: Memory): Result<Machine>
    requires WellFormed(m)
  {
    BranchIf(r, m, !Contains(r.status, CARRY))
  }

  function BranchCarrySetStep(r: Regs, m: Memory): Result<Machine>
    requires WellFormed(m)
  {
    BranchIf(r, m, Contains(r.status, CARRY))
  }

  function BranchNotEqualStep(r: Regs, m: Memory): Result<Machine>
    requires WellFormed(m)
  {
    BranchIf(r, m, !Contains(r.status, ZERO))
  }

  function BranchEqualStep(r: Regs, m: Memory): Result<Machine>
    requires WellFormed(m)
  {
    BranchIf(r, m, Contains(r.status, ZERO))
  }

  function BranchAlwaysStep(r: Regs, m: Memory): Result<Machine>
    requires WellFormed(m)
  {
    BranchIf(r, m, true)
  }

  // ---------------------------------------------------------------------------
  // Pushes.

  function PushStep(r: Regs, m: Memory, op: PushOp): Result<Machine>
    requires WellFormed(m)
  {
    match op
    case PushA => PushAStep(r, m)
    case PushB => PushBStep(r, m)
    case PushD => PushDStep(r, m)
    case PushX => PushXStep(r, m)
    case PushY => PushYStep(r, m)
    case PushStatus => PushStatusStep(r, m)
    case PushAbsolute => PushAbsoluteStep(r, m)
  }

  function PushAStep(r: Regs, m: Memory): Result<Machine>
    requires WellFormed(m)
  {
    if AU8Mode(r) then Push8(r, m, Low8(r.a)) else Push16(r, m, r.a)
  }

  function PushBStep(r: Regs, m: Memory): Result<Machine>
    requires WellFormed(m)
  {
    Push8(r, m, r.dataBank)
  }

  function PushDStep(r: Regs, m: Memory): Result<Machine>
    requires WellFormed(m)
  {
    Push16(r, m, r.directPage)
  }

  function PushXStep(r: Regs, m: Memory): Result<Machine>
    requires WellFormed(m)
  {
    if XYU8Mode(r) then Push8(r, m, Low8(r.x)) else Push16(r, m, r.x)
  }

  function PushYStep(r: Regs, m: Memory): Result<Machine>
    requires WellFormed(m)
  {
    if XYU8Mode(r) then Push8(r, m, Low8(r.y)) else Push16(r, m, r.y)
  }

  function PushStatusStep(r: Regs, m: Memory): Result<Machine>
    requires WellFormed(m)
  {
    Push8(r, m, r.status as int)
  }

  function PushAbsoluteStep(r: Regs, m: Memory): Result<Machine>
    requires WellFormed(m)
  {
    var f :- Fetch16(r, m);
    Push16(f.regs, m, f.value)
  }

  // ---------------------------------------------------------------------------
  // Pulls.

  function PullStep(r: Regs, m: Memory, op: PullOp): Result<Machine>
    requires WellFormed(m)
  {
    match op
    case PullA => PullAStep(r, m)
    case PullB => PullBStep(r, m)
    case PullD => PullDStep(r, m)
    case PullX => PullXStep(r, m)
    case PullY => PullYStep(r, m)
    case PullStatus => PullStatusStep(r, m)
  }

  function PullAStep(r: Regs, m: Memory): Result<Machine>
    requires WellFormed(m)
  {
    if AU8Mode(r) then
      var p :- Pull8(r, m);
      Ok(Machine(WithA(p.regs, LoadU8(p.regs.status, p.value)), m))
    else
      var p :- Pull16(r, m);
      Ok(Machine(WithA(p.regs, LoadU16(p.regs.status, p.value)), m))
  }

  function PullBStep(r: Regs, m: Memory): Result<Machine>
    requires WellFormed(m)
  {
    var p :- Pull8(r, m);
    Ok(Machine(p.regs.(dataBank := p.value, status := NZ8(p.regs.status, p.value)), m))
  }

  function PullDStep(r: Regs, m: Memory): Result<Machine>
    requires WellFormed(m)
  {
    var p :- Pull16(r, m);
    Ok(Machine(WithD(p.regs, LoadU16(p.regs.status, p.value)), m))
  }

  function PullXStep(r: Regs, m: Memory): Result<Machine>
    requires WellFormed(m)
  {
    if XYU8Mode(r) then
      var p :- Pull8(r, m);
      Ok(Machine(WithX(p.regs, LoadU8(p.regs.status, p.value)), m))
    else
      var p :- Pull16(r, m);
      Ok(Machine(WithX(p.regs, LoadU16(p.regs.status, p.value)), m))
  }

  function PullYStep(r: Regs, m: Memory): Result<Machine>
    requires WellFormed(m)
  {
    if XYU8Mode(r) then
      var p :- Pull8(r, m);
      Ok(Machine(WithY(p.regs, LoadU8(p.regs.status, p.value)), m))
    else
      var p :- Pull16(r, m);
      Ok(Machine(WithY(p.regs, LoadU16(p.regs.status, p.value)), m))
  }

  function PullStatusStep(r: Regs, m: Memory): Result<Machine>
    requires WellFormed(m)
  {
    var p :- Pull8(r, m);
    Ok(Machine(p.regs.(status := NZ8(p.value as bv8, p.value)), m))
  }

  // ---------------------------------------------------------------------------
  // Jumps, calls and returns.

  function JumpStep(r: Regs, m: Memory, op: JumpOp): Result<Machine>
    requires WellFormed(m)
  {
    match op
    case JumpAbsolute => JumpAbsoluteStep(r, m)
    case JumpSubRoutineAbsolute => JumpSubRoutineAbsoluteStep(r, m)
    case JumpSubRoutineAbsoluteLong => JumpSubRoutineAbsoluteLongStep(r, m)
    case Return => ReturnStep(r, m)
    case ReturnLong => ReturnLongStep(r, m)
  }

  function JumpAbsoluteStep(r: Regs, m: Memory): Result<Machine>
    requires WellFormed(m)
  {
    var f :- Fetch16(r, m);
    Ok(Machine(f.regs.(pc := f.value), m))
  }

  function JumpSubRoutineAbsoluteStep(r: Regs, m: Memory): Result<Machine>
    requires WellFormed(m)
  {
    var f :- Fetch16(r, m);
    var pushed :- Push16(f.regs, m, f.regs.pc - 1);
    Ok(Machine(pushed.regs.(pc := f.value), pushed.mem))
  }

  function JumpSubRoutineAbsoluteLongStep(r: Regs, m: Memory): Result<Machine>
    requires WellFormed(m)
  {
    var target :- Fetch16(r, m);
    var bank :- Fetch8(target.regs, m);
    var pushedPc :- Push16(bank.regs, m, bank.regs.pc - 1);
    var pushedBank :- Push8(pushedPc.regs, pushedPc.mem, pushedPc.regs.programBank);
    Ok(Machine(pushedBank.regs.(programBank := bank.value, pc := target.value), pushedBank.mem))
  }

  function ReturnStep(r: Regs, m: Memory): Result<Machine>
    requires WellFormed(m)
  {
    var p :- Pull16(r, m);
    Ok(Machine(p.regs.(pc := Wrap16(p.value + 1)), m))
  }

  function ReturnLongStep(r: Regs, m: Memory): Result<Machine>
    requires WellFormed(m)
  {
    var bank :- Pull8(r, m);
    var p :- Pull16(bank.regs, m);
    Ok(Machine(p.regs.(pc := Wrap16(p.value + 1), programBank := bank.value), m))
  }

  // ---------------------------------------------------------------------------
  // The instructions that only change the status register or the mode.

  function FlagStep(r: Regs, m: Memory, op: FlagOp): Result<Machine>
    requires WellFormed(m)
  {
    match op
    case ClearCarry => ClearCarryStep(r, m)
    case SetIrqDisable => SetIrqDisableStep(r, m)
    case ResetFlags => ResetFlagsStep(r, m)
    case SetFlags => SetFlagsStep(r, m)
    case ExchangeCE => ExchangeCEStep(r, m)
  }

  function ClearCarryStep(r: Regs, m: Memory): Result<Machine>
    requires WellFormed(m)
  {
    Ok(Machine(r.(status := Remove(r.status, CARRY)), m))
  }

  function SetIrqDisableStep(r: Regs, m: Memory): Result<Machine>
    requires WellFormed(m)
  {
    Ok(Machine(r.(status := Insert(r.status, IRQ_DISABLE)), m))
  }

  function ResetFlagsStep(r: Regs, m: Memory): Result<Machine>
    requires WellFormed(m)
  {
    var f :- Fetch8(r, m);
    Ok(Machine(f.regs.(status := Remove(f.regs.status, f.value as bv8)), m))
  }

  function SetFlagsStep(r: Regs, m: Memory): Result<Machine>
    requires WellFormed(m)
  {
    var f :- Fetch8(r, m);
    Ok(Machine(f.regs.(status := Insert(f.regs.status, f.value as bv8)), m))
  }

  function ExchangeCEStep(r: Regs, m: Memory): Result<Machine>
    requires WellFormed(m)
  {
    var carry := Contains(r.status, CARRY);
    Ok(Machine(r.(emulation := carry, status := Toggle(r.status, CARRY)), m))
  }

  // ---------------------------------------------------------------------------
  // The block move

  /** `MVN`: destination bank, then source bank, then the copy loop. */
  function BlockMoveNextStep(r: Regs, m: Memory): Result<Machine>
    requires WellFormed(m)
  {
    var dest :- Fetch8(r, m);
    var src :- Fetch8(dest.regs, m);
    MoveLoop(src.regs.(dataBank := dest.value), m, src.value)
  }
}
