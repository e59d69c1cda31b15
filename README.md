# snesemu core in Dafny

A model of the processor core of snesemu, an emulator of the 65C816 CPU in the
Super Nintendo, with proofs about it. Six parts follow the program's own
layout:

- **Bits** (`bits.dfy`) and **Status** (`status.dfy`) hold the fixed-width
  integers and the 8-bit status register with its bitflags operations
  (`insert`, `remove`, `toggle`, `set`).
- **Ops** (`ops.dfy`) holds the flag-setting primitives of `src/cpu/ops.rs`:
  loads, compares, the relative branch and add-with-carry.
- **MemoryMap** (`mmu.dfy`) holds the LoROM memory map as a value. It covers
  the address decode, reads and stores, the little-endian word and 24-bit
  reads, and the reset vector. The `Mmu` class puts these on mutable fields.
- **CpuSemantics** (`semantics.dfy`) and **Execution** (`execute.dfy`) hold
  the processor as a function of registers and memory. This covers fetches,
  the stack, the `MVN` loop, and one step function per arm of `tick`. A panic
  of the source (an unimplemented bank, a ROM index past the cartridge, a
  `u16` overflow in `pc += n` or on the stack pointer) is a `Fault`.
- **Processor** (`cpu.dfy`) holds the `Cpu` class. It has one method per
  operation of `src/cpu.rs`. Each method updates the fields in place and is
  proved to reach exactly the state the matching step function gives.
- **Properties** (`properties.dfy`) holds what the instructions promise
  together: push/pull and call/return round trips, frame conditions of whole
  instruction families, the width switches of `REP`/`SEP`/`XCE`, and the
  registers at the end of the block-move loop.
- **Hex** (`hex.dfy`) and **Disassembly** (`inst.dfy`) hold the `Instruction`
  enum and its `asm` text. Each operand form is proved to place its hex
  digits where they read back as the operand.

The model reproduces these behaviours of the source as written:

- `STZ dp` fetches a two-byte operand.
- `ASL A` takes Z from Y.
- `XBA` takes N and Z from bit 0.
- The 16-bit `ADC` takes N from bit 7.
- `ADC` derives C from `result < old`, so it misses the carry when the
  carry-in wraps the operand.
- Direct-page and indexed addresses are summed in 32 bits and may carry into
  the bank byte.

Opcode decoding (`from_opcode`) is not modelled. The instruction tag is an
input to `Tick`.

## Model

| member | source | states |
|---|---|---|
| Bits.Low8 | src/cpu/ops.rs:47 | `as u8` keeps the low byte: identity below 0x100, minus 0x100 on the next 256 values |
| Bits.Wrap16 | src/cpu.rs:392 | `wrapping_add`/`wrapping_sub` on `u16`: identity in range, one wrap of 2^16 either way |
| Bits.Bit7OfByte | src/cpu/ops.rs:6 | `(v >> 7) & 1 == 1` holds exactly for bytes of at least 0x80 |
| Bits.Bit15OfWord | src/cpu/ops.rs:13 | `(v >> 15) & 1 == 1` holds exactly for words of at least 0x8000 |
| Status.Insert | src/cpu.rs:717 | `insert` sets every bit of the mask and keeps the others |
| Status.Remove | src/cpu.rs:713 | `remove` clears every bit of the mask and keeps the others |
| Status.Toggle | src/cpu.rs:736 | `toggle` inverts the bits of the mask and keeps the others |
| Status.Set | src/cpu/ops.rs:6-7 | `set(mask, value)` sets or clears the mask by `value` and keeps the others |
| Status.SetNZ | src/cpu/ops.rs:6-7 | after setting N then Z, N reads back `n`, Z reads back `z`, other bits unchanged |
| Status.SetNZC | src/cpu/ops.rs:20-22 | after setting N, Z then C each reads back its value, other bits unchanged |
| Status.SetThenContains | src/cpu/ops.rs:6 | reading a single-bit flag after `set` gives the value set |
| Ops.LoadU8 | src/cpu/ops.rs:3-8 | target is the byte; N iff it is at least 0x80; Z iff zero; no other flag changes |
| Ops.LoadU16 | src/cpu/ops.rs:10-15 | target is the word; N iff bit 15; Z iff zero; no other flag changes |
| Ops.CompareU8 | src/cpu/ops.rs:17-23 | C iff lhs >= rhs unsigned, Z iff equal, N from bit 7 of the wrapped difference; nothing else changes |
| Ops.CompareU16 | src/cpu/ops.rs:25-31 | as CompareU8 at 16 bits, N from bit 15 |
| Ops.Signed8 | src/cpu/ops.rs:35-39 | the displacement read in two's complement: in [-128, 128) and congruent to the byte modulo 256 |
| Ops.Branch | src/cpu/ops.rs:33-44 | not taken: PC unchanged; taken: PC plus the signed displacement modulo 2^16, no carry into the bank |
| Ops.AdcU8 | src/cpu/ops.rs:46-58 | A becomes (low byte of A + operand + carry-in) modulo 256; N, Z from it; C exactly when that sum reached 0x100 while operand + carry-in stayed below 0x100 (the `new < old` test); V and the rest unchanged |
| Ops.AdcU16 | src/cpu/ops.rs:60-72 | A becomes (A + operand + carry-in) modulo 2^16; Z from it; N from its bit 7; C exactly when the sum reached 2^16 while operand + carry-in stayed below 2^16 |
| Ops.AddBytesWithCarry | src/cpu/ops.rs:47-53 | the two wrapping adds equal one add modulo 256, and the result is below the old byte exactly when the true sum overflowed and operand + carry did not wrap on its own |
| Ops.AddWordsWithCarry | src/cpu/ops.rs:61-67 | as AddBytesWithCarry at 16 bits |
| Ops.BranchExtremes | src/cpu/ops.rs:38-42 | displacement 0x80 moves PC back by 128, 0x7F forward by 127 |
| Ops.AdcU8Wraps | src/cpu/ops.rs:46-58 | 0xFF + 1 with carry clear gives 0 with C and Z set and N clear |
| Ops.AdcU8LosesCarry | src/cpu/ops.rs:53 | as written, 0x01 + 0xFF with carry set overflows yet leaves C clear: the carry-in wraps the operand first |
| Ops.AdcU16SignFromBit7 | src/cpu/ops.rs:65 | as written, a 16-bit result of 0x8000 leaves N clear while 0x0080 sets it |
| MemoryMap.Initial | src/mmu.rs:9-16 | the cartridge as given, 128000 zeroed RAM bytes, APU ports AA BB 00 00 |
| MemoryMap.Decode | src/mmu.rs:18-73 | the LoROM decode table: RAM indices below 0x1_0000 and APU port indices below 4 |
| MemoryMap.Read | src/mmu.rs:18-74 | reading a placeholder region gives 0 |
| MemoryMap.Store | src/mmu.rs:76-132 | a store keeps the cartridge and the memory shape, and is ignored at an address that names no writable cell |
| MemoryMap.ReadWord | src/mmu.rs:134-139 | low byte from `addr`, high byte from `addr + 1` |
| MemoryMap.ReadLong | src/mmu.rs:141-147 | a 24-bit value whose three bytes are those at `addr`, `addr + 1`, `addr + 2` |
| MemoryMap.LittleEndian24 | src/mmu.rs:146 | the three bytes of a little-endian 24-bit value come back out of it |
| MemoryMap.StoreWord | src/mmu.rs:149-154 | keeps the cartridge and the memory shape |
| MemoryMap.ResetVector | src/mmu.rs:156-158 | the word with low byte at cartridge offset 0x7FFC and high byte at 0x7FFD |
| MemoryMap.LowRamMirrors | src/mmu.rs:25-28 | banks 0x00-0x3F below 0x2000 and bank 0x7E name the same RAM cell |
| MemoryMap.RomWindow | src/mmu.rs:25-60 | in banks 0x00-0x3F offsets from 0x8000 map to ROM index (offset - 0x8000) + bank * 0x8000 |
| MemoryMap.MappingExamples | src/mmu.rs:18-73 | concrete decodes: ROM start, RAM mirror, the four APU ports, placeholders and unimplemented banks |
| MemoryMap.SameCellSameOffset | src/mmu.rs:76-132 | two writable addresses share a cell only if their offsets within the bank agree |
| MemoryMap.ReadAfterStore | src/mmu.rs:76-132 | after a store, a read sees the stored byte exactly where the cell is the same, else the old byte |
| MemoryMap.StoreThenRead | src/mmu.rs:76-132 | a read at a writable address just stored returns the stored byte |
| MemoryMap.StoreWordThenReadWord | src/mmu.rs:134-154 | the word stored at two writable addresses reads back |
| MemoryMap.StoreWordFrame | src/mmu.rs:149-154 | a word store leaves every other cell unchanged |
| MemoryMap.ResetVectorIsWordAtFFFC | src/mmu.rs:156-158 | the reset vector equals the word the CPU reads at 0x00FFFC |
| MemoryMap.Mmu.State | src/mmu.rs:1-6 | the object's fields as a memory value; a valid object gives a well-formed one |
| MemoryMap.Mmu.constructor | src/mmu.rs:9-16 | the new object holds the initial memory for its cartridge |
| MemoryMap.Mmu.StoreU8 | src/mmu.rs:76-132 | the new state is `Store` of the old one |
| MemoryMap.Mmu.StoreU16 | src/mmu.rs:149-154 | the new state is `StoreWord` of the old one |
| CpuSemantics.BankAddr | src/cpu.rs:11-13 | the bank lands in bits 16-23 and the offset in bits 0-15, below 2^24 |
| Processor.Cpu.constructor | src/cpu.rs:48-67 | the registers are the power-on value: emulation, SP 0x01FF, everything else zero |
| Processor.Cpu.SetCurrentAddr | src/cpu.rs:73-76 | bank from bits 16-23, PC from bits 0-15; the current address is the argument modulo 2^24 |
| Processor.Cpu.FetchU8 | src/cpu.rs:86-91 | returns the byte and registers `Fetch8` gives |
| Processor.Cpu.FetchU16 | src/cpu.rs:93-98 | returns the word and registers `Fetch16` gives |
| Processor.Cpu.FetchLong | src/cpu.rs:100-105 | returns the 24-bit address and registers `FetchLong` gives |
| Processor.Cpu.PushU8 | src/cpu.rs:107-110 | new registers and memory are those of `Push8` |
| Processor.Cpu.PushU16 | src/cpu.rs:112-115 | new registers and memory are those of `Push16` |
| Processor.Cpu.PullU8 | src/cpu.rs:117-120 | returns the byte and registers `Pull8` gives |
| Processor.Cpu.PullU16 | src/cpu.rs:122-125 | returns the word and registers `Pull16` gives |
| Processor.Cpu.BlockMove | src/cpu.rs:481-488 | the loop ends in the state `MoveLoop` gives; what that state holds is proved in `Properties.MoveLoopRegisters`, `MoveLoopCopies`, `MoveLoopFrame` and `MoveLoopFaults` |
| Processor.Cpu.MoveOne | src/cpu.rs:482-487 | copies one byte from (source, X) to (data bank, Y) and steps A down, X and Y up |
| Processor.Cpu.Tick | src/cpu.rs:127-743 | the new registers and memory are those `Step` gives for the decoded tag |
| Processor.Cpu.Dispatch | src/cpu.rs:131-742 | the new state is what `Execute` gives for the tag |
| Processor.Cpu.ExecuteLoad | src/cpu.rs:134-248 | the loads arms: the new state is what the family's step function gives |
| Processor.Cpu.ExecuteStore | src/cpu.rs:250-331 | the stores arms: the new state is what the family's step function gives |
| Processor.Cpu.ExecuteArithmetic | src/cpu.rs:333-433 | the arithmetic and shift arms: the new state is what the family's step function gives |
| Processor.Cpu.ExecuteTransfer | src/cpu.rs:435-474 | the register transfer arms: the new state is what the family's step function gives |
| Processor.Cpu.ExecuteCompare | src/cpu.rs:495-546 | the compare arms: the new state is what the family's step function gives |
| Processor.Cpu.ExecuteBranch | src/cpu.rs:548-575 | the branch arms: the new state is what the family's step function gives |
| Processor.Cpu.ExecutePush | src/cpu.rs:577-617 | the push arms: the new state is what the family's step function gives |
| Processor.Cpu.ExecutePull | src/cpu.rs:619-671 | the pull arms: the new state is what the family's step function gives |
| Processor.Cpu.ExecuteJump | src/cpu.rs:673-710 | the jump, call and return arms: the new state is what the family's step function gives |
| Processor.Cpu.ExecuteFlag | src/cpu.rs:712-737 | the status-flag arms: the new state is what the family's step function gives |
| Processor.Cpu.ExecuteLoadAImmediate | src/cpu.rs:134-142 | fetches a byte in 8-bit accumulator mode and a word otherwise and loads it into A with N and Z; the new state is `LoadAImmediateStep` of the old one |
| Processor.Cpu.ExecuteLoadAAbsolute | src/cpu.rs:144-153 | loads A (8-bit, `load_u8`) from (data bank, operand word); the new state is `LoadAAbsoluteStep` of the old one |
| Processor.Cpu.ExecuteLoadADirectPage | src/cpu.rs:155-164 | loads A from the 32-bit sum D + operand byte; the new state is `LoadADirectPageStep` of the old one |
| Processor.Cpu.ExecuteLoadADirectPageIndirectLong | src/cpu.rs:166-173 | reads a 24-bit pointer at D + operand and loads A from the byte it points to; the new state is `LoadADirectPageIndirectLongStep` of the old one |
| Processor.Cpu.ExecuteLoadAAbsoluteIndexedX | src/cpu.rs:175-184 | loads A from (data bank, operand) + X, summed in 32 bits; the new state is `LoadAAbsoluteIndexedXStep` of the old one |
| Processor.Cpu.ExecuteLoadAAbsoluteLongIndexedX | src/cpu.rs:186-195 | loads A from the 24-bit operand + X; the new state is `LoadAAbsoluteLongIndexedXStep` of the old one |
| Processor.Cpu.ExecuteLoadAAbsoluteIndexedY | src/cpu.rs:197-206 | loads A from (data bank, operand) + Y; the new state is `LoadAAbsoluteIndexedYStep` of the old one |
| Processor.Cpu.ExecuteLoadXImmediate | src/cpu.rs:208-216 | the new state is `LoadXImmediateStep` of the old one; its operand width and effect are stated in `Properties.LoadXImmediateWidth` |
| Processor.Cpu.ExecuteLoadXDirectPage | src/cpu.rs:218-227 | loads X with the word at D + operand, always 16-bit; the new state is `LoadXDirectPageStep` of the old one |
| Processor.Cpu.ExecuteLoadYImmediate | src/cpu.rs:229-237 | the new state is `LoadYImmediateStep` of the old one; its operand width and effect are stated in `Properties.LoadYImmediateWidth` |
| Processor.Cpu.ExecuteLoadYDirectPage | src/cpu.rs:239-248 | loads Y with the word at D + operand, always 16-bit; the new state is `LoadYDirectPageStep` of the old one |
| Processor.Cpu.ExecuteStoreAAbsolute | src/cpu.rs:250-255 | stores the whole of A as a word at (data bank, operand); the new state is `StoreAAbsoluteStep` of the old one |
| Processor.Cpu.ExecuteStoreADirectPage | src/cpu.rs:257-262 | stores A as a word at D + operand; the new state is `StoreADirectPageStep` of the old one |
| Processor.Cpu.ExecuteStoreAAbsoluteIndexedX | src/cpu.rs:264-269 | stores A as a word at (data bank, operand) + X; the new state is `StoreAAbsoluteIndexedXStep` of the old one |
| Processor.Cpu.ExecuteStoreAAbsoluteLongIndexedX | src/cpu.rs:271-276 | stores A as a word at the 24-bit operand + X; the new state is `StoreAAbsoluteLongIndexedXStep` of the old one |
| Processor.Cpu.ExecuteStoreADirectPageIndexedX | src/cpu.rs:278-286 | stores A as a word at D + operand + X; the new state is `StoreADirectPageIndexedXStep` of the old one |
| Processor.Cpu.ExecuteStoreXAbsolute | src/cpu.rs:288-293 | stores X as a word at (data bank, operand); the new state is `StoreXAbsoluteStep` of the old one |
| Processor.Cpu.ExecuteStoreXDirectPage | src/cpu.rs:295-300 | stores X as a word at D + operand; the new state is `StoreXDirectPageStep` of the old one |
| Processor.Cpu.ExecuteStoreYDirectPage | src/cpu.rs:302-307 | stores Y as a word at D + operand; the new state is `StoreYDirectPageStep` of the old one |
| Processor.Cpu.ExecuteStoreZeroAbsolute | src/cpu.rs:309-313 | stores a zero byte at (data bank, operand); the new state is `StoreZeroAbsoluteStep` of the old one |
| Processor.Cpu.ExecuteStoreZeroDirectPage | src/cpu.rs:315-319 | fetches a two-byte operand and stores a zero byte at D + operand; the new state is `StoreZeroDirectPageStep` of the old one |
| Processor.Cpu.ExecuteStoreZeroAbsoluteIndexedX | src/cpu.rs:321-325 | stores a zero byte at (data bank, operand) + X; the new state is `StoreZeroAbsoluteIndexedXStep` of the old one |
| Processor.Cpu.ExecuteStoreZeroDirectPageIndexedX | src/cpu.rs:327-331 | stores a zero byte at D + operand + X; the new state is `StoreZeroDirectPageIndexedXStep` of the old one |
| Processor.Cpu.ExecuteAddWithCarryImmediate | src/cpu.rs:333-341 | the new state is `AddWithCarryImmediateStep` of the old one; its operand width and effect are stated in `Properties.AddImmediateWidth` |
| Processor.Cpu.ExecuteAddWithCarryAbsolute | src/cpu.rs:343-359 | adds the byte or word at (data bank, operand) and the carry to A; the new state is `AddWithCarryAbsoluteStep` of the old one |
| Processor.Cpu.ExecuteAddWithCarryDirectPage | src/cpu.rs:361-377 | adds the byte or word at D + operand and the carry to A; the new state is `AddWithCarryDirectPageStep` of the old one |
| Processor.Cpu.ExecuteIncrementDirectPage | src/cpu.rs:379-389 | increments the byte at D + operand modulo 256 and sets N and Z from it; the new state is `IncrementDirectPageStep` of the old one |
| Processor.Cpu.ExecuteIncrementX | src/cpu.rs:391-397 | increments X modulo 2^16, N from bit 15, Z from zero; the new state is `IncrementXStep` of the old one |
| Processor.Cpu.ExecuteIncrementY | src/cpu.rs:399-405 | increments Y modulo 2^16, N from bit 15, Z from zero; the new state is `IncrementYStep` of the old one |
| Processor.Cpu.ExecuteDecrementX | src/cpu.rs:407-413 | decrements X modulo 2^16, N from bit 15, Z from zero; the new state is `DecrementXStep` of the old one |
| Processor.Cpu.ExecuteDecrementY | src/cpu.rs:415-421 | decrements Y modulo 2^16, N from bit 15, Z from zero; the new state is `DecrementYStep` of the old one |
| Processor.Cpu.ExecuteShiftLeft | src/cpu.rs:423-433 | shifts the low byte of A left, C from its bit 7, N from the result and Z from Y; the new state is `ShiftLeftStep` of the old one |
| Processor.Cpu.ExecuteMoveAX | src/cpu.rs:435-441 | copies A into X with 16-bit N and Z; the new state is `MoveAXStep` of the old one |
| Processor.Cpu.ExecuteMoveAY | src/cpu.rs:443-449 | copies A into Y with 16-bit N and Z; the new state is `MoveAYStep` of the old one |
| Processor.Cpu.ExecuteMoveDA | src/cpu.rs:451-457 | copies D into A with 16-bit N and Z; the new state is `MoveDAStep` of the old one |
| Processor.Cpu.ExecuteMoveXSP | src/cpu.rs:459-466 | copies X into SP with 16-bit N and Z; the new state is `MoveXSPStep` of the old one |
| Processor.Cpu.ExecuteExchangeBA | src/cpu.rs:468-474 | swaps the bytes of A; N and Z both from bit 0; the new state is `ExchangeBAStep` of the old one |
| Processor.Cpu.ExecuteBlockMoveNext | src/cpu.rs:476-493 | the new state is `BlockMoveNextStep` of the old one; `Properties.BlockMoveNextEffect` states the fetch order and the data bank, and the loop lemmas state the registers, the copy and the frame |
| Processor.Cpu.ExecuteCompareImmediate | src/cpu.rs:495-503 | the new state is `CompareImmediateStep` of the old one; its operand width and effect are stated in `Properties.CompareImmediateWidth` |
| Processor.Cpu.ExecuteCompareAbsolute | src/cpu.rs:505-514 | compares the low byte of A with the byte at (data bank, operand); the new state is `CompareAbsoluteStep` of the old one |
| Processor.Cpu.ExecuteCompareDirectPage | src/cpu.rs:516-525 | compares the low byte of A with the byte at D + operand; the new state is `CompareDirectPageStep` of the old one |
| Processor.Cpu.ExecuteCompareAbsoluteLongIndexedX | src/cpu.rs:527-536 | compares the low byte of A with the byte at the 24-bit operand + X; the new state is `CompareAbsoluteLongIndexedXStep` of the old one |
| Processor.Cpu.ExecuteCompareXImmediate | src/cpu.rs:538-546 | the new state is `CompareXImmediateStep` of the old one; its operand width and effect are stated in `Properties.CompareXImmediateWidth` |
| Processor.Cpu.ExecuteBranchCarryClear | src/cpu.rs:548-552 | branches by the fetched displacement when C is clear; the new state is `BranchCarryClearStep` of the old one |
| Processor.Cpu.ExecuteBranchCarrySet | src/cpu.rs:554-558 | branches when C is set; the new state is `BranchCarrySetStep` of the old one |
| Processor.Cpu.ExecuteBranchNotEqual | src/cpu.rs:560-564 | branches when Z is clear; the new state is `BranchNotEqualStep` of the old one |
| Processor.Cpu.ExecuteBranchEqual | src/cpu.rs:566-570 | branches when Z is set; the new state is `BranchEqualStep` of the old one |
| Processor.Cpu.ExecuteBranchAlways | src/cpu.rs:572-575 | always branches; the new state is `BranchAlwaysStep` of the old one |
| Processor.Cpu.ExecutePushA | src/cpu.rs:577-583 | pushes the low byte of A in 8-bit mode, else the word; the new state is `PushAStep` of the old one |
| Processor.Cpu.ExecutePushB | src/cpu.rs:585-587 | pushes the data bank byte; the new state is `PushBStep` of the old one |
| Processor.Cpu.ExecutePushD | src/cpu.rs:589-591 | pushes D as a word; the new state is `PushDStep` of the old one |
| Processor.Cpu.ExecutePushX | src/cpu.rs:593-599 | pushes X as a byte or a word by the index width; the new state is `PushXStep` of the old one |
| Processor.Cpu.ExecutePushY | src/cpu.rs:601-607 | pushes Y as a byte or a word by the index width; the new state is `PushYStep` of the old one |
| Processor.Cpu.ExecutePushStatus | src/cpu.rs:609-611 | pushes the status byte; the new state is `PushStatusStep` of the old one |
| Processor.Cpu.ExecutePushAbsolute | src/cpu.rs:613-617 | pushes the operand word; the new state is `PushAbsoluteStep` of the old one |
| Processor.Cpu.ExecutePullA | src/cpu.rs:619-627 | pulls a byte or a word into A by the accumulator width, with N and Z; the new state is `PullAStep` of the old one |
| Processor.Cpu.ExecutePullB | src/cpu.rs:629-637 | pulls the data bank byte, N and Z from it; the new state is `PullBStep` of the old one |
| Processor.Cpu.ExecutePullD | src/cpu.rs:639-642 | pulls D as a word with N and Z; the new state is `PullDStep` of the old one |
| Processor.Cpu.ExecutePullX | src/cpu.rs:644-652 | pulls X at the index width with N and Z; the new state is `PullXStep` of the old one |
| Processor.Cpu.ExecutePullY | src/cpu.rs:654-662 | pulls Y at the index width with N and Z; the new state is `PullYStep` of the old one |
| Processor.Cpu.ExecutePullStatus | src/cpu.rs:664-671 | pulls the status byte, then sets N and Z from the pulled byte; the new state is `PullStatusStep` of the old one |
| Processor.Cpu.ExecuteJumpAbsolute | src/cpu.rs:673-677 | sets PC to the operand word; the new state is `JumpAbsoluteStep` of the old one |
| Processor.Cpu.ExecuteJumpSubRoutineAbsolute | src/cpu.rs:679-685 | pushes PC - 1 after the operand fetch and jumps to the operand; the new state is `JumpSubRoutineAbsoluteStep` of the old one |
| Processor.Cpu.ExecuteJumpSubRoutineAbsoluteLong | src/cpu.rs:687-696 | pushes PC - 1 and the program bank, then enters the operand bank and address; the new state is `JumpSubRoutineAbsoluteLongStep` of the old one |
| Processor.Cpu.ExecuteReturn | src/cpu.rs:698-702 | pulls a word and resumes one past it, modulo 2^16; the new state is `ReturnStep` of the old one |
| Processor.Cpu.ExecuteReturnLong | src/cpu.rs:704-710 | pulls the bank, then a word, and resumes one past the word in that bank; the new state is `ReturnLongStep` of the old one |
| Processor.Cpu.ExecuteClearCarry | src/cpu.rs:712-714 | clears C; the new state is `ClearCarryStep` of the old one |
| Processor.Cpu.ExecuteSetIrqDisable | src/cpu.rs:716-718 | sets I; the new state is `SetIrqDisableStep` of the old one |
| Processor.Cpu.ExecuteResetFlags | src/cpu.rs:720-724 | clears the status bits of the fetched mask; the new state is `ResetFlagsStep` of the old one |
| Processor.Cpu.ExecuteSetFlags | src/cpu.rs:726-730 | sets the status bits of the fetched mask; the new state is `SetFlagsStep` of the old one |
| Processor.Cpu.ExecuteExchangeCE | src/cpu.rs:732-737 | copies C into the emulation bit, then toggles C; the new state is `ExchangeCEStep` of the old one |
| Properties.EmulationForcesByteModes | src/cpu.rs:78-84 | emulation forces both 8-bit widths; in native mode each width follows its status bit |
| Properties.PowerOnState | src/cpu.rs:48-67 | power-on is 8-bit for A and X/Y, SP 0x01FF and execution at 0x000000 |
| Properties.NoOperation | src/cpu.rs:739-741 | `Unknown` and `BRK` succeed exactly when the opcode byte can be fetched, and then only PC moves, by one; memory unchanged |
| Properties.StackCell | src/mmu.rs:25-28 | a bank-0 stack address below 0x2000 decodes to the writable RAM cell with that index |
| Properties.PullAfterPush8 | src/cpu.rs:107-120 | `pull_u8` over a byte stored at SP + 1 returns it and restores SP |
| Properties.PullAfterPush16 | src/cpu.rs:112-125 | `pull_u16` over a word stored at SP + 1 returns it and restores SP |
| Properties.PushKeepsWordAbove | src/cpu.rs:107-110 | a byte pushed below a stacked word leaves the word unchanged |
| Properties.PushThenPull8 | src/cpu.rs:107-120 | push then pull of a byte returns the byte and the original registers |
| Properties.PushThenPull16 | src/cpu.rs:112-125 | push then pull of a word returns the word and the original registers |
| Properties.PushAThenPullA | src/cpu.rs:577-627 | `PHA` then `PLA` gives back A at the current width (its low byte in 8-bit mode), N from its top bit, Z from zero, the other flags kept, and every other register, SP included, as before |
| Properties.CallEffect | src/cpu.rs:679-685 | `JSR` pushes the address of its last byte at SP - 1 and jumps to the operand in the same bank |
| Properties.ReturnEffect | src/cpu.rs:698-701 | `RTS` resumes one past the word at SP + 1, modulo 2^16 |
| Properties.CallThenReturn | src/cpu.rs:679-701 | `RTS` after `JSR` resumes just past the `JSR` operand wherever the callee has moved PC; SP and every other register are as at the call |
| Properties.LongCallEffect | src/cpu.rs:687-696 | `JSL` stores the address of its last byte at SP - 1 and the program bank at SP - 2, and moves SP down by 3; no other register but PC and the bank changes |
| Properties.LongReturnEffect | src/cpu.rs:704-709 | `RTL` pulls the bank from SP + 1 and resumes one past the word at SP + 2 |
| Properties.LongReturnOverFrame | src/cpu.rs:704-709 | `RTL` over the three-byte frame `JSL` leaves restores SP and takes back the bank and the address one past the stored word |
| Properties.LongCallThenReturn | src/cpu.rs:687-709 | `RTL` after `JSL` resumes just past the `JSL` operand in the calling bank, wherever the callee went; every other register as at the call |
| Properties.LoadImmediateWidth | src/cpu.rs:134-142 | `LDA #` faults exactly when its operand (one byte in 8-bit mode, two otherwise) is past the end of readable memory; otherwise PC moves past that operand, A is the operand, memory and the registers other than A, PC and the flags are unchanged |
| Properties.LoadXImmediateWidth | src/cpu.rs:208-216 | `LDX #` takes one operand byte when X/Y are 8-bit and two otherwise, faults exactly when that operand cannot be read, and X is the operand with only PC and the flags also changing |
| Properties.LoadYImmediateWidth | src/cpu.rs:229-237 | `LDY #`: the same for Y at the index width |
| Properties.AddImmediateWidth | src/cpu.rs:333-341 | `ADC #` reads a byte in 8-bit accumulator mode and a word otherwise, A and the flags are the 8- or 16-bit add with carry of that operand, PC moves past it, nothing else changes |
| Properties.CompareImmediateWidth | src/cpu.rs:495-503 | `CMP #` compares the low byte of A with a byte operand in 8-bit mode and A with a word otherwise; only PC and the flags change |
| Properties.CompareXImmediateWidth | src/cpu.rs:538-546 | `CPX #` compares X with a byte or a word operand by the index width; only PC and the flags change |
| Properties.IncrementDirectPageEffect | src/cpu.rs:379-389 | `INC dp` faults exactly when the operand or the cell at D + operand cannot be read; otherwise that cell becomes its byte plus one modulo 256, N and Z come from the new byte, and only PC and the flags change among the registers |
| Properties.IndexIncrement | src/cpu.rs:391-405 | `INX` and `INY` add one modulo 2^16 to their register, N from bit 15, Z from zero, other flags and registers (but PC) kept, memory unchanged |
| Properties.IndexDecrement | src/cpu.rs:407-421 | `DEX` and `DEY` subtract one modulo 2^16 in the same way |
| Properties.TransferCopies | src/cpu.rs:435-466 | `TAX`, `TAY`, `TDC` and `TXS` copy the source register into the target whole, with N and Z of the 16-bit value, and change nothing else but PC |
| Properties.BranchEffect | src/cpu.rs:548-575 | every branch faults exactly when its displacement byte cannot be read; otherwise PC is `Branch` of PC + 1, that byte and the flag test (C clear, C set, Z clear, Z set, always), and nothing else changes |
| Properties.StoreZeroDirectPageWidth | src/cpu.rs:315-318 | `STZ dp` as written takes a word operand, adds it to D and writes one zero byte |
| Properties.CompareKeepsRegisters | src/cpu.rs:495-546 | every compare arm moves only PC and N, Z, C; memory unchanged |
| Properties.LoadKeepsOthers | src/cpu.rs:134-248 | every load arm writes only A, X or Y, PC and N, Z; memory unchanged |
| Properties.StoreKeepsRegisters | src/cpu.rs:250-331 | every store arm changes no register other than PC |
| Properties.ResetFlagsClearsMask | src/cpu.rs:720-724 | `REP` clears exactly the mask bits and keeps the rest |
| Properties.SetFlagsSetsMask | src/cpu.rs:726-730 | `SEP` sets exactly the mask bits and keeps the rest |
| Properties.WidthSwitches | src/cpu.rs:720-730 | `REP #$30` in native mode makes A and X/Y 16-bit; `SEP #$30` makes both 8-bit |
| Properties.ExchangeCEEffect | src/cpu.rs:732-736 | `XCE` puts the old carry in the emulation bit and inverts C; nothing else moves |
| Properties.ShiftLeftZeroFromY | src/cpu.rs:423-430 | `ASL A` takes Z from Y: shifting 0x80 with Y = 1 leaves A zero and Z clear |
| Properties.ExchangeBATwice | src/cpu.rs:468-473 | `XBA` swaps the bytes of A, sets N and Z both from bit 0 of the new A, and a second `XBA` gives A back |
| Properties.SwapBytesTwice | src/cpu.rs:469 | swapping the bytes of a word twice gives the word back |
| Properties.MoveLoopRegisters | src/cpu.rs:481-488 | the `MVN` loop ends with A = 0xFFFF and X, Y advanced by the count modulo 2^16, nothing else changed |
| Properties.MoveNextRegisters | src/cpu.rs:485-487 | the registers the loop promises are the same whether counted from this iteration or the next |
| Properties.WrapThenAdd | src/cpu.rs:486-487 | a wrapping increment followed by n more steps modulo 2^16 is n + 1 steps |
| Properties.MoveLoopSmallCounts | src/cpu.rs:481-488 | A = 0xFFFF copies nothing; A = 0 copies exactly one byte |
| Properties.MoveLoopFaults | src/cpu.rs:481-488 | the loop faults exactly when one of the A + 1 source bytes (source bank, X + i) cannot be read |
| Properties.BlockMoveNextEffect | src/cpu.rs:476-480 | `MVN` reads the destination bank first and the source bank second, faults when they cannot be read, and otherwise sets the data bank to the destination and runs the loop from past its operands |
| Properties.MoveLoopFrame | src/cpu.rs:481-488 | a readable cell that no iteration writes keeps its byte through the whole loop |
| Properties.MoveLoopCopies | src/cpu.rs:481-488 | iteration k copies (source bank, X + k) to (data bank, Y + k): after the loop that destination holds the byte the source held before it, when no later iteration rewrites it and no earlier one overwrote its source |
| Properties.MoveLoopCopiesFirst | src/cpu.rs:482-487 | the first iteration's destination holds the first source byte after the loop, when no later iteration rewrites it |
| Properties.StoreKeepsReadable | src/mmu.rs:76-132 | a store changes which addresses can be read nowhere |
| Properties.DirectPageCarryHarmless | src/cpu.rs:258-261 | an address below 0x3_0000, as a direct-page sum can carry to, is writable exactly when its bank-0 wrap-around is, and names the same cell |
| Properties.DirectPageLoadInRam | src/cpu.rs:155-164 | D + a byte operand (+ up to 2 for a word or long read) stays below 0x1_0102 and, once past bank 0, decodes to the RAM cell of its wrap-around |
| Hex.HexDigit | src/inst.rs:207 | the upper-case digit `{:X}` writes for a value below 16 is a hex digit |
| Hex.DigitValue | src/inst.rs:207 | a hex digit character has a value below 16 |
| Hex.Digits | src/inst.rs:237 | `{:X}`: at least one digit, all hex digits |
| Hex.Padded | src/inst.rs:207 | `{:0wX}`: all hex digits, zero-padded on the left to at least w |
| Hex.DigitRoundTrip | src/inst.rs:207 | a digit character reads back as its value |
| Hex.DigitsRoundTrip | src/inst.rs:207 | `{:X}` digits read back as the number |
| Hex.PaddedRoundTrip | src/inst.rs:207-208 | `{:0wX}` text reads back as the number whatever the width |
| Hex.DigitsLength | src/inst.rs:237 | a number has at most n digits exactly when it is below 16^n |
| Hex.PaddedLength | src/inst.rs:237 | the width is a minimum: exactly w digits when the number fits, otherwise all of its digits |
| Hex.ByteText | src/inst.rs:207 | two-digit text of a byte is two characters long and reads back as the byte |
| Hex.WordText | src/inst.rs:208 | four-digit text of a word is four characters long and reads back as the word |
| Hex.HexValueConcat | src/inst.rs:217 | reading a concatenation shifts the head left by the digits of the tail |
| Disassembly.ImmediateForm | src/inst.rs:205-210 | mnemonic, " #$", then 2 digits of a byte or 4 of a word that read back as the operand |
| Disassembly.AbsoluteForm | src/inst.rs:212-214 | mnemonic, " $", 4 digits reading back as the address |
| Disassembly.AbsoluteLongForm | src/inst.rs:216-218 | mnemonic, " $", 6 digits reading back as bank * 2^16 + address |
| Disassembly.DirectPageForm | src/inst.rs:220-222 | mnemonic, " $", 2 digits reading back as the operand |
| Disassembly.DirectPageIndexedXForm | src/inst.rs:224-226 | mnemonic, " $", 2 digits, ",X" |
| Disassembly.DirectPageIndirectLongForm | src/inst.rs:228-230 | mnemonic, " [$", 2 digits, "]" |
| Disassembly.AbsoluteIndexedXForm | src/inst.rs:232-234 | mnemonic, " $", 4 digits, ",X" |
| Disassembly.AbsoluteLongIndexedXForm | src/inst.rs:236-238 | the 32-bit operand at a minimum of 4 digits: exactly 4 in bank 0, more above, always reading back as the operand |
| Disassembly.Magnitude | src/inst.rs:241-242 | the printed magnitude is the absolute value of the signed displacement |
| Disassembly.BranchForm | src/inst.rs:240-246 | " -$" when bit 7 is set and " +$" otherwise, then 2 digits that read as the absolute signed displacement |
| Disassembly.BlockMoveForm | src/inst.rs:159 | MVN text: the source bank's 2 digits first, then the destination's |
| Disassembly.Asm | src/inst.rs:112-201 | every text starts with at least a three-letter mnemonic; what each arm prints is stated in `UnknownText`, the `*Mnemonic` lemmas, `ResetMaskText`, `SetMaskText`, `LongIndexedLooksAbsolute`, `BranchExtremes` and the operand-form functions above |
| Disassembly.UnknownText | src/inst.rs:114 | `Unknown` prints as "???" |
| Disassembly.LoadAMnemonic | src/inst.rs:116-123 | every LoadA variant prints LDA |
| Disassembly.LoadXMnemonic | src/inst.rs:124-125 | every LoadX variant prints LDX |
| Disassembly.StoreZeroMnemonic | src/inst.rs:137-140 | every StoreZero variant prints STZ |
| Disassembly.CompareXMnemonic | src/inst.rs:165 | CompareXImmediate prints CPX |
| Disassembly.ResetMaskText | src/inst.rs:196 | REP writes its mask as " #$" and 2 digits that read back as the mask |
| Disassembly.SetMaskText | src/inst.rs:197 | SEP writes its mask as " #$" and 2 digits that read back as the mask |
| Disassembly.LongIndexedLooksAbsolute | src/inst.rs:122-123 | LDA long,X and LDA abs,X print the same text exactly when the operands are equal |
| Disassembly.BranchExtremes | src/inst.rs:240-246 | 0x80 prints "-$80", 0xFE prints "-$02", 0x7F prints "+$7F" |

## Left out

- `Instruction::from_opcode` and the opcode table are not part of this model. `Tick` takes the decoded tag as an input and reads only the opcode byte.
- `main.rs` (the ROM loading and the run loop) is not part of this model.
- `register_debug` and `stack_debug` only format text for a person. The `sp_base` field is read only by `stack_debug`, so the model drops it along with the write to it in the `MoveXSP` arm.
- The overflow flag and decimal mode are not computed by the source either: `ADC` leaves V and D as they were, and so does the model.
- Panics become `Fault` results of the step functions. The `Cpu` methods require that their step does not fault, since the source panics there. A `Fault` says nothing about the partial state a panicking program would leave.
- The cartridge image is a parameter. Loading it from a file is I/O.
- `LoadAAbsoluteIndexedY` has an arm in `tick` but no variant in the `asm` renderer. It is modelled in execution only.
- `Properties.MoveLoopCopies`: states the copy of iteration k only when no later iteration writes the same cell and no earlier one overwrote the source byte. A move whose ranges overlap is described only by `MoveLoop` itself, one byte at a time.
- Execution step functions (`LoadAImmediateStep` and the rest) carry no contract of their own. What they promise is stated by the `Properties` lemmas: one per family (loads, stores, compares, increments, transfers, branches, the stack, calls, flags, the block move), and one per width-dependent immediate arm.
- `Properties.CallThenReturn` and `Properties.LongCallThenReturn` state the round trip for a callee that leaves the stack as it found it. The callee's code is not executed between the two steps.
- `Properties.LongCallEffect`: states the stored return frame and which registers change, but not the jump target.
- `Disassembly.UnknownText`: states only that `Unknown` prints "???", not that no other instruction prints it.
- `Disassembly.Asm`: its own ensures states only the mnemonic's minimum length, because unfolding all of its arms against stronger facts is too costly for the solver. Each operand form and several mnemonic families are stated separately.
- `Disassembly.BranchExtremes` states the three texts through the operand layout (mark and digit value), not as literal strings.
- `Disassembly.AbsoluteLongIndexedXForm`: above bank 0, states the digit count only as "more than four", not exactly how many.
