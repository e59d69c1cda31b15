/** The memory map of src/mmu.rs: a LoROM bank/offset decoder over the console
    RAM, the four APU I/O ports and the read-only cartridge image.

    The contents of the three buffers form the value `Memory`; reads are pure
    lookups over it and `Store` gives the effect of a byte store. The class
    `Mmu` holds the buffers the way the source does and its store methods are
    proved to have exactly that effect. */
module MemoryMap {
  import opened Bits

  /** Length of the RAM buffer allocated by `Mmu::new`. */
  const RAM_SIZE: nat := 128000

  /** Power-on contents of the APU I/O ports. */
  const SPC_INIT: seq<U8> := [0xAA, 0xBB, 0x00, 0x00]

  datatype Memory = Memory(cartridge: seq<U8>, ram: seq<U8>, spc: seq<U8>)

  predicate WellFormed(m: Memory) {
    |m.ram| == RAM_SIZE && |m.spc| == 4
  }

  /** The memory as `Mmu::new` builds it around a cartridge image. */
  function Initial(cartridge: seq<U8>): (m: Memory)
    ensures WellFormed(m) && m.cartridge == cartridge
    ensures forall i :: 0 <= i < RAM_SIZE ==> m.ram[i] == 0
    ensures m.spc == SPC_INIT
  {
    Memory(cartridge, seq(RAM_SIZE, _ => 0), SPC_INIT)
  }

  /** Where a bank/offset pair lands. */
  datatype Region =
    | Ram(index: nat)      // a cell of the RAM buffer
    | ApuIo(index: nat)    // one of the four APU I/O ports
    | Placeholder          // hardware not emulated: reads 0, ignores stores
    | Rom(index: nat)      // a byte of the cartridge image, read-only
    | Unimplemented        // reads are fatal, stores are ignored

  /** The decode table shared by `read_u8` and `store_u8`. The bank is
      `(addr >> 16) as u8` (bits 16-23) and the offset `addr & 0xFFFF`. */
  function Decode(addr: U32): (r: Region)
    ensures r.Ram? ==> r.index < 0x1_0000
    ensures r.ApuIo? ==> r.index < 4
  {
    var bank, offset := (addr / 0x1_0000) % 0x100, addr % 0x1_0000;
    if bank <= 0x3F then
      if offset <= 0x1FFF then Ram(offset)
      else if 0x2140 <= offset <= 0x2143 then ApuIo(offset - 0x2140)
      else if offset < 0x8000 then Placeholder
      else Rom((offset - 0x8000) + bank * 0x8000)
    else if bank == 0x7E then Ram(offset)
    else Unimplemented
  }

  /** A store to `addr` changes a cell: RAM or an APU I/O port. */
  predicate Writable(addr: U32) {
    Decode(addr).Ram? || Decode(addr).ApuIo?
  }

  /** `read_u8` does not panic: the bank is implemented and a ROM index lies
      inside the cartridge image. */
  predicate Readable(m: Memory, addr: U32) {
    WellFormed(m) &&
    match Decode(addr)
    case Unimplemented => false
    case Rom(i) => i < |m.cartridge|
    case _ => true
  }

  /** `read_u8`. */
  function Read(m: Memory, addr: U32): (r: U8)
    requires Readable(m, addr)
    ensures Decode(addr).Placeholder? ==> r == 0
  {
    match Decode(addr)
    case Ram(i) => m.ram[i]
    case ApuIo(i) => m.spc[i]
    case Placeholder => 0
    case Rom(i) => m.cartridge[i]
  }

  /** `store_u8`: writes RAM or an APU I/O port; everything else is ignored. */
  function Store(m: Memory, addr: U32, value: U8): (r: Memory)
    requires WellFormed(m)
    ensures WellFormed(r) && r.cartridge == m.cartridge
    ensures !Writable(addr) ==> r == m
  {
    match Decode(addr)
    case Ram(i) => m.(ram := m.ram[i := value])
    case ApuIo(i) => m.(spc := m.spc[i := value])
    case _ => m
  }

  predicate ReadableWord(m: Memory, addr: U32) {
    addr < 0xFFFF_FFFF && Readable(m, addr) && Readable(m, addr + 1)
  }

  predicate ReadableLong(m: Memory, addr: U32) {
    addr < 0xFFFF_FFFE && Readable(m, addr) && Readable(m, addr + 1) && Readable(m, addr + 2)
  }

  /** `read_u16`: two consecutive bytes, little-endian. */
  function ReadWord(m: Memory, addr: U32): (r: U16)
    requires ReadableWord(m, addr)
    ensures r % 0x100 == Read(m, addr) && r / 0x100 == Read(m, addr + 1)
  {
    Read(m, addr) + Read(m, addr + 1) * 0x100
  }

  /** `read_long`: three consecutive bytes, little-endian, as a 24-bit value. */
  function ReadLong(m: Memory, addr: U32): (r: U32)
    requires ReadableLong(m, addr)
    ensures r < 0x100_0000
    ensures r % 0x100 == Read(m, addr)
    ensures (r / 0x100) % 0x100 == Read(m, addr + 1)
    ensures r / 0x1_0000 == Read(m, addr + 2)
  {
    var lo, mid, hi := Read(m, addr), Read(m, addr + 1), Read(m, addr + 2);
    LittleEndian24(lo, mid, hi);
    lo + mid * 0x100 + hi * 0x1_0000
  }

  /** The three bytes of a 24-bit little-endian value come back out of it. */
  lemma LittleEndian24(lo: U8, mid: U8, hi: U8)
    ensures var v := lo + mid * 0x100 + hi * 0x1_0000;
      v < 0x100_0000 && v % 0x100 == lo && (v / 0x100) % 0x100 == mid && v / 0x1_0000 == hi
  {
    var v := lo + mid * 0x100 + hi * 0x1_0000;
    assert v / 0x100 == mid + hi * 0x100;
  }

  /** `store_u16`: low byte at `addr`, high byte at `addr + 1`. */
  function StoreWord(m: Memory, addr: U32, value: U16): (r: Memory)
    requires WellFormed(m) && addr < 0xFFFF_FFFF
    ensures WellFormed(r) && r.cartridge == m.cartridge
  {
    Store(Store(m, addr, value % 0x100), addr + 1, value / 0x100)
  }

  /** `reset_vector`: the little-endian word at cartridge bytes 0x7FFC-0x7FFD. */
  function ResetVector(m: Memory): (r: U16)
    requires |m.cartridge| > 0x7FFD
    ensures r % 0x100 == m.cartridge[0x7FFC] && r / 0x100 == m.cartridge[0x7FFD]
  {
    m.cartridge[0x7FFC] as int + (m.cartridge[0x7FFD] as int) * 0x100
  }

  // ---------------------------------------------------------------------------
  // Properties of the map

  /** Banks 0x00-0x3F below 0x2000 and bank 0x7E name the same RAM cell. */
  lemma LowRamMirrors(bank: U8, offset: U16)
    requires bank <= 0x3F && offset <= 0x1FFF
    ensures Decode(bank * 0x1_0000 + offset) == Decode(0x7E_0000 + offset) == Ram(offset)
  {
  }

  /** The ROM window of banks 0x00-0x3F: 32 KiB of the image per bank. */
  lemma RomWindow(bank: U8, offset: U16)
    requires bank <= 0x3F && offset >= 0x8000
    ensures Decode(bank * 0x1_0000 + offset) == Rom((offset - 0x8000) + bank * 0x8000)
  {
  }

  lemma MappingExamples()
    ensures Decode(0x00_8000) == Rom(0) && Decode(0x01_8000) == Rom(0x8000)
    ensures Decode(0x7E_0010) == Decode(0x00_0010) == Ram(0x10)
    ensures Decode(0x00_2140) == ApuIo(0) && Decode(0x3F_2143) == ApuIo(3)
    ensures Decode(0x00_2000) == Placeholder && Decode(0x00_213F) == Placeholder
    ensures Decode(0x00_2144) == Placeholder && Decode(0x00_7FFF) == Placeholder
    ensures Decode(0x40_0000) == Unimplemented && Decode(0x7F_0000) == Unimplemented
  {
  }

  /** Two writable addresses share a cell only if their offsets agree: within
      one bank the writable part of the map is one-to-one. */
  lemma SameCellSameOffset(a: U32, b: U32)
    requires Writable(a) && Writable(b) && Decode(a) == Decode(b)
    ensures a % 0x1_0000 == b % 0x1_0000
  {
  }

  /** A byte store is seen by a later read at every address that names the
      same cell, and by no other read. In particular ROM, placeholders and
      unimplemented banks never change. */
  lemma ReadAfterStore(m: Memory, a: U32, value: U8, b: U32)
    requires WellFormed(m) && Readable(m, b)
    ensures Readable(Store(m, a, value), b)
    ensures Read(Store(m, a, value), b)
         == if Writable(a) && Decode(a) == Decode(b) then value else Read(m, b)
  {
  }

  /** A store followed by a read at the same writable address returns the byte. */
  lemma StoreThenRead(m: Memory, a: U32, value: U8)
    requires WellFormed(m) && Writable(a)
    ensures Readable(Store(m, a, value), a) && Read(Store(m, a, value), a) == value
  {
  }

  /** `store_u16` then `read_u16` at two writable consecutive addresses. */
  lemma StoreWordThenReadWord(m: Memory, a: U32, value: U16)
    requires WellFormed(m) && a < 0xFFFF_FFFF && Writable(a) && Writable(a + 1)
    ensures ReadableWord(StoreWord(m, a, value), a)
    ensures ReadWord(StoreWord(m, a, value), a) == value
  {
    var m1 := Store(m, a, value % 0x100);
    var m2 := Store(m1, a + 1, value / 0x100);
    assert a % 0x1_0000 != (a + 1) % 0x1_0000;
    ReadAfterStore(m1, a + 1, value / 0x100, a);
  }

  /** `store_u16` leaves every address outside its two cells as it was. */
  lemma StoreWordFrame(m: Memory, a: U32, value: U16, b: U32)
    requires WellFormed(m) && a < 0xFFFF_FFFF && Readable(m, b)
    requires !(Writable(a) && Decode(a) == Decode(b))
    requires !(Writable(a + 1) && Decode(a + 1) == Decode(b))
    ensures Readable(StoreWord(m, a, value), b) && Read(StoreWord(m, a, value), b) == Read(m, b)
  {
    var m1 := Store(m, a, value % 0x100);
    ReadAfterStore(m, a, value % 0x100, b);
    ReadAfterStore(m1, a + 1, value / 0x100, b);
  }

  /** The reset vector is the word the CPU sees at 0x00FFFC. */
  lemma ResetVectorIsWordAtFFFC(m: Memory)
    requires WellFormed(m) && |m.cartridge| > 0x7FFD
    ensures ReadableWord(m, 0x00_FFFC) && ResetVector(m) == ReadWord(m, 0x00_FFFC)
  {
    assert Decode(0x00_FFFC) == Rom(0x7FFC);
    assert Decode(0x00_FFFD) == Rom(0x7FFD);
  }

  // ---------------------------------------------------------------------------
  // The state-holding object

  /** `Mmu`: the cartridge image is never written after construction; the RAM
      vector and the APU I/O array are updated in place by stores. */
  class Mmu {
    const cartridge: seq<U8>
    var ram: seq<U8>
    const spc: array<U8>

    ghost predicate Valid()
      reads this
    {
      |ram| == RAM_SIZE && spc.Length == 4
    }

    function State(): (m: Memory)
      reads this, spc
      ensures m.cartridge == cartridge
      ensures Valid() ==> WellFormed(m)
    {
      Memory(cartridge, ram, spc[..])
    }

    /** `Mmu::new` */
    constructor (cartridge: seq<U8>)
      ensures Valid() && fresh(spc)
      ensures State() == Initial(cartridge)
    {
      this.cartridge := cartridge;
      ram := seq(RAM_SIZE, _ => 0);
      var ports := new U8[4];
      ports[0], ports[1], ports[2], ports[3] := 0xAA, 0xBB, 0x00, 0x00;
      spc := ports;
      new;
      assert spc[..] == SPC_INIT;
    }

    /** `store_u8` */
    method StoreU8(addr: U32, value: U8)
      requires Valid()
      modifies this, spc
      ensures Valid()
      ensures State() == Store(old(State()), addr, value)
    {
      match Decode(addr)
      case Ram(i) =>
        ram := ram[i := value];
      case ApuIo(i) =>
        spc[i] := value;
      case _ =>
    }

    /** `store_u16` */
    method StoreU16(addr: U32, value: U16)
      requires Valid() && addr < 0xFFFF_FFFF
      modifies this, spc
      ensures Valid()
      ensures State() == StoreWord(old(State()), addr, value)
    {
      StoreU8(addr, value % 0x100);
      StoreU8(addr + 1, value / 0x100);
    }
  }
}
