/** The banked memory controller of pythongb/memory.py (class
    `MemoryController`): address decoding for the five cartridge kinds
    (`read0`-`read5`, `read`), the bank-register writes (`write0`-`write5`,
    `write`), the cartridge-type classification of `read_rom` and `attach_gpu`.

    The state is described twice: `MemState` is its value (the seven byte
    buffers as sequences plus every banking field), and `MemoryController`
    is the object the source mutates, with one array per bytearray.  Every
    method of the class is proved to act on `State()` as the function of the
    same name acts on a `MemState`, and the properties of the controller are
    lemmas about those functions. */
module Memory {
  import opened Bits
  import Ppu

  /** The 256-byte boot program (`MemoryController.bios`, pythongb/memory.py:10-38). */
  const Bios: seq<int> := [
    0x31, 0xFE, 0xFF, 0xAF, 0x21, 0xFF, 0x9F, 0x32, 0xCB, 0x7C, 0x20, 0xFB,
    0x21, 0x26, 0xFF, 0x0E, 0x11, 0x3E, 0x80, 0x32, 0xE2, 0x0C, 0x3E, 0xF3,
    0xE2, 0x32, 0x3E, 0x77, 0x77, 0x3E, 0xFC, 0xE0, 0x47, 0x11, 0x04, 0x01,
    0x21, 0x10, 0x80, 0x1A, 0xCD, 0x95, 0x00, 0xCD, 0x96, 0x00, 0x13, 0x7B,
    0xFE, 0x34, 0x20, 0xF3, 0x11, 0xD8, 0x00, 0x06, 0x08, 0x1A, 0x13, 0x22,
    0x23, 0x05, 0x20, 0xF9, 0x3E, 0x19, 0xEA, 0x10, 0x99, 0x21, 0x2F, 0x99,
    0x0E, 0x0C, 0x3D, 0x28, 0x08, 0x32, 0x0D, 0x20, 0xF9, 0x2E, 0x0F, 0x18,
    0xF3, 0x67, 0x3E, 0x64, 0x57, 0xE0, 0x42, 0x3E, 0x91, 0xE0, 0x40, 0x04,
    0x1E, 0x02, 0x0E, 0x0C, 0xF0, 0x44, 0xFE, 0x90, 0x20, 0xFA, 0x0D, 0x20,
    0xF7, 0x1D, 0x20, 0xF2, 0x0E, 0x13, 0x24, 0x7C, 0x1E, 0x83, 0xFE, 0x62,
    0x28, 0x06, 0x1E, 0xC1, 0xFE, 0x64, 0x20, 0x06, 0x7B, 0xE2, 0x0C, 0x3E,
    0x87, 0xE2, 0xF0, 0x42, 0x90, 0xE0, 0x42, 0x15, 0x20, 0xD2, 0x05, 0x20,
    0x4F, 0x16, 0x20, 0x18, 0xCB, 0x4F, 0x06, 0x04, 0xC5, 0xCB, 0x11, 0x17,
    0xC1, 0xCB, 0x11, 0x17, 0x05, 0x20, 0xF5, 0x22, 0x23, 0x22, 0x23, 0xC9,
    0xCE, 0xED, 0x66, 0x66, 0xCC, 0x0D, 0x00, 0x0B, 0x03, 0x73, 0x00, 0x83,
    0x00, 0x0C, 0x00, 0x0D, 0x00, 0x08, 0x11, 0x1F, 0x88, 0x89, 0x00, 0x0E,
    0xDC, 0xCC, 0x6E, 0xE6, 0xDD, 0xDD, 0xD9, 0x99, 0xBB, 0xBB, 0x67, 0x63,
    0x6E, 0x0E, 0xEC, 0xCC, 0xDD, 0xDC, 0x99, 0x9F, 0xBB, 0xB9, 0x33, 0x3E,
    0x3C, 0x42, 0xB9, 0xA5, 0xB9, 0xA5, 0x42, 0x3C, 0x21, 0x04, 0x01, 0x11,
    0xA8, 0x00, 0x1A, 0x13, 0xBE, 0x20, 0xFE, 0x23, 0x7D, 0xFE, 0x34, 0x20,
    0xF5, 0x06, 0x19, 0x78, 0x86, 0x23, 0x05, 0x20, 0xFB, 0x86, 0x20, 0xFE,
    0x3E, 0x01, 0xE0, 0x50
  ]

  const RomSize := 0x8000
  const VramSize := 0x2000
  const EramSize := 0x2000 + 0x2000 * 0x0F
  const WramSize := 0x2000
  const OamSize := 0xA0
  const IoSize := 0x4C
  const RamSize := 0x7F

  /** The banking fields every cartridge kind uses.  `hasCurrBank` says
      whether the attribute `currBank` exists: `__init__` sets a differently
      spelt `curr_bank` that nothing reads (pythongb/memory.py:48), and only
      the MBC1, MBC2 and MBC3 bank selects create `currBank`
      (pythongb/memory.py:308-314, 362-368, 418-421). */
  datatype Banking = Banking(biosUse: bool, bankingType: int, hasCurrBank: bool,
                             currBank: int, memoryModel: int, disableEram: bool,
                             eramBank: int)

  /** The MBC3 clock registers `seconds`, `minutes`, `hours`, `days`, `flags`. */
  datatype Rtc = Rtc(seconds: int, minutes: int, hours: int, days: int, flags: int)

  /** The MBC3 clock control: `disable_rtc`, `map_rtc`, `latch_rtc` and the
      clock registers. */
  datatype Clock = Clock(disableRtc: bool, mapRtc: bool, latchRtc: int, rtc: Rtc)

  /** The tile bookkeeping: the flags the banked writers set, whether a GPU
      is attached, and the log of addresses `write0` reports to it. */
  datatype Tiles = Tiles(tilesOutdated: bool, outdatedLocation: int,
                         gpuAttached: bool, notified: seq<int>)

  /** The seven bytearrays. */
  datatype Buffers = Buffers(rom: seq<int>, vram: seq<int>, eram: seq<int>,
                             wram: seq<int>, oam: seq<int>, io: seq<int>, ram: seq<int>)

  /** The value of a `MemoryController`. */
  datatype MemState = MemState(ctl: Banking, clock: Clock, tiles: Tiles, buf: Buffers)

  /** A reading of the host clock, as the MBC3 latch takes it from `datetime.now()`. */
  datatype HostTime = HostTime(second: int, minute: int, hour: int, day: int)

  predicate IsByte(x: int)
  {
    0 <= x < 256
  }

  /** The buffers have the sizes `__init__` gives them (the ROM image may have
      any size), the external-RAM bank is one of the 16 the buffer holds, and
      the banking type is one `read`/`write` can dispatch on. */
  predicate Sized(s: MemState)
  {
    |s.buf.vram| == VramSize && |s.buf.eram| == EramSize && |s.buf.wram| == WramSize &&
    |s.buf.oam| == OamSize && |s.buf.io| == IoSize && |s.buf.ram| == RamSize &&
    0 <= s.ctl.eramBank <= 15 && s.ctl.bankingType in {0, 1, 2, 3, 5}
  }

  /** The controller `__init__` builds (pythongb/memory.py:40-79).  The source
      never initialises `tiles_outdated`/`outdated_location`; they start out
      false and 0 here.  It never creates `currBank` either, so no ROM bank
      is selected yet (`currBank` is an unused 0). */
  function Initial(): (s: MemState)
    ensures Sized(s) && s.ctl.biosUse && !s.ctl.hasCurrBank && s.ctl.bankingType == 0
    ensures |s.buf.rom| == RomSize
  {
    MemState(Banking(true, 0, false, 0, 0, false, 0),
             Clock(false, false, 0, Rtc(0, 0, 0, 0, 0)),
             Tiles(false, 0, false, []),
             Buffers(seq(RomSize, _ => 0), seq(VramSize, _ => 0), seq(EramSize, _ => 0),
                     seq(WramSize, _ => 0), seq(OamSize, _ => 0), seq(IoSize, _ => 0),
                     seq(RamSize, _ => 0)))
  }

  /** The position Python's index `i` names in a sequence of length `n`: a
      negative index counts from the end. */
  function Wrap(n: int, i: int): int
  {
    if i < 0 then n + i else i
  }

  /** Python indexing `xs[i]`, defined from `-len(xs)` up to `len(xs) - 1`. */
  function At(xs: seq<int>, i: int): (v: int)
    requires -|xs| <= i < |xs|
    ensures 0 <= Wrap(|xs|, i) < |xs| && v == xs[Wrap(|xs|, i)]
  {
    if i < 0 then xs[|xs| + i] else xs[i]
  }

  /** 0xFEA0-0xFEB3, where the banked readers and every writer index `io`
      below `-len(io)`, so that Python raises IndexError.  The rest of the
      two unused areas, 0xFEB4-0xFEFF and 0xFF4C-0xFF7F, reach `io` and `ram`
      through negative indices (see `Alias`). */
  predicate IoHole(loc: int)
  {
    0xFEA0 <= loc < 0xFEB4
  }

  /** The unused areas, which `read0` reads as 0. */
  predicate Unused(loc: int)
  {
    0xFEA0 <= loc < 0xFF00 || 0xFF4C <= loc < 0xFF80
  }

  /** The ROM offset of a switchable-bank address. */
  function BankedRom(bank: int, loc: int): int
  {
    loc - 0x4000 + 0x4000 * bank
  }

  /** Every ROM cell a banked read of `loc` touches exists, counting a
      negative address from the end of the image; addresses below `bootEnd`
      are served by the boot ROM while `biosUse` holds, through
      `bios[loc - 0x100]`, which needs `loc >= 0`; the switchable bank needs
      `currBank`, and a negative bank counts from the end of the image too. */
  predicate RomReadable(s: MemState, loc: int, bootEnd: int)
  {
    (s.ctl.biosUse && loc < bootEnd ==> 0 <= loc) &&
    (loc < 0x4000 && !(s.ctl.biosUse && loc < bootEnd) ==> -|s.buf.rom| <= loc < |s.buf.rom|) &&
    (0x4000 <= loc < 0x8000 ==>
      s.ctl.hasCurrBank && -|s.buf.rom| <= BankedRom(s.ctl.currBank, loc) < |s.buf.rom|)
  }

  /** `s` with the boot ROM unmapped. */
  function BiosOff(s: MemState): MemState
  {
    s.(ctl := s.ctl.(biosUse := false))
  }

  // -----------------------------------------------------------------------
  // Reads

  /** `read0` indexes `bios[loc]` or `rom[loc]` below 0x100, so a negative
      address counts from the end of either. */
  predicate Read0Ok(s: MemState, loc: int)
  {
    Sized(s) &&
    (s.ctl.biosUse && loc < 0x100 ==> -|Bios| <= loc) &&
    (loc < 0x8000 && !(s.ctl.biosUse && loc < 0x100) ==> -|s.buf.rom| <= loc < |s.buf.rom|)
  }

  /** `read0` (pythongb/memory.py:81-118): no banking, boot ROM below 0x100,
      zero for the unused areas and for 0xFFFF. */
  function Read0Value(s: MemState, loc: int): int
    requires Read0Ok(s, loc)
  {
    if loc <= 0x100 then
      if s.ctl.biosUse then (if loc == 0x100 then s.buf.rom[loc] else At(Bios, loc))
      else At(s.buf.rom, loc)
    else if loc < 0x8000 then s.buf.rom[loc]
    else if loc < 0xA000 then s.buf.vram[loc - 0x8000]
    else if loc < 0xC000 then s.buf.eram[loc - 0xA000]
    else if loc < 0xE000 then s.buf.wram[loc - 0xC000]
    else if loc < 0xFE00 then s.buf.wram[loc - 0xE000]
    else if loc < 0xFEA0 then s.buf.oam[loc - 0xFE00]
    else if loc < 0xFF00 then 0
    else if loc < 0xFF4C then s.buf.io[loc - 0xFF00]
    else if loc < 0xFF80 then 0
    else if loc < 0xFFFF then s.buf.ram[loc - 0xFF80]
    else 0
  }

  /** The one state change of `read0`: reading 0x100 unmaps the boot ROM. */
  function AfterRead0(s: MemState, loc: int): MemState
  {
    if loc == 0x100 && s.ctl.biosUse then BiosOff(s) else s
  }

  /** The part of the map every banked reader decodes alike: work RAM and its
      echo, OAM, I/O registers and high RAM. */
  function HighRead(s: MemState, loc: int): int
    requires Sized(s) && !IoHole(loc) && 0xC000 <= loc
  {
    if loc < 0xE000 then s.buf.wram[loc - 0xC000]
    else if loc < 0xFE00 then s.buf.wram[loc - 0xE000]
    else if loc < 0xFEA0 then s.buf.oam[loc - 0xFE00]
    else if loc < 0xFF4C then At(s.buf.io, loc - 0xFF00)
    else if loc < 0xFFFF then At(s.buf.ram, loc - 0xFF80)
    else 0
  }

  predicate Read1Ok(s: MemState, loc: int)
  {
    Sized(s) && !IoHole(loc) && RomReadable(s, loc, 0x100)
  }

  /** `read1`, MBC1 (pythongb/memory.py:121-150).  The boot branch indexes
      `bios[loc - 0x100]`, a negative index that Python wraps round to
      `bios[loc]`; its test for unmapping the boot ROM can never pass. */
  function Read1Value(s: MemState, loc: int): int
    requires Read1Ok(s, loc)
  {
    if loc < 0x255 then
      if s.ctl.biosUse && loc < |Bios| then At(Bios, loc - 0x100) else At(s.buf.rom, loc)
    else if loc < 0x4000 then s.buf.rom[loc]
    else if loc < 0x8000 then At(s.buf.rom, BankedRom(s.ctl.currBank, loc))
    else if loc < 0xA000 then s.buf.vram[loc - 0x8000]
    else if loc < 0xC000 then s.buf.eram[loc - 0xA000 + 0x2000 * s.ctl.eramBank]
    else HighRead(s, loc)
  }

  /** `read2` indexes `bios[loc - 0x100]` for every address below 0x1000
      while the boot ROM is mapped, which only exists below 0x200. */
  predicate Read2Ok(s: MemState, loc: int)
  {
    Sized(s) && !IoHole(loc) && RomReadable(s, loc, 0x1000) &&
    (s.ctl.biosUse && loc < 0x1000 ==> loc < 0x200)
  }

  /** `read2`, MBC2 (pythongb/memory.py:153-183): external RAM is not banked
      and is masked with 0xFF. */
  function Read2Value(s: MemState, loc: int): int
    requires Read2Ok(s, loc)
  {
    if loc < 0x1000 then
      if s.ctl.biosUse then At(Bios, loc - 0x100) else At(s.buf.rom, loc)
    else if loc < 0x4000 then s.buf.rom[loc]
    else if loc < 0x8000 then At(s.buf.rom, BankedRom(s.ctl.currBank, loc))
    else if loc < 0xA000 then s.buf.vram[loc - 0x8000]
    else if loc < 0xC000 then LowByte(s.buf.eram[loc - 0xA000])
    else HighRead(s, loc)
  }

  /** `read2` unmaps the boot ROM when it reads its last byte, at 0x1FF. */
  function AfterRead2(s: MemState, loc: int): MemState
  {
    if loc < 0x1000 && s.ctl.biosUse && loc - 0x100 >= |Bios| - 1 then BiosOff(s) else s
  }

  predicate Read3Ok(s: MemState, loc: int)
  {
    Sized(s) && !IoHole(loc) && RomReadable(s, loc, 0x100)
  }

  /** `read3`, MBC3 (pythongb/memory.py:186-221): banked external RAM, which
      reads as 0 while disabled or while the clock registers are mapped. */
  function Read3Value(s: MemState, loc: int): int
    requires Read3Ok(s, loc)
  {
    if loc < 0x1000 then
      if s.ctl.biosUse && loc < |Bios| then At(Bios, loc - 0x100) else At(s.buf.rom, loc)
    else if loc < 0x4000 then s.buf.rom[loc]
    else if loc < 0x8000 then At(s.buf.rom, BankedRom(s.ctl.currBank, loc))
    else if loc < 0xA000 then s.buf.vram[loc - 0x8000]
    else if loc < 0xC000 then
      if !s.ctl.disableEram && !s.clock.mapRtc then
        s.buf.eram[loc - 0xA000 + 0x2000 * s.ctl.eramBank]
      else 0
    else HighRead(s, loc)
  }

  predicate Read5Ok(s: MemState, loc: int)
  {
    Sized(s) && !IoHole(loc) && RomReadable(s, loc, 0x100)
  }

  /** `read5`, MBC5 (pythongb/memory.py:224-254): unbanked external RAM masked
      with 0xFF. */
  function Read5Value(s: MemState, loc: int): int
    requires Read5Ok(s, loc)
  {
    if loc < 0x1000 then
      if s.ctl.biosUse && loc < |Bios| then At(Bios, loc - 0x100) else At(s.buf.rom, loc)
    else if loc < 0x4000 then s.buf.rom[loc]
    else if loc < 0x8000 then At(s.buf.rom, BankedRom(s.ctl.currBank, loc))
    else if loc < 0xA000 then s.buf.vram[loc - 0x8000]
    else if loc < 0xC000 then LowByte(s.buf.eram[loc - 0xA000])
    else HighRead(s, loc)
  }

  predicate ReadOk(s: MemState, loc: int)
  {
    if s.ctl.bankingType == 0 then Read0Ok(s, loc)
    else if s.ctl.bankingType == 1 then Read1Ok(s, loc)
    else if s.ctl.bankingType == 2 then Read2Ok(s, loc)
    else if s.ctl.bankingType == 3 then Read3Ok(s, loc)
    else Read5Ok(s, loc)
  }

  /** `read` (pythongb/memory.py:256-265): the reader of the banking type. */
  function ReadValue(s: MemState, loc: int): int
    requires ReadOk(s, loc)
  {
    if s.ctl.bankingType == 0 then Read0Value(s, loc)
    else if s.ctl.bankingType == 1 then Read1Value(s, loc)
    else if s.ctl.bankingType == 2 then Read2Value(s, loc)
    else if s.ctl.bankingType == 3 then Read3Value(s, loc)
    else Read5Value(s, loc)
  }

  /** What a `read` leaves behind: only `read0` and `read2` change anything. */
  function AfterRead(s: MemState, loc: int): MemState
  {
    if s.ctl.bankingType == 0 then AfterRead0(s, loc)
    else if s.ctl.bankingType == 2 then AfterRead2(s, loc)
    else s
  }

  // -----------------------------------------------------------------------
  // Bank registers
  //
  // The registers are written with Python masks (`loc & 0x1F`, `data & 0b11`,
  // `loc & 0x0A`, ...).  The functions below state what each mask yields in
  // plain arithmetic; `PythonMasks` proves them equal to the masks as written,
  // and the methods of `MemoryController` compute with the masks themselves.

  /** MBC1 ROM bank select (pythongb/memory.py:298-314): `loc & 0x1F`, the low
      five bits of the ADDRESS, with bank 0 meaning bank 1.  The
      0x20/0x40/0x60 branch can never be taken after a five-bit mask. */
  function Mbc1Bank(loc: int): (bank: int)
    ensures 1 <= bank <= 31
    ensures loc % 32 != 0 ==> bank == loc % 32
  {
    var bank := loc % 32;
    if bank == 0 then 1
    else if bank == 0x20 || bank == 0x40 || bank == 0x60 then bank + 0x01
    else bank
  }

  /** MBC2 ROM bank select (pythongb/memory.py:352-368): `data & 0x0F`, with
      bank 0 meaning bank 1. */
  function Mbc2Bank(data: int): (bank: int)
    ensures 1 <= bank <= 15
    ensures data % 16 != 0 ==> bank == data % 16
  {
    var bank := data % 16;
    if bank == 0 then 1
    else if bank == 0x20 || bank == 0x40 || bank == 0x60 then bank + 0x01
    else bank
  }

  /** MBC3 ROM bank select (pythongb/memory.py:410-421): the data itself,
      with bank 0 meaning bank 1. */
  function Mbc3Bank(data: int): (bank: int)
    ensures bank != 0
    ensures data != 0 ==> bank == data
  {
    if data == 0 then 1 else data
  }

  /** MBC5 high bank bits (pythongb/memory.py:481-483): the low byte of the
      bank survives and `data` becomes everything above it. */
  function Mbc5HighBank(bank: int, data: int): (b: int)
    ensures b % 256 == bank % 256 && b / 256 == data
  {
    data * 256 + bank % 256
  }

  /** A RAM bank select keeps the low two (`data & 0b11`) or four
      (`data & 0x0F`) bits of the data. */
  function RamBank(data: int, banks: int): (bank: int)
    requires banks == 4 || banks == 16
    ensures 0 <= bank < banks
  {
    if banks == 4 then data % 4 else data % 16
  }

  /** The memory-model register keeps `loc & 0x01`. */
  function MemoryModel(loc: int): (model: int)
    ensures model == 0 || model == 1
  {
    loc % 2
  }

  /** `x & 0x00FF`, which the MBC2 and MBC5 readers apply to external RAM. */
  function LowByte(x: int): (b: int)
    ensures IsByte(b)
  {
    x % 256
  }

  /** The enable register: writing an address with bit 1 or bit 3 set enables
      external RAM, any other address disables it. */
  function EramDisabled(loc: int): (off: bool)
    ensures off <==> Bit(loc, 1) == 0 && Bit(loc, 3) == 0
  {
    (loc / 2) % 2 == 0 && (loc / 8) % 2 == 0
  }

  /** `loc & 0x0A` is zero exactly when bits 1 and 3 of `loc` are clear. */
  lemma EnableMask(loc: int)
    ensures And(loc, 0x0A) == 0 <==> Bit(loc, 1) == 0 && Bit(loc, 3) == 0
  {
    BitAnd(loc, 0x0A, 1);
    BitAnd(loc, 0x0A, 3);
    if Bit(loc, 1) == 0 && Bit(loc, 3) == 0 {
      forall i: nat ensures Bit(And(loc, 0x0A), i) == Bit(0, i) {
        BitAnd(loc, 0x0A, i);
        BitOfZero(i);
        if i >= 4 {
          assert Pow2(4) == 16;
          BitAboveWidth(0x0A, 4, i);
        } else {
          assert i == 0 || i == 1 || i == 2 || i == 3;
        }
      }
      BitsDetermine(And(loc, 0x0A), 0);
    }
  }

  /** The register functions above are the source's mask expressions, for
      every integer address or data `x` and bank `y`
      (pythongb/memory.py:294-306, 352-358, 424-427, 477-491, 169). */
  lemma PythonMasks(x: int, y: int)
    ensures EramDisabled(x) <==> And(x, 0x0A) == 0
    ensures Mbc1Bank(x) ==
      (var b := And(x, 0x1F);
       if b == 0 then 1 else if b == 0x20 || b == 0x40 || b == 0x60 then b + 0x01 else b)
    ensures Mbc2Bank(x) ==
      (var b := And(x, 0x0F);
       if b == 0 then 1 else if b == 0x20 || b == 0x40 || b == 0x60 then b + 0x01 else b)
    ensures RamBank(x, 4) == And(x, 0x03) && RamBank(x, 16) == And(x, 0x0F)
    ensures MemoryModel(x) == And(x, 0x01) && LowByte(x) == And(x, 0x00FF)
    ensures Or(And(y, 0x00), x) == x
    ensures Mbc5HighBank(y, x) == Or(And(y, 0x0FF), Shl(x, 8))
  {
    EnableMask(x);
    AndMasks(x);
    AndMasks(y);
    assert Pow2(8) == 256;
    OrShlLow(x, 8, y % 256);
    OrCommutes(And(y, 0x0FF), Shl(x, 8));
  }

  // -----------------------------------------------------------------------
  // Writes

  /** Every writer stores into the buffers alike above 0x9800; a store needs
      a byte, as a bytearray does.  The banked writers send a negative
      address to the tile branch, whose `vram[loc - 0x8000]` raises. */
  predicate StoreOk(s: MemState, loc: int, data: int)
  {
    Sized(s) && 0 <= loc && !IoHole(loc) && (0x9800 <= loc < 0xFFFF ==> IsByte(data))
  }

  /** The buffer stores of the writers, for example pythongb/memory.py:276-289;
      `eramIndex` is the writer's external-RAM offset. */
  function Store(b: Buffers, loc: int, data: int, eramIndex: int): (c: Buffers)
    requires 0x9800 <= loc && |b.vram| == VramSize && |b.wram| == WramSize
    requires |b.oam| == OamSize && |b.io| == IoSize && |b.ram| == RamSize
    requires 0xA000 <= loc < 0xC000 ==> 0 <= eramIndex < |b.eram|
    requires !IoHole(loc)
    ensures |c.vram| == |b.vram| && |c.eram| == |b.eram| && |c.wram| == |b.wram|
    ensures |c.oam| == |b.oam| && |c.io| == |b.io| && |c.ram| == |b.ram| && c.rom == b.rom
  {
    if loc < 0xA000 then b.(vram := b.vram[loc - 0x8000 := data])
    else if loc < 0xC000 then b.(eram := b.eram[eramIndex := data])
    else if loc < 0xE000 then b.(wram := b.wram[loc - 0xC000 := data])
    else if loc < 0xFE00 then b.(wram := b.wram[loc - 0xE000 := data])
    else if loc < 0xFEA0 then b.(oam := b.oam[loc - 0xFE00 := data])
    else if loc < 0xFF4C then b.(io := b.io[Wrap(IoSize, loc - 0xFF00) := data])
    else if loc < 0xFFFF then b.(ram := b.ram[Wrap(RamSize, loc - 0xFF80) := data])
    else b
  }

  /** The banked external-RAM offset of an address. */
  function EramBanked(s: MemState, loc: int): int
  {
    loc - 0xA000 + 0x2000 * s.ctl.eramBank
  }

  /** `s` after a store above 0x9800. */
  function Stored(s: MemState, loc: int, data: int, eramIndex: int): (t: MemState)
    requires StoreOk(s, loc, data) && 0x9800 <= loc
    requires 0xA000 <= loc < 0xC000 ==> 0 <= eramIndex < EramSize
    ensures Sized(t)
  {
    s.(buf := Store(s.buf, loc, data, eramIndex))
  }

  /** `s` with the tiles marked outdated at `loc`. */
  function TilesOutdated(s: MemState, loc: int): MemState
  {
    s.(tiles := s.tiles.(tilesOutdated := true, outdatedLocation := loc))
  }

  /** `write0` stores ROM writes into the image, which must hold the cell
      (a negative address counts from its end), and reports tile writes to
      the attached GPU; the `update_tiles` call is modelled as intended,
      although the program's own GPU class does not define it. */
  predicate Write0Ok(s: MemState, loc: int, data: int)
  {
    Sized(s) && !IoHole(loc) &&
    (loc < 0x8000 ==> -|s.buf.rom| <= loc < |s.buf.rom| && IsByte(data)) &&
    (0x8000 <= loc < 0x9800 ==> s.tiles.gpuAttached) &&
    (0x9800 <= loc < 0xFFFF ==> IsByte(data))
  }

  /** `write0`, ROM only (pythongb/memory.py:268-289). */
  function AfterWrite0(s: MemState, loc: int, data: int): (t: MemState)
    requires Write0Ok(s, loc, data)
    ensures Sized(t)
  {
    if loc < 0x8000 then s.(buf := s.buf.(rom := s.buf.rom[Wrap(|s.buf.rom|, loc) := data]))
    else if loc < 0x9800 then s.(tiles := s.tiles.(notified := s.tiles.notified + [loc]))
    else Stored(s, loc, data, EramBanked(s, loc))
  }

  /** `write1`, MBC1 (pythongb/memory.py:292-343). */
  function AfterWrite1(s: MemState, loc: int, data: int): (t: MemState)
    requires StoreOk(s, loc, data)
    ensures Sized(t)
  {
    if loc < 0x2000 then s.(ctl := s.ctl.(disableEram := EramDisabled(loc)))
    else if loc < 0x4000 then s.(ctl := s.ctl.(hasCurrBank := true, currBank := Mbc1Bank(loc)))
    else if loc < 0x6000 then s.(ctl := s.ctl.(eramBank := RamBank(data, 4)))
    else if loc < 0x8000 then s.(ctl := s.ctl.(memoryModel := MemoryModel(loc)))
    else if loc < 0x9800 then TilesOutdated(s, loc)
    else Stored(s, loc, data, EramBanked(s, loc))
  }

  /** `write2`, MBC2 (pythongb/memory.py:346-397): the memory-model register
      is ignored and external RAM is not banked. */
  function AfterWrite2(s: MemState, loc: int, data: int): (t: MemState)
    requires StoreOk(s, loc, data)
    ensures Sized(t)
  {
    if loc < 0x2000 then s.(ctl := s.ctl.(disableEram := EramDisabled(loc)))
    else if loc < 0x4000 then s.(ctl := s.ctl.(hasCurrBank := true, currBank := Mbc2Bank(data)))
    else if loc < 0x6000 then s.(ctl := s.ctl.(eramBank := RamBank(data, 4)))
    else if loc < 0x8000 then s
    else if loc < 0x9800 then TilesOutdated(s, loc)
    else Stored(s, loc, data, loc - 0xA000)
  }

  /** The MBC3 latch register (pythongb/memory.py:431-443): 0 arms the latch,
      1 copies the host clock into the clock registers. */
  function Latch(c: Clock, data: int, now: HostTime): Clock
  {
    if data == 0 then c.(latchRtc := 1)
    else if data == 1 then
      c.(latchRtc := 2, rtc := c.rtc.(seconds := now.second, minutes := now.minute,
                                       hours := now.hour, days := now.day))
    else c
  }

  /** `write3`, MBC3 with its real-time clock (pythongb/memory.py:400-465);
      `now` is the host clock reading taken by the latch. */
  function AfterWrite3(s: MemState, loc: int, data: int, now: HostTime): (t: MemState)
    requires StoreOk(s, loc, data)
    ensures Sized(t)
  {
    if loc < 0x2000 then
      var off := EramDisabled(loc);
      s.(ctl := s.ctl.(disableEram := off), clock := s.clock.(disableRtc := off))
    else if loc < 0x4000 then s.(ctl := s.ctl.(hasCurrBank := true, currBank := Mbc3Bank(data)))
    else if loc < 0x6000 then
      if data <= 3 then
        s.(ctl := s.ctl.(eramBank := RamBank(data, 16)), clock := s.clock.(mapRtc := false))
      else s.(clock := s.clock.(mapRtc := true))
    else if loc < 0x8000 then s.(clock := Latch(s.clock, data, now))
    else if loc < 0x9800 then TilesOutdated(s, loc)
    else Stored(s, loc, data, EramBanked(s, loc))
  }

  /** `write5` updates `currBank` in place with `&=` and `|=`, which needs
      the attribute to exist already. */
  predicate Write5Ok(s: MemState, loc: int, data: int)
  {
    StoreOk(s, loc, data) && (0x2000 <= loc < 0x4000 ==> s.ctl.hasCurrBank)
  }

  /** `write5`, MBC5 (pythongb/memory.py:468-513). */
  function AfterWrite5(s: MemState, loc: int, data: int): (t: MemState)
    requires Write5Ok(s, loc, data)
    ensures Sized(t)
  {
    if loc < 0x2000 then s.(ctl := s.ctl.(disableEram := EramDisabled(loc)))
    else if loc < 0x3000 then s.(ctl := s.ctl.(currBank := data))
    else if loc < 0x4000 then s.(ctl := s.ctl.(currBank := Mbc5HighBank(s.ctl.currBank, data)))
    else if loc < 0x6000 then s.(ctl := s.ctl.(eramBank := RamBank(data, 16)))
    else if loc < 0x8000 then s.(ctl := s.ctl.(memoryModel := MemoryModel(loc)))
    else if loc < 0x9800 then TilesOutdated(s, loc)
    else Stored(s, loc, data, EramBanked(s, loc))
  }

  predicate WriteOk(s: MemState, loc: int, data: int)
  {
    if s.ctl.bankingType == 0 then Write0Ok(s, loc, data)
    else if s.ctl.bankingType == 5 then Write5Ok(s, loc, data)
    else StoreOk(s, loc, data)
  }

  /** `write` (pythongb/memory.py:515-526): the writer of the banking type. */
  function AfterWrite(s: MemState, loc: int, data: int, now: HostTime): (t: MemState)
    requires WriteOk(s, loc, data)
    ensures Sized(t)
  {
    if s.ctl.bankingType == 0 then AfterWrite0(s, loc, data)
    else if s.ctl.bankingType == 1 then AfterWrite1(s, loc, data)
    else if s.ctl.bankingType == 2 then AfterWrite2(s, loc, data)
    else if s.ctl.bankingType == 3 then AfterWrite3(s, loc, data, now)
    else AfterWrite5(s, loc, data)
  }

  /** The cartridge-type byte at 0x147 mapped to a banking type
      (pythongb/memory.py:536-555); unknown kinds fall back to ROM only. */
  function CartType(code: int): (kind: int)
    ensures kind in {0, 1, 2, 3, 5}
    ensures kind == 1 <==> code in {0x1, 0x2, 0x3}
    ensures kind == 2 <==> code in {0x5, 0x6}
    ensures kind == 3 <==> code in {0x12, 0x13}
    ensures kind == 5 <==> code in {0x19, 0x1A, 0x1B, 0x1C, 0x1D, 0x1E}
  {
    if code in [0x0, 0x8, 0x9, 0xB, 0xC, 0xD] then 0
    else if code in [0x1, 0x2, 0x3] then 1
    else if code in [0x5, 0x6] then 2
    else if code in [0x12, 0x13] then 3
    else if code in [0x19, 0x1A, 0x1B, 0x1C, 0x1D, 0x1E] then 5
    else 0
  }

  // -----------------------------------------------------------------------
  // Properties of the address decoding and of the bank registers

  /** While the boot ROM is mapped, `read0` serves it below 0x100 and changes
      nothing; reading 0x100 serves the cartridge and unmaps the boot ROM
      (pythongb/memory.py:83-92). */
  lemma BootOverlay(s: MemState, loc: int)
    requires Read0Ok(s, loc) && s.ctl.biosUse && loc <= 0x100
    ensures loc < 0x100 ==> Read0Value(s, loc) == At(Bios, loc) && AfterRead0(s, loc) == s
    ensures loc == 0x100 ==>
      Read0Value(s, loc) == s.buf.rom[0x100] && AfterRead0(s, loc) == BiosOff(s)
  {
  }

  /** The banked readers reach the same boot byte below 0x100 through
      Python's negative-index wrap of `bios[loc - 0x100]`
      (pythongb/memory.py:122-128), and none of them unmaps the boot ROM there. */
  lemma BootWrap(s: MemState, loc: int)
    requires Sized(s) && s.ctl.biosUse && 0 <= loc < 0x100
    ensures Read1Value(s, loc) == Bios[loc] && Read2Value(s, loc) == Bios[loc]
    ensures Read3Value(s, loc) == Bios[loc] && Read5Value(s, loc) == Bios[loc]
    ensures AfterRead2(s, loc) == s
  {
    BiosLength();
    AtWraps(Bios, loc, loc - 0x100);
    assert Read1Value(s, loc) == At(Bios, loc - 0x100);
    assert Read2Value(s, loc) == At(Bios, loc - 0x100);
    assert Read3Value(s, loc) == At(Bios, loc - 0x100);
    assert Read5Value(s, loc) == At(Bios, loc - 0x100);
  }

  /** `read2` shows the boot ROM a second time at 0x100-0x1FF and unmaps it
      only when it reads 0x1FF (pythongb/memory.py:155-161). */
  lemma Read2BootMirror(s: MemState, loc: int)
    requires Read2Ok(s, loc) && s.ctl.biosUse && 0x100 <= loc < 0x200
    ensures Read2Value(s, loc) == Bios[loc - 0x100] == Read2Value(s, loc - 0x100)
    ensures AfterRead2(s, loc).ctl.biosUse <==> loc != 0x1FF
  {
    Read2Mirror(s, loc);
    Read2Unmaps(s, loc);
  }

  /** The value half of `Read2BootMirror`. */
  lemma Read2Mirror(s: MemState, loc: int)
    requires Read2Ok(s, loc) && s.ctl.biosUse && 0x100 <= loc < 0x200
    ensures Read2Value(s, loc) == Bios[loc - 0x100] == Read2Value(s, loc - 0x100)
  {
    Read2Low(s, loc);
    Read2Below(s, loc - 0x100);
  }

  /** At 0x000-0x0FF `read2` indexes the boot ROM from its end. */
  lemma Read2Below(s: MemState, loc: int)
    requires Read2Ok(s, loc) && s.ctl.biosUse && 0 <= loc < 0x100
    ensures Read2Value(s, loc) == Bios[loc]
  {
    BiosLength();
    Read2Low(s, loc);
    AtWraps(Bios, loc, loc - 0x100);
  }

  /** The unmapping half of `Read2BootMirror`. */
  lemma Read2Unmaps(s: MemState, loc: int)
    requires s.ctl.biosUse && 0x100 <= loc < 0x200
    ensures AfterRead2(s, loc).ctl.biosUse <==> loc != 0x1FF
  {
    BiosLength();
  }

  /** The boot program is 256 bytes long. */
  lemma BiosLength()
    ensures |Bios| == 0x100
  {
  }

  /** Below 0x1000, with the boot ROM mapped, `read2` indexes the boot ROM
      0x100 bytes below the address. */
  lemma Read2Low(s: MemState, loc: int)
    requires Read2Ok(s, loc) && s.ctl.biosUse && loc < 0x1000
    ensures Read2Value(s, loc) == At(Bios, loc - 0x100)
  {
  }

  /** A negative index counts from the end, as in Python. */
  lemma AtWraps(xs: seq<int>, i: int, j: int)
    requires 0 <= i < |xs| && j == i - |xs|
    ensures At(xs, i) == xs[i] == At(xs, j)
  {
  }

  /** No write touches the boot-ROM switch or the banking type. */
  lemma WriteKeepsMode(s: MemState, loc: int, data: int, now: HostTime)
    requires WriteOk(s, loc, data)
    ensures AfterWrite(s, loc, data, now).ctl.biosUse == s.ctl.biosUse
    ensures AfterWrite(s, loc, data, now).ctl.bankingType == s.ctl.bankingType
  {
  }

  /** Once the boot ROM is unmapped it stays unmapped, whatever is read or
      written next, and every low address then reads the cartridge
      (pythongb/memory.py:83-92). */
  lemma BiosStaysOff(s: MemState, loc: int, data: int, now: HostTime)
    requires Sized(s) && !s.ctl.biosUse
    ensures ReadOk(s, loc) ==> !AfterRead(s, loc).ctl.biosUse
    ensures WriteOk(s, loc, data) ==> !AfterWrite(s, loc, data, now).ctl.biosUse
    ensures ReadOk(s, loc) && loc < 0x4000 ==> ReadValue(s, loc) == At(s.buf.rom, loc)
  {
    if WriteOk(s, loc, data) {
      WriteKeepsMode(s, loc, data, now);
    }
  }

  /** Echo RAM: 0xE000-0xFDFF reads the work-RAM byte 0x2000 below it, under
      every banking type (pythongb/memory.py:103-106). */
  lemma EchoRam(s: MemState, loc: int)
    requires ReadOk(s, loc) && 0xE000 <= loc < 0xFE00
    ensures ReadOk(s, loc - 0x2000)
    ensures ReadValue(s, loc) == ReadValue(s, loc - 0x2000) == s.buf.wram[loc - 0xE000]
    ensures AfterRead(s, loc) == s && AfterRead(s, loc - 0x2000) == s
  {
  }

  /** The address whose cell the writers and the banked readers reach from
      `loc` through a negative index: 0xFEB4-0xFEFF index `io` from its end,
      as the I/O address 0x4C above does, and 0xFF4C-0xFF7F index `ram` from
      its end, as the high-RAM address 0x7F above does. */
  function Alias(loc: int): (a: int)
    ensures 0xFEB4 <= loc < 0xFF00 ==> 0xFF00 <= a < 0xFF4C && a - 0xFF00 == Wrap(IoSize, loc - 0xFF00)
    ensures 0xFF4C <= loc < 0xFF80 ==> 0xFFCB <= a < 0xFFFF && a - 0xFF80 == Wrap(RamSize, loc - 0xFF80)
  {
    if 0xFEB4 <= loc < 0xFF00 then loc + IoSize
    else if 0xFF4C <= loc < 0xFF80 then loc + RamSize
    else loc
  }

  /** The address that names the same buffer cell as `loc`: an echo address
      names the work-RAM byte 0x2000 below, an aliased one its `Alias`. */
  function Cell(loc: int): int
  {
    if 0xE000 <= loc < 0xFE00 then loc - 0x2000 else Alias(loc)
  }

  /** Two addresses that name the same buffer cell. */
  predicate SameCell(a: int, b: int)
  {
    Cell(a) == Cell(b)
  }

  /** Under ROM-only banking, a write to work RAM, its echo, OAM, I/O or high
      RAM is read back by the next read of that address; only the buffers
      change, and every address that does not name the same cell reads as
      before (pythongb/memory.py:280-289). */
  lemma WriteThenRead0(s: MemState, loc: int, data: int, now: HostTime)
    requires WriteOk(s, loc, data) && s.ctl.bankingType == 0 && 0xC000 <= loc < 0xFFFF
    requires !Unused(loc)
    ensures var t := AfterWrite(s, loc, data, now);
      ReadOk(t, loc) && ReadValue(t, loc) == data &&
      t == s.(buf := t.buf) && t.buf.rom == s.buf.rom &&
      forall a :: ReadOk(s, a) && !SameCell(a, loc) ==>
        ReadOk(t, a) && ReadValue(t, a) == ReadValue(s, a)
  {
    var t := AfterWrite(s, loc, data, now);
    assert t == Stored(s, loc, data, EramBanked(s, loc));
    forall a | ReadOk(s, a) && !SameCell(a, loc)
      ensures ReadOk(t, a) && ReadValue(t, a) == ReadValue(s, a)
    {
      StoreOtherCell(s, loc, data, a);
    }
  }

  /** A high store leaves every other cell as `read0` sees it. */
  lemma StoreOtherCell(s: MemState, loc: int, data: int, a: int)
    requires Write0Ok(s, loc, data) && 0xC000 <= loc < 0xFFFF
    requires Read0Ok(s, a) && !SameCell(a, loc)
    ensures var t := Stored(s, loc, data, EramBanked(s, loc));
      Read0Ok(t, a) && Read0Value(t, a) == Read0Value(s, a)
  {
    var t := Stored(s, loc, data, EramBanked(s, loc));
    if a < 0xC000 {
      assert t.buf.rom == s.buf.rom && t.buf.vram == s.buf.vram && t.buf.eram == s.buf.eram;
    } else if a < 0xE000 {
      assert t.buf.wram[a - 0xC000] == s.buf.wram[a - 0xC000];
    } else if a < 0xFE00 {
      assert t.buf.wram[a - 0xE000] == s.buf.wram[a - 0xE000];
    } else if 0xFF00 <= a < 0xFF4C {
      assert t.buf.io[a - 0xFF00] == s.buf.io[a - 0xFF00];
    } else if 0xFF80 <= a < 0xFFFF {
      assert t.buf.ram[a - 0xFF80] == s.buf.ram[a - 0xFF80];
    }
  }

  /** The banked readers and every writer reach 0xFEB4-0xFEFF and
      0xFF4C-0xFF7F through Python's negative indices: there they read and
      write the cell of `Alias(loc)`.  `read0` reads 0 there instead, so
      under ROM-only banking such a write is read back only at its alias
      (pythongb/memory.py:109-116, 143-148, 286-289). */
  lemma AliasedAddresses(s: MemState, loc: int, data: int, now: HostTime)
    requires Sized(s) && (0xFEB4 <= loc < 0xFF00 || 0xFF4C <= loc < 0xFF80)
    ensures ReadOk(s, loc) && ReadOk(s, Alias(loc)) && AfterRead(s, loc) == s
    ensures s.ctl.bankingType == 0 ==> ReadValue(s, loc) == 0
    ensures s.ctl.bankingType != 0 ==> ReadValue(s, loc) == ReadValue(s, Alias(loc))
    ensures WriteOk(s, loc, data) <==> WriteOk(s, Alias(loc), data)
    ensures WriteOk(s, loc, data) ==>
      AfterWrite(s, loc, data, now) == AfterWrite(s, Alias(loc), data, now)
  {
  }

  /** At 0xFEA0-0xFEB3 the `io` index is below `-len(io)`: every writer and
      every banked reader raises IndexError, and only `read0` answers, with 0
      (pythongb/memory.py:107-110, 145-146, 286-287). */
  lemma IoHoleRaises(s: MemState, loc: int, data: int)
    requires Sized(s) && IoHole(loc)
    ensures !WriteOk(s, loc, data)
    ensures ReadOk(s, loc) <==> s.ctl.bankingType == 0
    ensures s.ctl.bankingType == 0 ==> ReadValue(s, loc) == 0
  {
  }

  /** The boot program ends by writing 1 to 0xFF50.  Under ROM-only banking
      the write lands in high RAM at 0xFFCF and changes nothing else: the
      boot ROM stays mapped, and 0xFF50 itself still reads 0. */
  lemma BootExitWrite(s: MemState, now: HostTime)
    requires Sized(s) && s.ctl.bankingType == 0
    ensures Bios[|Bios| - 4..] == [0x3E, 0x01, 0xE0, 0x50]
    ensures var t := AfterWrite(s, 0xFF50, 1, now);
      t == s.(buf := s.buf.(ram := s.buf.ram[0x4F := 1])) &&
      ReadValue(t, 0xFF50) == 0 && ReadValue(t, 0xFFCF) == 1
  {
  }

  /** Until a bank select creates `currBank`, every banked read of
      0x4000-0x7FFF and every MBC5 bank write raises AttributeError, and no
      MBC5 write creates it; an MBC1, MBC2 or MBC3 bank select does
      (pythongb/memory.py:133-134, 308-314, 477-483). */
  lemma BankUndefined(s: MemState, loc: int, data: int, now: HostTime)
    requires Sized(s) && !s.ctl.hasCurrBank
    ensures s.ctl.bankingType != 0 && 0x4000 <= loc < 0x8000 ==> !ReadOk(s, loc)
    ensures s.ctl.bankingType == 5 && 0x2000 <= loc < 0x4000 ==> !WriteOk(s, loc, data)
    ensures s.ctl.bankingType == 5 && WriteOk(s, loc, data) ==>
      !AfterWrite(s, loc, data, now).ctl.hasCurrBank
    ensures s.ctl.bankingType in {1, 2, 3} && 0x2000 <= loc < 0x4000 && WriteOk(s, loc, data) ==>
      AfterWrite(s, loc, data, now).ctl.hasCurrBank
  {
  }

  /** MBC3 takes its ROM bank unmasked (pythongb/memory.py:412-421), so a
      negative bank is kept, and a later switchable-bank read indexes the
      image from its end, as Python does (pythongb/memory.py:199-200). */
  lemma NegativeBank(s: MemState, loc: int, data: int, now: HostTime)
    requires Sized(s) && s.ctl.bankingType == 3 && 0x2000 <= loc < 0x4000 && data < 0
    ensures WriteOk(s, loc, data)
    ensures var t := AfterWrite(s, loc, data, now);
      t.ctl.hasCurrBank && t.ctl.currBank == data && t.buf.rom == s.buf.rom &&
      forall a :: 0x4000 <= a < 0x8000 && -|s.buf.rom| <= BankedRom(data, a) ==>
        ReadOk(t, a) && ReadValue(t, a) == s.buf.rom[|s.buf.rom| + BankedRom(data, a)]
  {
  }

  /** `read0` returns 0 for the two unused areas and for 0xFFFF, and no writer
      changes anything at 0xFFFF or above (pythongb/memory.py:109-118, 288-289). */
  lemma UnmappedAddresses(s: MemState, loc: int, data: int, now: HostTime)
    requires Sized(s)
    ensures (0xFEA0 <= loc < 0xFF00 || 0xFF4C <= loc < 0xFF80 || 0xFFFF <= loc) ==>
      Read0Ok(s, loc) && Read0Value(s, loc) == 0 && AfterRead0(s, loc) == s
    ensures 0xFFFF <= loc && WriteOk(s, loc, data) ==> AfterWrite(s, loc, data, now) == s
  {
  }

  /** MBC3 RAM-bank register (pythongb/memory.py:423-429): data up to 3 selects
      that RAM bank and unmaps the clock registers; larger data maps the
      clock and keeps the bank.  While the clock is mapped, external RAM
      reads as 0 (pythongb/memory.py:203-210). */
  lemma Mbc3RamSelect(s: MemState, loc: int, data: int, now: HostTime)
    requires StoreOk(s, loc, data) && 0x4000 <= loc < 0x6000
    ensures var t := AfterWrite3(s, loc, data, now);
      (0 <= data <= 3 ==>
        t == s.(ctl := s.ctl.(eramBank := data), clock := s.clock.(mapRtc := false))) &&
      (data > 3 ==> t == s.(clock := s.clock.(mapRtc := true))) &&
      (data > 3 ==> forall a :: 0xA000 <= a < 0xC000 ==> Read3Value(t, a) == 0)
  {
  }

  /** MBC3 latch register (pythongb/memory.py:431-443): 0 sets the latch to 1,
      1 sets it to 2 and loads the host time into the clock registers, other
      values change nothing. */
  lemma Mbc3Latch(s: MemState, loc: int, data: int, now: HostTime)
    requires StoreOk(s, loc, data) && 0x6000 <= loc < 0x8000
    ensures var t := AfterWrite3(s, loc, data, now);
      t == s.(clock := t.clock) &&
      (data == 0 ==> t.clock == s.clock.(latchRtc := 1)) &&
      (data == 1 ==>
        t.clock == s.clock.(latchRtc := 2,
                            rtc := Rtc(now.second, now.minute, now.hour, now.day, s.clock.rtc.flags))) &&
      (data != 0 && data != 1 ==> t == s)
  {
  }

  /** Writes to the tile area 0x8000-0x97FF never reach `vram`: the banked
      writers only mark the tiles outdated at that address, `write0` only
      reports the address to the GPU (pythongb/memory.py:272-275, 324-328). */
  lemma TileWrites(s: MemState, loc: int, data: int, now: HostTime)
    requires WriteOk(s, loc, data) && 0x8000 <= loc < 0x9800
    ensures var t := AfterWrite(s, loc, data, now);
      t.buf == s.buf &&
      (s.ctl.bankingType != 0 ==> t == TilesOutdated(s, loc) &&
                                  t.tiles.tilesOutdated && t.tiles.outdatedLocation == loc) &&
      (s.ctl.bankingType == 0 ==> t.tiles.notified == s.tiles.notified + [loc] &&
                                  t == s.(tiles := t.tiles))
  {
  }

  /** MBC1 selects the ROM bank from the written ADDRESS: the data byte is
      ignored, and addresses whose low five bits are 0 and 1 select the same
      bank (pythongb/memory.py:298-314). */
  lemma Mbc1SelectsByAddress(s: MemState, loc: int, d1: int, d2: int)
    requires StoreOk(s, loc, d1) && StoreOk(s, loc, d2) && 0x2000 <= loc < 0x4000
    ensures AfterWrite1(s, loc, d1) == AfterWrite1(s, loc, d2)
    ensures loc % 32 == 0 && StoreOk(s, loc + 1, d1) ==>
      AfterWrite1(s, loc, d1) == AfterWrite1(s, loc + 1, d1)
  {
  }

  /** MBC5: writing the low bank byte and then the high bits selects bank
      `high * 256 + low` for a byte `low` (pythongb/memory.py:477-483). */
  lemma Mbc5BankPair(s: MemState, low: int, high: int)
    requires Sized(s) && s.ctl.hasCurrBank && IsByte(low)
    ensures var t := AfterWrite5(AfterWrite5(s, 0x2000, low), 0x3000, high);
      t.ctl.currBank == high * 256 + low && t == s.(ctl := s.ctl.(currBank := t.ctl.currBank))
  {
  }

  // -----------------------------------------------------------------------
  // The controller object

  /** `MemoryController` (pythongb/memory.py): the banking fields, the GPU
      reference and one array per bytearray.  `rom` is replaced by
      `read_rom`; the other buffers are allocated once. */
  class MemoryController {
    var biosUse: bool
    var bankingType: int
    var hasCurrBank: bool
    var currBank: int
    var memoryModel: int
    var disableEram: bool
    var eramBank: int
    var disableRtc: bool
    var mapRtc: bool
    var latchRtc: int
    var rtc: Rtc
    var tilesOutdated: bool
    var outdatedLocation: int
    var gpu: Ppu.GPU?
    ghost var notified: seq<int>
    var rom: array<int>
    const vram: array<int>
    const eram: array<int>
    const wram: array<int>
    const oam: array<int>
    const io: array<int>
    const ram: array<int>

    /** The banking registers. */
    ghost function Ctl(): Banking
      reads this`biosUse, this`bankingType, this`hasCurrBank, this`currBank,
            this`memoryModel, this`disableEram, this`eramBank
    {
      Banking(biosUse, bankingType, hasCurrBank, currBank, memoryModel, disableEram, eramBank)
    }

    /** The MBC3 clock registers. */
    ghost function Clk(): Clock
      reads this`disableRtc, this`mapRtc, this`latchRtc, this`rtc
    {
      Clock(disableRtc, mapRtc, latchRtc, rtc)
    }

    /** The tile bookkeeping and the GPU link. */
    ghost function TileState(): Tiles
      reads this`tilesOutdated, this`outdatedLocation, this`gpu, this`notified
    {
      Tiles(tilesOutdated, outdatedLocation, gpu != null, notified)
    }

    /** The contents of the seven buffers. */
    ghost function Buf(): Buffers
      reads this`rom, rom, vram, eram, wram, oam, io, ram
    {
      Buffers(rom[..], vram[..], eram[..], wram[..], oam[..], io[..], ram[..])
    }

    ghost function State(): MemState
      reads this, rom, vram, eram, wram, oam, io, ram
    {
      MemState(Ctl(), Clk(), TileState(), Buf())
    }

    /** The buffers are seven distinct arrays and the state is well formed. */
    ghost predicate Valid()
      reads this, rom, vram, eram, wram, oam, io, ram
    {
      rom != vram && rom != eram && rom != wram && rom != oam && rom != io && rom != ram &&
      vram != eram && vram != wram && vram != oam && vram != io && vram != ram &&
      eram != wram && eram != oam && eram != io && eram != ram &&
      wram != oam && wram != io && wram != ram &&
      oam != io && oam != ram &&
      io != ram &&
      Sized(State())
    }

    /** `__init__` (pythongb/memory.py:40-79). */
    constructor ()
      ensures Valid() && State() == Initial()
      ensures fresh(rom) && fresh(vram) && fresh(eram) && fresh(wram)
      ensures fresh(oam) && fresh(io) && fresh(ram)
    {
      var rom0 := ZeroBuffer(RomSize);
      var vram0 := ZeroBuffer(VramSize);
      var eram0 := ZeroBuffer(EramSize);
      var wram0 := ZeroBuffer(WramSize);
      var oam0 := ZeroBuffer(OamSize);
      var io0 := ZeroBuffer(IoSize);
      var ram0 := ZeroBuffer(RamSize);
      biosUse := true;
      bankingType := 0;
      hasCurrBank, currBank := false, 0;
      memoryModel := 0;
      disableEram := false;
      eramBank := 0;
      disableRtc := false;
      mapRtc := false;
      latchRtc := 0;
      rtc := Rtc(0, 0, 0, 0, 0);
      tilesOutdated, outdatedLocation := false, 0;
      rom := rom0;
      vram := vram0;
      eram := eram0;
      wram := wram0;
      oam := oam0;
      io := io0;
      ram := ram0;
      gpu := null;
      notified := [];
      new;
    }

    /** A zero-filled `bytearray(n)`. */
    static method ZeroBuffer(n: nat) returns (a: array<int>)
      ensures fresh(a) && a[..] == seq(n, _ => 0)
    {
      a := new int[n](_ => 0);
      assert a[..] == seq(n, _ => 0);
    }

    /** `read0` (pythongb/memory.py:81-118). */
    method Read0(loc: int) returns (v: int)
      requires Valid() && Read0Ok(State(), loc)
      modifies this
      ensures Valid()
      ensures v == Read0Value(old(State()), loc)
      ensures State() == AfterRead0(old(State()), loc)
    {
      if loc <= 0x100 {
        if biosUse {
          if loc == 0x100 {
            biosUse := false;
            return rom[loc];
          }
          return At(Bios, loc);
        }
        return rom[Wrap(rom.Length, loc)];
      }
      if loc < 0x8000 {
        v := rom[loc];
      } else if loc < 0xA000 {
        v := vram[loc - 0x8000];
      } else if loc < 0xC000 {
        v := eram[loc - 0xA000];
      } else if loc < 0xE000 {
        v := wram[loc - 0xC000];
      } else if loc < 0xFE00 {
        v := wram[loc - 0xE000];
      } else if loc < 0xFEA0 {
        v := oam[loc - 0xFE00];
      } else if loc < 0xFF00 {
        v := 0;
      } else if loc < 0xFF4C {
        v := io[loc - 0xFF00];
      } else if loc < 0xFF80 {
        v := 0;
      } else if loc < 0xFFFF {
        v := ram[loc - 0xFF80];
      } else {
        v := 0;
      }
    }

    /** Work RAM, echo, OAM, I/O and high RAM, as the banked readers decode them. */
    method ReadHigh(loc: int) returns (v: int)
      requires Valid() && !IoHole(loc) && 0xC000 <= loc
      ensures v == HighRead(State(), loc)
    {
      if loc < 0xE000 {
        v := wram[loc - 0xC000];
      } else if loc < 0xFE00 {
        v := wram[loc - 0xE000];
      } else if loc < 0xFEA0 {
        v := oam[loc - 0xFE00];
      } else if loc < 0xFF4C {
        v := io[Wrap(io.Length, loc - 0xFF00)];
      } else if loc < 0xFFFF {
        v := ram[Wrap(ram.Length, loc - 0xFF80)];
      } else {
        v := 0;
      }
    }

    /** `read1` (pythongb/memory.py:121-150). */
    method Read1(loc: int) returns (v: int)
      requires Valid() && Read1Ok(State(), loc)
      ensures v == Read1Value(State(), loc)
    {
      if loc < 0x255 {
        if biosUse && loc < |Bios| {
          return At(Bios, loc - 0x100);
        }
        v := rom[Wrap(rom.Length, loc)];
      } else if loc < 0x4000 {
        v := rom[loc];
      } else if loc < 0x8000 {
        v := rom[Wrap(rom.Length, loc - 0x4000 + 0x4000 * currBank)];
      } else if loc < 0xA000 {
        v := vram[loc - 0x8000];
      } else if loc < 0xC000 {
        v := eram[loc - 0xA000 + 0x2000 * eramBank];
      } else {
        v := ReadHigh(loc);
      }
    }

    /** `read2` (pythongb/memory.py:153-183). */
    method Read2(loc: int) returns (v: int)
      requires Valid() && Read2Ok(State(), loc)
      modifies this
      ensures Valid()
      ensures v == Read2Value(old(State()), loc)
      ensures State() == AfterRead2(old(State()), loc)
    {
      if loc < 0x1000 {
        if biosUse {
          if loc - 0x100 >= |Bios| - 1 {
            biosUse := false;
          }
          return At(Bios, loc - 0x100);
        }
        v := rom[Wrap(rom.Length, loc)];
      } else if loc < 0x4000 {
        v := rom[loc];
      } else if loc < 0x8000 {
        v := rom[Wrap(rom.Length, loc - 0x4000 + 0x4000 * currBank)];
      } else if loc < 0xA000 {
        v := vram[loc - 0x8000];
      } else if loc < 0xC000 {
        PythonMasks(eram[loc - 0xA000], 0);
        v := And(eram[loc - 0xA000], 0x00FF);
      } else {
        v := ReadHigh(loc);
      }
    }

    /** `read3` (pythongb/memory.py:186-221). */
    method Read3(loc: int) returns (v: int)
      requires Valid() && Read3Ok(State(), loc)
      ensures v == Read3Value(State(), loc)
    {
      if loc < 0x1000 {
        if biosUse && loc < |Bios| {
          return At(Bios, loc - 0x100);
        }
        v := rom[Wrap(rom.Length, loc)];
      } else if loc < 0x4000 {
        v := rom[loc];
      } else if loc < 0x8000 {
        v := rom[Wrap(rom.Length, loc - 0x4000 + 0x4000 * currBank)];
      } else if loc < 0xA000 {
        v := vram[loc - 0x8000];
      } else if loc < 0xC000 {
        v := 0;
        if !disableEram {
          if !mapRtc {
            v := eram[loc - 0xA000 + 0x2000 * eramBank];
          }
        }
      } else {
        v := ReadHigh(loc);
      }
    }

    /** `read5` (pythongb/memory.py:224-254). */
    method Read5(loc: int) returns (v: int)
      requires Valid() && Read5Ok(State(), loc)
      ensures v == Read5Value(State(), loc)
    {
      if loc < 0x1000 {
        if biosUse && loc < |Bios| {
          return At(Bios, loc - 0x100);
        }
        v := rom[Wrap(rom.Length, loc)];
      } else if loc < 0x4000 {
        v := rom[loc];
      } else if loc < 0x8000 {
        v := rom[Wrap(rom.Length, loc - 0x4000 + 0x4000 * currBank)];
      } else if loc < 0xA000 {
        v := vram[loc - 0x8000];
      } else if loc < 0xC000 {
        PythonMasks(eram[loc - 0xA000], 0);
        v := And(eram[loc - 0xA000], 0x00FF);
      } else {
        v := ReadHigh(loc);
      }
    }

    /** `read` (pythongb/memory.py:256-265). */
    method Read(loc: int) returns (v: int)
      requires Valid() && ReadOk(State(), loc)
      modifies this
      ensures Valid()
      ensures v == ReadValue(old(State()), loc)
      ensures State() == AfterRead(old(State()), loc)
    {
      if bankingType == 0 {
        v := Read0(loc);
      } else if bankingType == 1 {
        v := Read1(loc);
      } else if bankingType == 2 {
        v := Read2(loc);
      } else if bankingType == 3 {
        v := Read3(loc);
      } else {
        v := Read5(loc);
      }
    }

    /** The buffer stores every writer ends with. */
    method StoreTail(loc: int, data: int, eramIndex: int)
      requires Valid() && StoreOk(State(), loc, data) && 0x9800 <= loc
      requires 0xA000 <= loc < 0xC000 ==> 0 <= eramIndex < EramSize
      modifies vram, eram, wram, oam, io, ram
      ensures Valid()
      ensures State() == Stored(old(State()), loc, data, eramIndex)
    {
      if loc < 0xA000 {
        vram[loc - 0x8000] := data;
      } else if loc < 0xC000 {
        eram[eramIndex] := data;
      } else if loc < 0xE000 {
        wram[loc - 0xC000] := data;
      } else if loc < 0xFE00 {
        wram[loc - 0xE000] := data;
      } else if loc < 0xFEA0 {
        oam[loc - 0xFE00] := data;
      } else if loc < 0xFF4C {
        io[Wrap(io.Length, loc - 0xFF00)] := data;
      } else if loc < 0xFFFF {
        ram[Wrap(ram.Length, loc - 0xFF80)] := data;
      }
    }

    /** Marks the tiles outdated at `loc` (pythongb/memory.py:324-328). */
    method MarkTiles(loc: int)
      requires Valid()
      modifies this
      ensures Valid()
      ensures State() == TilesOutdated(old(State()), loc)
    {
      tilesOutdated := true;
      outdatedLocation := loc;
    }

    /** `write0` (pythongb/memory.py:268-289); the call into the GPU's tile
        update is recorded in `notified`. */
    method Write0(loc: int, data: int)
      requires Valid() && Write0Ok(State(), loc, data)
      modifies this, rom, vram, eram, wram, oam, io, ram
      ensures Valid()
      ensures State() == AfterWrite0(old(State()), loc, data)
    {
      if loc < 0x8000 {
        rom[Wrap(rom.Length, loc)] := data;
      } else if loc < 0x9800 {
        notified := notified + [loc];
      } else {
        StoreTail(loc, data, loc - 0xA000 + 0x2000 * eramBank);
      }
    }

    /** The MBC1 registers, `write1` below 0x8000 (pythongb/memory.py:293-321). */
    method Registers1(loc: int, data: int)
      requires Valid() && StoreOk(State(), loc, data) && loc < 0x8000
      modifies this
      ensures Valid()
      ensures State() == AfterWrite1(old(State()), loc, data)
    {
      if loc < 0x2000 {
        disableEram := EramDisabled(loc);
      } else if loc < 0x4000 {
        hasCurrBank, currBank := true, Mbc1Bank(loc);
      } else if loc < 0x6000 {
        eramBank := RamBank(data, 4);
      } else {
        memoryModel := MemoryModel(loc);
      }
    }

    /** `write1` (pythongb/memory.py:292-343). */
    method Write1(loc: int, data: int)
      requires Valid() && StoreOk(State(), loc, data)
      modifies this, vram, eram, wram, oam, io, ram
      ensures Valid()
      ensures State() == AfterWrite1(old(State()), loc, data)
    {
      if loc < 0x8000 {
        Registers1(loc, data);
      } else if loc < 0x9800 {
        MarkTiles(loc);
      } else {
        StoreTail(loc, data, loc - 0xA000 + 0x2000 * eramBank);
      }
    }

    /** The MBC2 registers, `write2` below 0x8000 (pythongb/memory.py:347-374). */
    method Registers2(loc: int, data: int)
      requires Valid() && StoreOk(State(), loc, data) && loc < 0x8000
      modifies this
      ensures Valid()
      ensures State() == AfterWrite2(old(State()), loc, data)
    {
      if loc < 0x2000 {
        disableEram := EramDisabled(loc);
      } else if loc < 0x4000 {
        hasCurrBank, currBank := true, Mbc2Bank(data);
      } else if loc < 0x6000 {
        eramBank := RamBank(data, 4);
      }
    }

    /** `write2` (pythongb/memory.py:346-397). */
    method Write2(loc: int, data: int)
      requires Valid() && StoreOk(State(), loc, data)
      modifies this, vram, eram, wram, oam, io, ram
      ensures Valid()
      ensures State() == AfterWrite2(old(State()), loc, data)
    {
      if loc < 0x8000 {
        Registers2(loc, data);
      } else if loc < 0x9800 {
        MarkTiles(loc);
      } else {
        StoreTail(loc, data, loc - 0xA000);
      }
    }

    /** The MBC3 latch register (pythongb/memory.py:431-443). */
    method LatchClock(data: int, now: HostTime)
      requires Valid()
      modifies this
      ensures Valid()
      ensures State() == old(State()).(clock := Latch(old(State()).clock, data, now))
    {
      if data == 0 {
        latchRtc := 1;
      } else if data == 1 {
        latchRtc := 2;
        rtc := rtc.(seconds := now.second, minutes := now.minute, hours := now.hour, days := now.day);
      }
    }

    /** The MBC3 registers, `write3` below 0x8000 (pythongb/memory.py:401-443). */
    method Registers3(loc: int, data: int, now: HostTime)
      requires Valid() && StoreOk(State(), loc, data) && loc < 0x8000
      modifies this
      ensures Valid()
      ensures State() == AfterWrite3(old(State()), loc, data, now)
    {
      if loc < 0x2000 {
        disableEram := EramDisabled(loc);
        disableRtc := disableEram;
      } else if loc < 0x4000 {
        hasCurrBank, currBank := true, Mbc3Bank(data);
      } else if loc < 0x6000 {
        if data <= 3 {
          eramBank := RamBank(data, 16);
          mapRtc := false;
        } else {
          mapRtc := true;
        }
      } else {
        LatchClock(data, now);
      }
    }

    /** `write3` (pythongb/memory.py:400-465). */
    method Write3(loc: int, data: int, now: HostTime)
      requires Valid() && StoreOk(State(), loc, data)
      modifies this, vram, eram, wram, oam, io, ram
      ensures Valid()
      ensures State() == AfterWrite3(old(State()), loc, data, now)
    {
      if loc < 0x8000 {
        Registers3(loc, data, now);
      } else if loc < 0x9800 {
        MarkTiles(loc);
      } else {
        StoreTail(loc, data, loc - 0xA000 + 0x2000 * eramBank);
      }
    }

    /** The MBC5 registers, `write5` below 0x8000 (pythongb/memory.py:469-491). */
    method Registers5(loc: int, data: int)
      requires Valid() && Write5Ok(State(), loc, data) && loc < 0x8000
      modifies this
      ensures Valid()
      ensures State() == AfterWrite5(old(State()), loc, data)
    {
      if loc < 0x2000 {
        disableEram := EramDisabled(loc);
      } else if loc < 0x3000 {
        currBank := data;
      } else if loc < 0x4000 {
        currBank := Mbc5HighBank(currBank, data);
      } else if loc < 0x6000 {
        eramBank := RamBank(data, 16);
      } else {
        memoryModel := MemoryModel(loc);
      }
    }

    /** `write5` (pythongb/memory.py:468-513). */
    method Write5(loc: int, data: int)
      requires Valid() && Write5Ok(State(), loc, data)
      modifies this, vram, eram, wram, oam, io, ram
      ensures Valid()
      ensures State() == AfterWrite5(old(State()), loc, data)
    {
      if loc < 0x8000 {
        Registers5(loc, data);
      } else if loc < 0x9800 {
        MarkTiles(loc);
      } else {
        StoreTail(loc, data, loc - 0xA000 + 0x2000 * eramBank);
      }
    }

    /** `write` (pythongb/memory.py:515-526). */
    method Write(loc: int, data: int, now: HostTime)
      requires Valid() && WriteOk(State(), loc, data)
      modifies this, rom, vram, eram, wram, oam, io, ram
      ensures Valid()
      ensures State() == AfterWrite(old(State()), loc, data, now)
    {
      if bankingType == 0 {
        Write0(loc, data);
      } else if bankingType == 1 {
        Write1(loc, data);
      } else if bankingType == 2 {
        Write2(loc, data);
      } else if bankingType == 3 {
        Write3(loc, data, now);
      } else {
        Write5(loc, data);
      }
    }

    /** The classification and installation of `read_rom`
        (pythongb/memory.py:528-557), given the file's bytes. */
    method LoadRom(image: seq<int>)
      requires Valid() && |image| > 0x147
      modifies this
      ensures Valid() && fresh(rom)
      ensures State() == old(State()).(ctl := old(State()).ctl.(bankingType := CartType(image[0x147])),
                                       buf := old(State()).buf.(rom := image))
    {
      var cartType := image[0x147];
      bankingType := CartType(cartType);
      rom := new int[|image|](i requires 0 <= i < |image| => image[i]);
      assert rom[..] == image;
    }

    /** `attach_gpu` (pythongb/memory.py:562-563). */
    method AttachGpu(g: Ppu.GPU)
      requires Valid()
      modifies this
      ensures Valid() && gpu == g
      ensures State() == old(State()).(tiles := old(State()).tiles.(gpuAttached := true))
    {
      gpu := g;
    }
  }
}
