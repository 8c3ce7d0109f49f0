/** The meaning of the opcode methods of `CPU` (pythongb/cpu.py), one function
    per method, over a value snapshot of the processor: the register
    dictionary `r`, the flag dictionary `flag` and a flat memory of 0x10000
    cells.

    Registers are plain Python integers that the opcode methods never mask,
    so every register and every memory cell is an `int` here, and the bit
    operations are those of module Bits.  The memory is flat: the banked
    controller of module Memory is replaced by 0x10000 cells, an address
    outside 0x0000..0xFFFF reads as 0, and a write to such an address is
    dropped (the controller does the same at and above 0xFFFF). */
module Semantics {
  import opened Bits

  /** The keys of `CPU.r`. */
  datatype Reg = A | B | C | D | E | F | H | L | PC | SP | IME

  /** The keys of `CPU.flag`: z, n, h and c. */
  datatype Flag = Zero | Subtract | HalfCarry | Carry

  /** `CPU.r`: one entry per key of the dictionary. */
  datatype Registers = Registers(a: int, b: int, c: int, d: int, e: int, f: int,
                                 h: int, l: int, pc: int, sp: int, ime: int)
  {
    /** `r[k]`. */
    function Get(k: Reg): int
    {
      match k
      case A => a
      case B => b
      case C => c
      case D => d
      case E => e
      case F => f
      case H => h
      case L => l
      case PC => pc
      case SP => sp
      case IME => ime
    }

    /** `r[k] = v`. */
    function Set(k: Reg, v: int): (r: Registers)
      ensures r.Get(k) == v
      ensures forall j: Reg :: j != k ==> r.Get(j) == Get(j)
    {
      match k
      case A => this.(a := v)
      case B => this.(b := v)
      case C => this.(c := v)
      case D => this.(d := v)
      case E => this.(e := v)
      case F => this.(f := v)
      case H => this.(h := v)
      case L => this.(l := v)
      case PC => this.(pc := v)
      case SP => this.(sp := v)
      case IME => this.(ime := v)
    }
  }

  /** `CPU.flag`: one entry per key of the dictionary. */
  datatype Flags = Flags(z: int, n: int, h: int, c: int)
  {
    /** `flag[f]`. */
    function Get(f: Flag): int
    {
      match f
      case Zero => z
      case Subtract => n
      case HalfCarry => h
      case Carry => c
    }

    /** `flag[f] = v`. */
    function Set(f: Flag, v: int): (r: Flags)
      ensures r.Get(f) == v
      ensures forall g: Flag :: g != f ==> r.Get(g) == Get(g)
    {
      match f
      case Zero => this.(z := v)
      case Subtract => this.(n := v)
      case HalfCarry => this.(h := v)
      case Carry => this.(c := v)
    }
  }

  const MemSize := 0x10000

  type Memory = s: seq<int> | |s| == MemSize witness seq(MemSize, _ => 0)

  datatype Machine = Machine(r: Registers, flag: Flags, mem: Memory)

  /** The state `CPU.__init__` builds (pythongb/cpu.py:18-40), over a zeroed
      memory. */
  function PowerOn(): (m: Machine)
    ensures m.r.Get(PC) == 0x100 && m.r.Get(SP) == 0xFFFE && m.r.Get(IME) == 1
    ensures forall k: Reg :: k !in {PC, SP, IME} ==> m.r.Get(k) == 0
    ensures forall f: Flag :: m.flag.Get(f) == 0
  {
    Machine(Registers(0, 0, 0, 0, 0, 0, 0, 0, 0x100, 0xFFFE, 1), Flags(0, 0, 0, 0),
            seq(MemSize, _ => 0))
  }

  // ---------------------------------------------------------------------
  // Helpers (pythongb/cpu.py:42-78)

  /** Python's `1 if c else 0`. */
  function Truth(c: bool): int
  {
    if c then 1 else 0
  }

  /** `memory.read(addr)` on the flat memory. */
  function Peek(m: Machine, addr: int): int
  {
    if 0 <= addr < MemSize then m.mem[addr] else 0
  }

  /** `memory.write(addr, v)` on the flat memory. */
  function Poke(m: Machine, addr: int, v: int): Machine
  {
    if 0 <= addr < MemSize then m.(mem := m.mem[addr := v]) else m
  }

  function SetReg(m: Machine, k: Reg, v: int): Machine
  {
    m.(r := m.r.Set(k, v))
  }

  function SetFlag(m: Machine, f: Flag, v: int): Machine
  {
    m.(flag := m.flag.Set(f, v))
  }

  /** All four flags at once. */
  function SetFlags(m: Machine, z: int, n: int, h: int, c: int): Machine
  {
    SetFlag(SetFlag(SetFlag(SetFlag(m, Zero, z), Subtract, n), HalfCarry, h), Carry, c)
  }

  /** `incPC`. */
  function IncPc(m: Machine): Machine
  {
    SetReg(m, PC, m.r.Get(PC) + 1)
  }

  /** `addSP`. */
  function AddSp(m: Machine, v: int): Machine
  {
    SetReg(m, SP, m.r.Get(SP) + v)
  }

  /** `getAB(a, b)`: `r[a] << 8 | r[b]`. */
  function Pair(m: Machine, a: Reg, b: Reg): int
  {
    Or(Shl(m.r.Get(a), 8), m.r.Get(b))
  }

  /** `getHL`. */
  function Hl(m: Machine): int
  {
    Pair(m, H, L)
  }

  /** `addAB(a, b, value)`: the pair plus `value`, split into `val >> 8` and
      `0x00FF & val`. */
  function AddPair(m: Machine, a: Reg, b: Reg, value: int): Machine
  {
    var val := Pair(m, a, b) + value;
    SetReg(SetReg(m, a, Shr(val, 8)), b, And(0x00FF, val))
  }

  /** `pushpc`: the high byte of PC at SP-1, the low byte at SP-2. */
  function PushPc(m: Machine): Machine
  {
    var m1 := AddSp(m, -1);
    var m2 := Poke(m1, m1.r.Get(SP), Shr(m1.r.Get(PC), 8));
    var m3 := AddSp(m2, -1);
    Poke(m3, m3.r.Get(SP), And(m3.r.Get(PC), 0x00FF))
  }

  // ---------------------------------------------------------------------
  // 8-bit loads (pythongb/cpu.py:82-195)

  function Ldnnn(m: Machine, nn: Reg): Machine
  {
    var m1 := IncPc(m);
    SetReg(m1, nn, Peek(m1, m1.r.Get(PC)))
  }

  function Ldr1r2(m: Machine, r1: Reg, r2: Reg): Machine
  {
    SetReg(m, r1, m.r.Get(r2))
  }

  function Ldr1hl(m: Machine, r1: Reg): Machine
  {
    SetReg(m, r1, Peek(m, Hl(m)))
  }

  function Ldhlr2(m: Machine, r2: Reg): Machine
  {
    Poke(m, Hl(m), m.r.Get(r2))
  }

  function Ldhln(m: Machine): Machine
  {
    var m1 := IncPc(m);
    Poke(m1, Hl(m1), Peek(m1, m1.r.Get(PC)))
  }

  function Ldan(m: Machine, n: Reg): Machine
  {
    SetReg(m, A, m.r.Get(n))
  }

  function Ldab(m: Machine, a: Reg, b: Reg): Machine
  {
    SetReg(m, A, Peek(m, Pair(m, a, b)))
  }

  /** `ldann`: the first immediate byte is the low byte of the address. */
  function Ldann(m: Machine): Machine
  {
    var m1 := IncPc(m);
    var n1 := Peek(m1, m1.r.Get(PC));
    var m2 := IncPc(m1);
    var n2 := Peek(m2, m2.r.Get(PC));
    SetReg(m2, A, Peek(m2, Or(Shl(n2, 8), n1)))
  }

  function Ldae(m: Machine): Machine
  {
    var m1 := IncPc(m);
    SetReg(m1, A, Peek(m1, m1.r.Get(PC)))
  }

  function Ldna(m: Machine, n: Reg): Machine
  {
    SetReg(m, n, m.r.Get(A))
  }

  function Ldaba(m: Machine, a: Reg, b: Reg): Machine
  {
    Poke(m, Pair(m, a, b), m.r.Get(A))
  }

  /** `ldnna`: the first immediate byte is the HIGH byte of the address. */
  function Ldnna(m: Machine): Machine
  {
    var m1 := IncPc(m);
    var n1 := Peek(m1, m1.r.Get(PC));
    var m2 := IncPc(m1);
    var n2 := Peek(m2, m2.r.Get(PC));
    Poke(m2, Or(Shl(n1, 8), n2), m2.r.Get(A))
  }

  function Ldac(m: Machine): Machine
  {
    SetReg(m, A, Peek(m, 0xFF00 + m.r.Get(C)))
  }

  function Ldca(m: Machine): Machine
  {
    Poke(m, 0xFF00 + m.r.Get(C), m.r.Get(A))
  }

  function Lddahl(m: Machine): Machine
  {
    AddPair(SetReg(m, A, Peek(m, Hl(m))), H, L, -1)
  }

  function Lddhla(m: Machine): Machine
  {
    AddPair(Poke(m, Hl(m), m.r.Get(A)), H, L, -1)
  }

  function Ldiahl(m: Machine): Machine
  {
    AddPair(SetReg(m, A, Peek(m, Hl(m))), H, L, 1)
  }

  function Ldihla(m: Machine): Machine
  {
    AddPair(Poke(m, Hl(m), m.r.Get(A)), H, L, 1)
  }

  function Ldhna(m: Machine): Machine
  {
    var m1 := IncPc(m);
    var address := 0xFF00 + Peek(m1, m1.r.Get(PC));
    Poke(m1, address, m1.r.Get(A))
  }

  /** `ldhan` has the body of `ldhna`: it stores A, it never loads it. */
  function Ldhan(m: Machine): Machine
  {
    var m1 := IncPc(m);
    var address := 0xFF00 + Peek(m1, m1.r.Get(PC));
    Poke(m1, address, m1.r.Get(A))
  }

  // ---------------------------------------------------------------------
  // 16-bit loads, push and pop (pythongb/cpu.py:197-245)

  function Ldnnn16(m: Machine, a: Reg, b: Reg): Machine
  {
    var m1 := IncPc(m);
    var n1 := Peek(m1, m1.r.Get(PC));
    var m2 := IncPc(m1);
    var n2 := Peek(m2, m2.r.Get(PC));
    SetReg(SetReg(m2, a, n2), b, n1)
  }

  function Ldsphl(m: Machine): Machine
  {
    SetReg(m, SP, Or(Shl(m.r.Get(H), 8), m.r.Get(L)))
  }

  function Ldhlspn(m: Machine): Machine
  {
    var m1 := IncPc(m);
    var n := Peek(m1, m1.r.Get(PC));
    var temp := m1.r.Get(SP) + n;
    SetReg(SetReg(m1, H, Shr(temp, 8)), L, And(temp, 0x00FF))
  }

  /** `ldnnsp`: SP's low byte at PC+1 and its high byte at PC+2, over the
      immediate bytes themselves. */
  function Ldnnsp(m: Machine): Machine
  {
    var m1 := IncPc(m);
    var m2 := Poke(m1, m1.r.Get(PC), And(m1.r.Get(SP), 0x00FF));
    var m3 := IncPc(m2);
    Poke(m3, m3.r.Get(PC), Shr(m3.r.Get(SP), 8))
  }

  function Pushnn(m: Machine, a: Reg, b: Reg): Machine
  {
    var m1 := AddSp(m, -1);
    var m2 := Poke(m1, m1.r.Get(SP), m1.r.Get(a));
    var m3 := AddSp(m2, -1);
    Poke(m3, m3.r.Get(SP), m3.r.Get(b))
  }

  function Popnn(m: Machine, a: Reg, b: Reg): Machine
  {
    var m1 := SetReg(m, b, Peek(m, m.r.Get(SP)));
    var m2 := AddSp(m1, 1);
    var m3 := SetReg(m2, a, Peek(m2, m2.r.Get(SP)));
    AddSp(m3, 1)
  }

  // ---------------------------------------------------------------------
  // 8-bit arithmetic and logic (pythongb/cpu.py:247-589)

  /** Where the second operand of an 8-bit ALU method comes from: a register
      (`addan`, `subn`, ...), the cell at HL (`addahl`, ...) or the byte after
      the opcode (`addanext`, ...). */
  datatype Operand = Reg8(r: Reg) | AtHl | Next

  /** A read-modify-write target: a register (`incn`, `swapn`, `rlcn`, ...) or
      the cell at HL (`inchl`, `swaphl`, `rlchl`, ...). */
  datatype Cell = RegCell(r: Reg) | HlCell

  /** Reads the operand; `Next` first advances PC. */
  function Fetch(m: Machine, o: Operand): (Machine, int)
  {
    match o
    case Reg8(k) => (m, m.r.Get(k))
    case AtHl => (m, Peek(m, Hl(m)))
    case Next => var m1 := IncPc(m); (m1, Peek(m1, m1.r.Get(PC)))
  }

  function Get(m: Machine, c: Cell): int
  {
    match c
    case RegCell(k) => m.r.Get(k)
    case HlCell => Peek(m, Hl(m))
  }

  function Put(m: Machine, c: Cell, v: int): Machine
  {
    match c
    case RegCell(k) => SetReg(m, k, v)
    case HlCell => Poke(m, Hl(m), v)
  }

  /** The half-carry test of the add methods as Python parses it:
      `a & 0x0F + v & 0x0F` is `a & (0x0F + v) & 0x0F`. */
  function AddHalf(a: int, v: int): int
  {
    Truth(And(And(And(a, 0x0F + v), 0x0F), 0x10) != 0)
  }

  /** The half-carry test of the subtract and compare methods, parsed the
      same way: `a & (0x0F - v) & 0x0F`. */
  function SubHalf(a: int, v: int): int
  {
    Truth(And(And(And(a, 0x0F - v), 0x0F), 0x10) != 0)
  }

  /** The half-carry test of the add-with-carry methods, parsed as
      `a & (0x0F + v) & (0x0F + c) & 0x10`. */
  function AdcHalf(a: int, v: int, c: int): int
  {
    Truth(And(And(And(a, 0x0F + v), 0x0F + c), 0x10) != 0)
  }

  /** The half-carry test of the subtract-with-carry methods:
      `a & 0x0F - (v & 0x0F + c)` is `a & (0x0F - (v & (0x0F + c)))`. */
  function SbcHalf(a: int, v: int, c: int): int
  {
    Truth(And(And(a, 0x0F - And(v, 0x0F + c)), 0x10) != 0)
  }

  /** The Z value `0 if x == 0 else 0` that several arithmetic methods
      write: zero either way. */
  function ZeroQuirk(x: int): int
  {
    if x == 0 then 0 else 0
  }

  /** `addan`, `addahl`, `addanext`: Z is computed only by `addan`; the
      other two write `0 if a == 0 else 0`. */
  function Add(m: Machine, o: Operand): Machine
  {
    var (m1, v) := Fetch(m, o);
    var a := m1.r.Get(A);
    var sum := a + v;
    var z := if o.Reg8? then Truth(sum == 0) else ZeroQuirk(sum);
    SetFlags(SetReg(m1, A, sum), z, 0, AddHalf(a, v), Truth(sum > 0xFFFF))
  }

  /** `adcan`, `adcahl`, `adcanext`. */
  function Adc(m: Machine, o: Operand): Machine
  {
    var (m1, v) := Fetch(m, o);
    var a := m1.r.Get(A);
    var c := m1.flag.Get(Carry);
    var sum := a + (v + c);
    SetFlags(SetReg(m1, A, sum), ZeroQuirk(sum), 0, AdcHalf(a, v, c), Truth(sum > 0xFFFF))
  }

  /** `subn`, `subhl`, `subnext`. */
  function Sub(m: Machine, o: Operand): Machine
  {
    var (m1, v) := Fetch(m, o);
    var a := m1.r.Get(A);
    var diff := a - v;
    SetFlags(SetReg(m1, A, diff), ZeroQuirk(diff), 0, SubHalf(a, v), Truth(diff > 0xFFFF))
  }

  /** `sbcan`, `sbcahl`, `sbcanext`. */
  function Sbc(m: Machine, o: Operand): Machine
  {
    var (m1, v) := Fetch(m, o);
    var a := m1.r.Get(A);
    var c := m1.flag.Get(Carry);
    var diff := a - (v + c);
    SetFlags(SetReg(m1, A, diff), ZeroQuirk(diff), 0, SbcHalf(a, v, c), Truth(diff > 0xFFFF))
  }

  /** `andn`, `andhl`, `andnext`. */
  function AndA(m: Machine, o: Operand): Machine
  {
    var (m1, v) := Fetch(m, o);
    var a := And(m1.r.Get(A), v);
    SetFlags(SetReg(m1, A, a), Truth(a == 0), 0, 1, 0)
  }

  /** `orn` ORs, but `orhl` ANDs and `ornext` XORs. */
  function OrA(m: Machine, o: Operand): Machine
  {
    var (m1, v) := Fetch(m, o);
    var a := match o
      case Reg8(_) => Or(m1.r.Get(A), v)
      case AtHl => And(m1.r.Get(A), v)
      case Next => Xor(m1.r.Get(A), v);
    SetFlags(SetReg(m1, A, a), Truth(a == 0), 0, 0, 0)
  }

  /** `xorhl` and `xornext` XOR, but `xorn` ORs. */
  function XorA(m: Machine, o: Operand): Machine
  {
    var (m1, v) := Fetch(m, o);
    var a := if o.Reg8? then Or(m1.r.Get(A), v) else Xor(m1.r.Get(A), v);
    SetFlags(SetReg(m1, A, a), Truth(a == 0), 0, 0, 0)
  }

  /** `cpn`, `cphl`, `cpnext`: the difference is discarded. */
  function Cp(m: Machine, o: Operand): Machine
  {
    var (m1, v) := Fetch(m, o);
    var a := m1.r.Get(A);
    var discard := a - v;
    SetFlags(m1, ZeroQuirk(discard), 0, SubHalf(a, v), Truth(discard > 0xFFFF))
  }

  /** Z, N and H as the increment and decrement methods set them: Z is
      `1 if value == 0 else 1`, H is bit 4 of the new value. */
  function StepFlags(m: Machine, value: int): Machine
  {
    var m1 := SetFlag(m, Zero, if value == 0 then 1 else 1);
    var m2 := SetFlag(m1, Subtract, 0);
    SetFlag(m2, HalfCarry, Truth(And(value, 0x10) != 0))
  }

  /** `incn`, `inchl`. */
  function Inc(m: Machine, c: Cell): Machine
  {
    var value := Get(m, c) + 1;
    Put(StepFlags(m, value), c, value)
  }

  /** `decn`, `dechl`. */
  function Dec(m: Machine, c: Cell): Machine
  {
    var value := Get(m, c) - 1;
    Put(StepFlags(m, value), c, value)
  }

  // ---------------------------------------------------------------------
  // 16-bit arithmetic (pythongb/cpu.py:590-662)

  /** The 16-bit half-carry test, `x & 0x0FFF + v & 0x0FFF` parsed as
      `x & (0x0FFF + v) & 0x0FFF`. */
  function WideHalf(x: int, v: int): int
  {
    Truth(And(And(And(x, 0x0FFF + v), 0x0FFF), 0x1000) != 0)
  }

  /** H, N and C as the 16-bit adds set them; Z is left alone. */
  function WideFlags(m: Machine, h: int, result: int): Machine
  {
    var m1 := SetFlag(m, HalfCarry, h);
    var m2 := SetFlag(m1, Subtract, 0);
    SetFlag(m2, Carry, Truth(result > 0xFFFF))
  }

  function Addhln(m: Machine, a: Reg, b: Reg): Machine
  {
    var value := Pair(m, a, b);
    var hl := Hl(m);
    var final := value + hl;
    var m1 := WideFlags(m, WideHalf(hl, value), final);
    SetReg(SetReg(m1, H, Shr(final, 8)), L, And(final, 0x00FF))
  }

  function Addhlsp(m: Machine): Machine
  {
    var hl := Hl(m);
    var final := m.r.Get(SP) + hl;
    var m1 := WideFlags(m, WideHalf(hl, m.r.Get(SP)), final);
    SetReg(SetReg(m1, H, Shr(final, 8)), L, And(final, 0x00FF))
  }

  function Addspn(m: Machine): Machine
  {
    var m1 := IncPc(m);
    var value := Peek(m1, m1.r.Get(PC));
    var h := WideHalf(m1.r.Get(SP), value);
    var sp := m1.r.Get(SP) + value;
    WideFlags(SetReg(m1, SP, sp), h, sp)
  }

  function Incnn(m: Machine, a: Reg, b: Reg): Machine
  {
    var final := Pair(m, a, b) + 1;
    SetReg(SetReg(m, a, Shr(final, 8)), b, And(final, 0x00FF))
  }

  function Incsp(m: Machine): Machine
  {
    SetReg(m, SP, m.r.Get(SP) + 1)
  }

  function Decnn(m: Machine, a: Reg, b: Reg): Machine
  {
    var final := Pair(m, a, b) - 1;
    SetReg(SetReg(m, a, Shr(final, 8)), b, And(final, 0x00FF))
  }

  function Decsp(m: Machine): Machine
  {
    SetReg(m, SP, m.r.Get(SP) - 1)
  }

  // ---------------------------------------------------------------------
  // Miscellaneous (pythongb/cpu.py:663-715)

  /** `(v & 0x0F) << 4 | v >> 4`. */
  function Swapped(v: int): int
  {
    Or(Shl(And(v, 0x0F), 4), Shr(v, 4))
  }

  /** `swapn`, `swaphl`: no flag is touched. */
  function Swap(m: Machine, c: Cell): Machine
  {
    Put(m, c, Swapped(Get(m, c)))
  }

  function Cpl(m: Machine): Machine
  {
    var m1 := SetReg(m, A, Xor(m.r.Get(A), 0xFF));
    SetFlag(SetFlag(m1, Subtract, 1), HalfCarry, 1)
  }

  function Ccf(m: Machine): Machine
  {
    SetFlag(m, Carry, Xor(m.flag.Get(Carry), 1))
  }

  function Scf(m: Machine): Machine
  {
    SetFlag(m, Carry, 1)
  }

  function Di(m: Machine): Machine
  {
    SetReg(m, IME, 0)
  }

  function Ei(m: Machine): Machine
  {
    SetReg(m, IME, 1)
  }

  // ---------------------------------------------------------------------
  // Rotates and shifts (pythongb/cpu.py:717-963)

  /** The seven rotate/shift families.  `rlca`, `rla`, `rrca` and `rra` have
      the bodies of `rlcn`, `rln`, `rrcn` and `rrn` on register a. */
  datatype ShiftKind = Rlc | Rl | Rrc | Rr | Sla | Sra | Srl

  /** The new value.  `rrn`/`rrhl`/`rra` shift LEFT, as `rln` does. */
  function Shifted(s: ShiftKind, v: int): int
  {
    match s
    case Rlc => SetBit(Shl(v, 1), 0, And(v, 0x80))
    case Rl => Shl(v, 1)
    case Rrc => SetBit(Shr(v, 1), 7, And(v, 0x01))
    case Rr => Shl(v, 1)
    case Sla => SetBit(Shl(v, 1), 0, 0)
    case Sra => SetBit(Shr(v, 1), 7, Shr(And(v, 0x80), 7))
    case Srl => SetBit(Shr(v, 1), 7, 0)
  }

  /** The new C flag: `v & 0x80` (0 or 128) for the left ones, `v & 0x01`
      for the right ones. */
  function ShiftCarry(s: ShiftKind, v: int): int
  {
    match s
    case Rlc | Rl | Sla => And(v, 0x80)
    case Rrc | Rr | Sra | Srl => And(v, 0x01)
  }

  function Shift(m: Machine, s: ShiftKind, c: Cell): Machine
  {
    var v := Get(m, c);
    var w := Shifted(s, v);
    Put(SetFlags(m, Truth(w == 0), 0, 0, ShiftCarry(s, v)), c, w)
  }

  // ---------------------------------------------------------------------
  // Bit tests (pythongb/cpu.py:965-983)

  /** `bitbr`: tests bit `b - 1`, sets Z only when that bit is 0.  A bit
      number of 0 makes Python's shift fail, hence `b >= 1`. */
  function Bitbr(m: Machine, b: int, r: Reg): Machine
    requires b >= 1
  {
    var bit := And(Shr(m.r.Get(r), b - 1), 0x01);
    var m1 := if bit == 0 then SetFlag(m, Zero, 1) else m;
    SetFlag(SetFlag(m1, Subtract, 0), HalfCarry, 1)
  }

  function Setbr(m: Machine, b: nat, r: Reg): Machine
  {
    SetReg(m, r, SetBit(m.r.Get(r), b, 1))
  }

  function Resbr(m: Machine, b: nat, r: Reg): Machine
  {
    SetReg(m, r, SetBit(m.r.Get(r), b, 0))
  }

  // ---------------------------------------------------------------------
  // Jumps, calls, restarts and returns (pythongb/cpu.py:985-1231)

  /** The condition of a conditional jump, call or return: flag `f` equals
      `value` (`jpnznn` is `When(Zero, 0)`, `jpcnn` is `When(Carry, 1)`). */
  datatype Cond = When(f: Flag, value: int)

  predicate Holds(m: Machine, cond: Cond)
  {
    m.flag.Get(cond.f) == cond.value
  }

  /** `jpnn`: big-endian, `n1 << 8 | n2`. */
  function Jpnn(m: Machine): Machine
  {
    var m1 := IncPc(m);
    var n1 := Peek(m1, m1.r.Get(PC));
    var m2 := IncPc(m1);
    var n2 := Peek(m2, m2.r.Get(PC));
    SetReg(m2, PC, Or(Shl(n1, 8), n2))
  }

  /** `jpnznn`, `jpznn`, `jpncnn`, `jpcnn`. */
  function Jpcc(m: Machine, cond: Cond): Machine
  {
    var m1 := IncPc(m);
    var n1 := Peek(m1, m1.r.Get(PC));
    var m2 := IncPc(m1);
    var n2 := Peek(m2, m2.r.Get(PC));
    if Holds(m2, cond) then SetReg(m2, PC, Or(Shl(n1, 8), n2)) else m2
  }

  function Jphl(m: Machine): Machine
  {
    SetReg(m, PC, Or(Shl(m.r.Get(H), 8), m.r.Get(L)))
  }

  function Jrn(m: Machine): Machine
  {
    var curr := m.r.Get(PC);
    var m1 := IncPc(m);
    var n := Peek(m1, m1.r.Get(PC));
    SetReg(m1, PC, curr + n)
  }

  /** `jrnzn`, `jrzn`, `jrncn`, `jrcn`. */
  function Jrcc(m: Machine, cond: Cond): Machine
  {
    var m1 := IncPc(m);
    if Holds(m1, cond) then
      var n := Peek(m1, m1.r.Get(PC));
      SetReg(m1, PC, m1.r.Get(PC) + (n - 1))
    else m1
  }

  /** `callnn`: pushes PC first, then reads the target little-endian. */
  function Callnn(m: Machine): Machine
  {
    var m1 := PushPc(m);
    var m2 := IncPc(m1);
    var low := Peek(m2, m2.r.Get(PC));
    var m3 := IncPc(m2);
    var high := Peek(m3, m3.r.Get(PC));
    SetReg(m3, PC, Or(Shl(high, 8), low))
  }

  /** `callnznn`, `callznn`, `callncnn`, `callcnn`: the taken branch is the
      body of `callnn`. */
  function Callcc(m: Machine, cond: Cond): Machine
  {
    if Holds(m, cond) then Callnn(m) else IncPc(IncPc(m))
  }

  function Rstn(m: Machine, n: int): Machine
  {
    SetReg(PushPc(m), PC, 0x0000 + n)
  }

  function Ret(m: Machine): Machine
  {
    var low := Peek(m, m.r.Get(SP));
    var m1 := AddSp(m, 1);
    var high := Peek(m1, m1.r.Get(SP));
    var m2 := AddSp(m1, 1);
    SetReg(m2, PC, Or(Shl(high, 8), low))
  }

  /** `retnz`, `retz`, `retnc`, `retc`: the taken branch is the body of
      `ret`. */
  function Retcc(m: Machine, cond: Cond): Machine
  {
    if Holds(m, cond) then Ret(m) else m
  }

  function Reti(m: Machine): Machine
  {
    SetReg(Ret(m), IME, 1)
  }
}
