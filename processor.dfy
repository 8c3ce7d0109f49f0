/** The `CPU` class of pythongb/cpu.py as an object: the register and flag
    dictionaries are fields the opcode methods reassign entry by entry, and
    the memory is an array of 0x10000 cells the methods write in place.
    Every method is proved to leave the object in the state the matching
    function of module Semantics computes from the state before the call,
    so the lemmas of modules CpuProperties and Decode apply to it. */
module Processor {
  import opened Bits
  import S = Semantics
  import D = Decode

  class CPU {
    /** `self.r`. */
    var r: S.Registers
    /** `self.flag`. */
    var flag: S.Flags
    /** The cells `self.memory.read` and `self.memory.write` reach. */
    const memory: array<int>

    ghost predicate Valid()
    {
      memory.Length == S.MemSize
    }

    /** The value snapshot the functions of module Semantics work on. */
    ghost function State(): S.Machine
      reads this, memory
      requires Valid()
    {
      S.Machine(r, flag, memory[..])
    }

    /** `__init__` (pythongb/cpu.py:18-40), over a zeroed memory. */
    constructor ()
      ensures Valid() && fresh(memory)
      ensures State() == S.PowerOn()
    {
      r := S.Registers(0, 0, 0, 0, 0, 0, 0, 0, 0x100, 0xFFFE, 1);
      flag := S.Flags(0, 0, 0, 0);
      memory := new int[S.MemSize](_ => 0);
    }

    // -------------------------------------------------------------------
    // Helpers (pythongb/cpu.py:42-78)

    /** `self.memory.read(addr)`. */
    function Read(addr: int): (v: int)
      reads this, memory
      requires Valid()
      ensures v == S.Peek(State(), addr)
    {
      if 0 <= addr < memory.Length then memory[addr] else 0
    }

    /** `self.memory.write(addr, v)`. */
    method Write(addr: int, v: int)
      requires Valid()
      modifies memory
      ensures State() == S.Poke(old(State()), addr, v)
    {
      if 0 <= addr < memory.Length {
        memory[addr] := v;
      }
    }

    /** `getHL`: with a byte in L, the 16-bit number `H * 256 + L`. */
    function GetHL(): (v: int)
      reads this
      ensures 0 <= r.Get(S.L) < 256 ==> v == r.Get(S.H) * 256 + r.Get(S.L)
    {
      assert Pow2(8) == 256;
      if 0 <= r.l < 256 then
        OrShlLow(r.h, 8, r.l);
        Or(Shl(r.h, 8), r.l)
      else
        Or(Shl(r.h, 8), r.l)
    }

    /** `getAB(a, b)`: with a byte in `b`, the 16-bit number `a * 256 + b`. */
    function GetAB(a: S.Reg, b: S.Reg): (v: int)
      reads this
      ensures 0 <= r.Get(b) < 256 ==> v == r.Get(a) * 256 + r.Get(b)
    {
      assert Pow2(8) == 256;
      if 0 <= r.Get(b) < 256 then
        OrShlLow(r.Get(a), 8, r.Get(b));
        Or(Shl(r.Get(a), 8), r.Get(b))
      else
        Or(Shl(r.Get(a), 8), r.Get(b))
    }

    /** `incPC`. */
    method IncPc()
      requires Valid()
      modifies this
      ensures State() == S.IncPc(old(State()))
    {
      r := r.Set(S.PC, r.Get(S.PC) + 1);
    }

    /** `addSP(value)`. */
    method AddSp(value: int)
      requires Valid()
      modifies this
      ensures State() == S.AddSp(old(State()), value)
    {
      r := r.Set(S.SP, r.Get(S.SP) + value);
    }

    /** `addAB(a, b, value)`. */
    method AddAB(a: S.Reg, b: S.Reg, value: int)
      requires Valid()
      modifies this
      ensures State() == S.AddPair(old(State()), a, b, value)
    {
      var val := GetAB(a, b) + value;
      r := r.Set(a, Shr(val, 8));
      r := r.Set(b, And(0x00FF, val));
    }

    /** `pushpc`. */
    method PushPc()
      requires Valid()
      modifies this, memory
      ensures State() == S.PushPc(old(State()))
    {
      AddSp(-1);
      Write(r.Get(S.SP), Shr(r.Get(S.PC), 8));
      AddSp(-1);
      Write(r.Get(S.SP), And(r.Get(S.PC), 0x00FF));
    }

    // -------------------------------------------------------------------
    // 8-bit loads (pythongb/cpu.py:82-195)

    method Ldnnn(nn: S.Reg)
      requires Valid()
      modifies this
      ensures State() == S.Ldnnn(old(State()), nn)
    {
      IncPc();
      var n := Read(r.Get(S.PC));
      r := r.Set(nn, n);
    }

    method Ldr1r2(r1: S.Reg, r2: S.Reg)
      requires Valid()
      modifies this
      ensures State() == S.Ldr1r2(old(State()), r1, r2)
    {
      r := r.Set(r1, r.Get(r2));
    }

    method Ldr1hl(r1: S.Reg)
      requires Valid()
      modifies this
      ensures State() == S.Ldr1hl(old(State()), r1)
    {
      r := r.Set(r1, Read(GetHL()));
    }

    method Ldhlr2(r2: S.Reg)
      requires Valid()
      modifies memory
      ensures State() == S.Ldhlr2(old(State()), r2)
    {
      Write(GetHL(), r.Get(r2));
    }

    method Ldhln()
      requires Valid()
      modifies this, memory
      ensures State() == S.Ldhln(old(State()))
    {
      IncPc();
      var n := Read(r.Get(S.PC));
      Write(GetHL(), n);
    }

    method Ldan(n: S.Reg)
      requires Valid()
      modifies this
      ensures State() == S.Ldan(old(State()), n)
    {
      r := r.Set(S.A, r.Get(n));
    }

    method Ldab(a: S.Reg, b: S.Reg)
      requires Valid()
      modifies this
      ensures State() == S.Ldab(old(State()), a, b)
    {
      r := r.Set(S.A, Read(GetAB(a, b)));
    }

    method Ldann()
      requires Valid()
      modifies this
      ensures State() == S.Ldann(old(State()))
    {
      IncPc();
      var n1 := Read(r.Get(S.PC));
      IncPc();
      var n2 := Read(r.Get(S.PC));
      r := r.Set(S.A, Read(Or(Shl(n2, 8), n1)));
    }

    method Ldae()
      requires Valid()
      modifies this
      ensures State() == S.Ldae(old(State()))
    {
      IncPc();
      var e := Read(r.Get(S.PC));
      r := r.Set(S.A, e);
    }

    method Ldna(n: S.Reg)
      requires Valid()
      modifies this
      ensures State() == S.Ldna(old(State()), n)
    {
      r := r.Set(n, r.Get(S.A));
    }

    method Ldaba(a: S.Reg, b: S.Reg)
      requires Valid()
      modifies memory
      ensures State() == S.Ldaba(old(State()), a, b)
    {
      Write(GetAB(a, b), r.Get(S.A));
    }

    method Ldnna()
      requires Valid()
      modifies this, memory
      ensures State() == S.Ldnna(old(State()))
    {
      IncPc();
      var n1 := Read(r.Get(S.PC));
      IncPc();
      var n2 := Read(r.Get(S.PC));
      var nn := Or(Shl(n1, 8), n2);
      Write(nn, r.Get(S.A));
    }

    method Ldac()
      requires Valid()
      modifies this
      ensures State() == S.Ldac(old(State()))
    {
      r := r.Set(S.A, Read(0xFF00 + r.Get(S.C)));
    }

    method Ldca()
      requires Valid()
      modifies memory
      ensures State() == S.Ldca(old(State()))
    {
      Write(0xFF00 + r.Get(S.C), r.Get(S.A));
    }

    method Lddahl()
      requires Valid()
      modifies this
      ensures State() == S.Lddahl(old(State()))
    {
      r := r.Set(S.A, Read(GetHL()));
      AddAB(S.H, S.L, -1);
    }

    method Lddhla()
      requires Valid()
      modifies this, memory
      ensures State() == S.Lddhla(old(State()))
    {
      Write(GetHL(), r.Get(S.A));
      AddAB(S.H, S.L, -1);
    }

    method Ldiahl()
      requires Valid()
      modifies this
      ensures State() == S.Ldiahl(old(State()))
    {
      r := r.Set(S.A, Read(GetHL()));
      AddAB(S.H, S.L, 1);
    }

    method Ldihla()
      requires Valid()
      modifies this, memory
      ensures State() == S.Ldihla(old(State()))
    {
      Write(GetHL(), r.Get(S.A));
      AddAB(S.H, S.L, 1);
    }

    method Ldhna()
      requires Valid()
      modifies this, memory
      ensures State() == S.Ldhna(old(State()))
    {
      IncPc();
      var address := 0xFF00 + Read(r.Get(S.PC));
      Write(address, r.Get(S.A));
    }

    /** `ldhan` stores A like `ldhna`. */
    method Ldhan()
      requires Valid()
      modifies this, memory
      ensures State() == S.Ldhan(old(State()))
    {
      IncPc();
      var address := 0xFF00 + Read(r.Get(S.PC));
      Write(address, r.Get(S.A));
    }

    // -------------------------------------------------------------------
    // 16-bit loads, push and pop (pythongb/cpu.py:197-245)

    method Ldnnn16(a: S.Reg, b: S.Reg)
      requires Valid()
      modifies this
      ensures State() == S.Ldnnn16(old(State()), a, b)
    {
      IncPc();
      var n1 := Read(r.Get(S.PC));
      IncPc();
      var n2 := Read(r.Get(S.PC));
      r := r.Set(a, n2);
      r := r.Set(b, n1);
    }

    method Ldsphl()
      requires Valid()
      modifies this
      ensures State() == S.Ldsphl(old(State()))
    {
      r := r.Set(S.SP, Or(Shl(r.Get(S.H), 8), r.Get(S.L)));
    }

    method Ldhlspn()
      requires Valid()
      modifies this
      ensures State() == S.Ldhlspn(old(State()))
    {
      IncPc();
      var n := Read(r.Get(S.PC));
      var temp := r.Get(S.SP) + n;
      r := r.Set(S.H, Shr(temp, 8));
      r := r.Set(S.L, And(temp, 0x00FF));
    }

    method Ldnnsp()
      requires Valid()
      modifies this, memory
      ensures State() == S.Ldnnsp(old(State()))
    {
      IncPc();
      Write(r.Get(S.PC), And(r.Get(S.SP), 0x00FF));
      IncPc();
      Write(r.Get(S.PC), Shr(r.Get(S.SP), 8));
    }

    method Pushnn(a: S.Reg, b: S.Reg)
      requires Valid()
      modifies this, memory
      ensures State() == S.Pushnn(old(State()), a, b)
    {
      AddSp(-1);
      Write(r.Get(S.SP), r.Get(a));
      AddSp(-1);
      Write(r.Get(S.SP), r.Get(b));
    }

    method Popnn(a: S.Reg, b: S.Reg)
      requires Valid()
      modifies this
      ensures State() == S.Popnn(old(State()), a, b)
    {
      r := r.Set(b, Read(r.Get(S.SP)));
      AddSp(1);
      r := r.Set(a, Read(r.Get(S.SP)));
      AddSp(1);
    }

    // -------------------------------------------------------------------
    // 8-bit arithmetic and logic (pythongb/cpu.py:247-589)

    /** The second operand of an ALU method; `Next` first steps PC, as the
        `...next` methods do. */
    method Fetch(o: S.Operand) returns (value: int)
      requires Valid()
      modifies this
      ensures (State(), value) == S.Fetch(old(State()), o)
    {
      match o
      case Reg8(k) => value := r.Get(k);
      case AtHl => value := Read(Or(Shl(r.Get(S.H), 8), r.Get(S.L)));
      case Next =>
        IncPc();
        value := Read(r.Get(S.PC));
    }

    /** `addan`, `addahl`, `addanext`. */
    method Add(o: S.Operand)
      requires Valid()
      modifies this
      ensures State() == S.Add(old(State()), o)
    {
      ghost var m := State();
      var value := Fetch(o);
      ghost var m1 := State();
      assert (m1, value) == S.Fetch(m, o);
      var h := S.AddHalf(r.Get(S.A), value);
      r := r.Set(S.A, r.Get(S.A) + value);
      var z := if o.Reg8? then (if r.Get(S.A) == 0 then 1 else 0)
               else S.ZeroQuirk(r.Get(S.A));
      SetFlags(z, 0, h, if r.Get(S.A) > 0xFFFF then 1 else 0);
    }

    /** `adcan`, `adcahl`, `adcanext`. */
    method Adc(o: S.Operand)
      requires Valid()
      modifies this
      ensures State() == S.Adc(old(State()), o)
    {
      ghost var m := State();
      var value := Fetch(o);
      ghost var m1 := State();
      assert (m1, value) == S.Fetch(m, o);
      var c := flag.Get(S.Carry);
      var h := S.AdcHalf(r.Get(S.A), value, c);
      var sum := r.Get(S.A) + (value + c);
      assert S.Adc(m, o) == S.SetFlags(S.SetReg(m1, S.A, sum), S.ZeroQuirk(sum), 0, h, S.Truth(sum > 0xFFFF));
      r := r.Set(S.A, sum);
      SetFlags(S.ZeroQuirk(sum), 0, h, S.Truth(sum > 0xFFFF));
    }

    /** `subn`, `subhl`, `subnext`. */
    method Sub(o: S.Operand)
      requires Valid()
      modifies this
      ensures State() == S.Sub(old(State()), o)
    {
      ghost var m := State();
      var value := Fetch(o);
      ghost var m1 := State();
      assert (m1, value) == S.Fetch(m, o);
      var h := S.SubHalf(r.Get(S.A), value);
      r := r.Set(S.A, r.Get(S.A) - value);
      SetFlags(S.ZeroQuirk(r.Get(S.A)), 0, h, if r.Get(S.A) > 0xFFFF then 1 else 0);
    }

    /** `sbcan`, `sbcahl`, `sbcanext`. */
    method Sbc(o: S.Operand)
      requires Valid()
      modifies this
      ensures State() == S.Sbc(old(State()), o)
    {
      ghost var m := State();
      var value := Fetch(o);
      ghost var m1 := State();
      assert (m1, value) == S.Fetch(m, o);
      var c := flag.Get(S.Carry);
      var h := S.SbcHalf(r.Get(S.A), value, c);
      var diff := r.Get(S.A) - (value + c);
      assert S.Sbc(m, o) == S.SetFlags(S.SetReg(m1, S.A, diff), S.ZeroQuirk(diff), 0, h, S.Truth(diff > 0xFFFF));
      r := r.Set(S.A, diff);
      SetFlags(S.ZeroQuirk(diff), 0, h, S.Truth(diff > 0xFFFF));
    }

    /** `andn`, `andhl`, `andnext`. */
    method AndA(o: S.Operand)
      requires Valid()
      modifies this
      ensures State() == S.AndA(old(State()), o)
    {
      ghost var m := State();
      var value := Fetch(o);
      ghost var m1 := State();
      assert (m1, value) == S.Fetch(m, o);
      r := r.Set(S.A, And(r.Get(S.A), value));
      SetLogicFlags(1);
    }

    /** `orn` ORs, `orhl` ANDs and `ornext` XORs. */
    method OrA(o: S.Operand)
      requires Valid()
      modifies this
      ensures State() == S.OrA(old(State()), o)
    {
      ghost var m := State();
      var value := Fetch(o);
      ghost var m1 := State();
      assert (m1, value) == S.Fetch(m, o);
      match o {
        case Reg8(_) => r := r.Set(S.A, Or(r.Get(S.A), value));
        case AtHl => r := r.Set(S.A, And(r.Get(S.A), value));
        case Next => r := r.Set(S.A, Xor(r.Get(S.A), value));
      }
      SetLogicFlags(0);
    }

    /** `xorn` ORs; `xorhl` and `xornext` XOR. */
    method XorA(o: S.Operand)
      requires Valid()
      modifies this
      ensures State() == S.XorA(old(State()), o)
    {
      ghost var m := State();
      var value := Fetch(o);
      ghost var m1 := State();
      assert (m1, value) == S.Fetch(m, o);
      if o.Reg8? {
        r := r.Set(S.A, Or(r.Get(S.A), value));
      } else {
        r := r.Set(S.A, Xor(r.Get(S.A), value));
      }
      SetLogicFlags(0);
    }

    /** Writes z, n, h and c. */
    method SetFlags(z: int, n: int, h: int, c: int)
      requires Valid()
      modifies this
      ensures State() == S.SetFlags(old(State()), z, n, h, c)
    {
      flag := flag.Set(S.Zero, z);
      flag := flag.Set(S.Subtract, n);
      flag := flag.Set(S.HalfCarry, h);
      flag := flag.Set(S.Carry, c);
    }

    /** The flag tail of the AND, OR and XOR methods. */
    method SetLogicFlags(h: int)
      requires Valid()
      modifies this
      ensures State() == S.SetFlags(old(State()), if r.Get(S.A) == 0 then 1 else 0, 0, h, 0)
    {
      SetFlags(if r.Get(S.A) == 0 then 1 else 0, 0, h, 0);
    }

    /** `cpn`, `cphl`, `cpnext`. */
    method Cp(o: S.Operand)
      requires Valid()
      modifies this
      ensures State() == S.Cp(old(State()), o)
    {
      ghost var m := State();
      var value := Fetch(o);
      ghost var m1 := State();
      assert (m1, value) == S.Fetch(m, o);
      var h := S.SubHalf(r.Get(S.A), value);
      var discard := r.Get(S.A) - value;
      SetFlags(S.ZeroQuirk(discard), 0, h, if discard > 0xFFFF then 1 else 0);
    }

    /** The value of a read-modify-write target. */
    function Get(c: S.Cell): (v: int)
      reads this, memory
      requires Valid()
      ensures v == S.Get(State(), c)
    {
      match c
      case RegCell(k) => r.Get(k)
      case HlCell => Read(Or(Shl(r.Get(S.H), 8), r.Get(S.L)))
    }

    /** Stores into a read-modify-write target. */
    method Put(c: S.Cell, v: int)
      requires Valid()
      modifies this, memory
      ensures State() == S.Put(old(State()), c, v)
    {
      match c
      case RegCell(k) => r := r.Set(k, v);
      case HlCell => Write(Or(Shl(r.Get(S.H), 8), r.Get(S.L)), v);
    }

    /** `incn`, `inchl`. */
    method Inc(c: S.Cell)
      requires Valid()
      modifies this, memory
      ensures State() == S.Inc(old(State()), c)
    {
      var value := Get(c) + 1;
      StepFlags(value);
      Put(c, value);
    }

    /** `decn`, `dechl`. */
    method Dec(c: S.Cell)
      requires Valid()
      modifies this, memory
      ensures State() == S.Dec(old(State()), c)
    {
      var value := Get(c) - 1;
      StepFlags(value);
      Put(c, value);
    }

    /** The flags of the increments and decrements. */
    method StepFlags(value: int)
      requires Valid()
      modifies this
      ensures State() == S.StepFlags(old(State()), value)
    {
      flag := flag.Set(S.Zero, if value == 0 then 1 else 1);
      flag := flag.Set(S.Subtract, 0);
      flag := flag.Set(S.HalfCarry, if And(value, 0x10) != 0 then 1 else 0);
    }

    // -------------------------------------------------------------------
    // 16-bit arithmetic (pythongb/cpu.py:590-662)

    method Addhln(a: S.Reg, b: S.Reg)
      requires Valid()
      modifies this
      ensures State() == S.Addhln(old(State()), a, b)
    {
      var value := Or(Shl(r.Get(a), 8), r.Get(b));
      var hl := Or(Shl(r.Get(S.H), 8), r.Get(S.L));
      var final := value + hl;
      WideFlags(S.WideHalf(hl, value), final);
      r := r.Set(S.H, Shr(final, 8));
      r := r.Set(S.L, And(final, 0x00FF));
    }

    method Addhlsp()
      requires Valid()
      modifies this
      ensures State() == S.Addhlsp(old(State()))
    {
      var hl := Or(Shl(r.Get(S.H), 8), r.Get(S.L));
      var final := r.Get(S.SP) + hl;
      WideFlags(S.WideHalf(hl, r.Get(S.SP)), final);
      r := r.Set(S.H, Shr(final, 8));
      r := r.Set(S.L, And(final, 0x00FF));
    }

    method Addspn()
      requires Valid()
      modifies this
      ensures State() == S.Addspn(old(State()))
    {
      IncPc();
      var value := Read(r.Get(S.PC));
      var h := S.WideHalf(r.Get(S.SP), value);
      r := r.Set(S.SP, r.Get(S.SP) + value);
      WideFlags(h, r.Get(S.SP));
    }

    /** H, N and C of the 16-bit adds. */
    method WideFlags(h: int, result: int)
      requires Valid()
      modifies this
      ensures State() == S.WideFlags(old(State()), h, result)
    {
      flag := flag.Set(S.HalfCarry, h);
      flag := flag.Set(S.Subtract, 0);
      flag := flag.Set(S.Carry, if result > 0xFFFF then 1 else 0);
    }

    method Incnn(a: S.Reg, b: S.Reg)
      requires Valid()
      modifies this
      ensures State() == S.Incnn(old(State()), a, b)
    {
      var final := Or(Shl(r.Get(a), 8), r.Get(b)) + 1;
      r := r.Set(a, Shr(final, 8));
      r := r.Set(b, And(final, 0x00FF));
    }

    method Incsp()
      requires Valid()
      modifies this
      ensures State() == S.Incsp(old(State()))
    {
      r := r.Set(S.SP, r.Get(S.SP) + 1);
    }

    method Decnn(a: S.Reg, b: S.Reg)
      requires Valid()
      modifies this
      ensures State() == S.Decnn(old(State()), a, b)
    {
      var final := Or(Shl(r.Get(a), 8), r.Get(b)) - 1;
      r := r.Set(a, Shr(final, 8));
      r := r.Set(b, And(final, 0x00FF));
    }

    method Decsp()
      requires Valid()
      modifies this
      ensures State() == S.Decsp(old(State()))
    {
      r := r.Set(S.SP, r.Get(S.SP) - 1);
    }

    // -------------------------------------------------------------------
    // Miscellaneous (pythongb/cpu.py:663-715)

    /** `swapn`, `swaphl`. */
    method Swap(c: S.Cell)
      requires Valid()
      modifies this, memory
      ensures State() == S.Swap(old(State()), c)
    {
      var value := Get(c);
      Put(c, Or(Shl(And(value, 0x0F), 4), Shr(value, 4)));
    }

    method Cpl()
      requires Valid()
      modifies this
      ensures State() == S.Cpl(old(State()))
    {
      r := r.Set(S.A, Xor(r.Get(S.A), 0xFF));
      flag := flag.Set(S.Subtract, 1);
      flag := flag.Set(S.HalfCarry, 1);
    }

    method Ccf()
      requires Valid()
      modifies this
      ensures State() == S.Ccf(old(State()))
    {
      flag := flag.Set(S.Carry, Xor(flag.Get(S.Carry), 1));
    }

    method Scf()
      requires Valid()
      modifies this
      ensures State() == S.Scf(old(State()))
    {
      flag := flag.Set(S.Carry, 1);
    }

    method Di()
      requires Valid()
      modifies this
      ensures State() == S.Di(old(State()))
    {
      r := r.Set(S.IME, 0);
    }

    method Ei()
      requires Valid()
      modifies this
      ensures State() == S.Ei(old(State()))
    {
      r := r.Set(S.IME, 1);
    }

    // -------------------------------------------------------------------
    // Rotates and shifts (pythongb/cpu.py:717-963)

    /** `rlca`, `rla`, `rrca`, `rra` (target register a), `rlcn`, `rln`,
        `rrcn`, `rrn`, `slan`, `sran`, `srln` and their `...hl` forms: the
        carry is taken from the old value, the shifted value is stored, and
        Z, N and H follow. */
    method Shift(s: S.ShiftKind, c: S.Cell)
      requires Valid()
      modifies this, memory
      ensures State() == S.Shift(old(State()), s, c)
    {
      var v := Get(c);
      var w: int;
      match s {
        case Rlc =>
          var bit7 := And(v, 0x80);
          flag := flag.Set(S.Carry, bit7);
          w := SetBit(Shl(v, 1), 0, bit7);
        case Rl =>
          flag := flag.Set(S.Carry, And(v, 0x80));
          w := Shl(v, 1);
        case Rrc =>
          var bit0 := And(v, 0x01);
          flag := flag.Set(S.Carry, bit0);
          w := SetBit(Shr(v, 1), 7, bit0);
        case Rr =>
          flag := flag.Set(S.Carry, And(v, 0x01));
          w := Shl(v, 1);
        case Sla =>
          flag := flag.Set(S.Carry, And(v, 0x80));
          w := SetBit(Shl(v, 1), 0, 0);
        case Sra =>
          flag := flag.Set(S.Carry, And(v, 0x01));
          var msb := Shr(And(v, 0x80), 7);
          w := SetBit(Shr(v, 1), 7, msb);
        case Srl =>
          flag := flag.Set(S.Carry, And(v, 0x01));
          w := SetBit(Shr(v, 1), 7, 0);
      }
      flag := flag.Set(S.Zero, if w == 0 then 1 else 0);
      flag := flag.Set(S.Subtract, 0);
      flag := flag.Set(S.HalfCarry, 0);
      Put(c, w);
    }

    // -------------------------------------------------------------------
    // Bit tests (pythongb/cpu.py:965-983)

    method Bitbr(b: int, k: S.Reg)
      requires Valid() && b >= 1
      modifies this
      ensures State() == S.Bitbr(old(State()), b, k)
    {
      var bit := And(Shr(r.Get(k), b - 1), 0x01);
      if bit == 0 {
        flag := flag.Set(S.Zero, 1);
      }
      flag := flag.Set(S.Subtract, 0);
      flag := flag.Set(S.HalfCarry, 1);
    }

    method Setbr(b: nat, k: S.Reg)
      requires Valid()
      modifies this
      ensures State() == S.Setbr(old(State()), b, k)
    {
      r := r.Set(k, SetBit(r.Get(k), b, 1));
    }

    method Resbr(b: nat, k: S.Reg)
      requires Valid()
      modifies this
      ensures State() == S.Resbr(old(State()), b, k)
    {
      r := r.Set(k, SetBit(r.Get(k), b, 0));
    }

    // -------------------------------------------------------------------
    // Jumps, calls, restarts and returns (pythongb/cpu.py:985-1231)

    method Jpnn()
      requires Valid()
      modifies this
      ensures State() == S.Jpnn(old(State()))
    {
      IncPc();
      var n1 := Read(r.Get(S.PC));
      IncPc();
      var n2 := Read(r.Get(S.PC));
      r := r.Set(S.PC, Or(Shl(n1, 8), n2));
    }

    /** `jpnznn`, `jpznn`, `jpncnn`, `jpcnn`. */
    method Jpcc(cond: S.Cond)
      requires Valid()
      modifies this
      ensures State() == S.Jpcc(old(State()), cond)
    {
      IncPc();
      var n1 := Read(r.Get(S.PC));
      IncPc();
      var n2 := Read(r.Get(S.PC));
      if flag.Get(cond.f) == cond.value {
        r := r.Set(S.PC, Or(Shl(n1, 8), n2));
      }
    }

    method Jphl()
      requires Valid()
      modifies this
      ensures State() == S.Jphl(old(State()))
    {
      r := r.Set(S.PC, Or(Shl(r.Get(S.H), 8), r.Get(S.L)));
    }

    method Jrn()
      requires Valid()
      modifies this
      ensures State() == S.Jrn(old(State()))
    {
      var curr := r.Get(S.PC);
      IncPc();
      var n := Read(r.Get(S.PC));
      r := r.Set(S.PC, curr + n);
    }

    /** `jrnzn`, `jrzn`, `jrncn`, `jrcn`. */
    method Jrcc(cond: S.Cond)
      requires Valid()
      modifies this
      ensures State() == S.Jrcc(old(State()), cond)
    {
      IncPc();
      if flag.Get(cond.f) == cond.value {
        var n := Read(r.Get(S.PC));
        r := r.Set(S.PC, r.Get(S.PC) + (n - 1));
      }
    }

    method Callnn()
      requires Valid()
      modifies this, memory
      ensures State() == S.Callnn(old(State()))
    {
      PushPc();
      IncPc();
      var low := Read(r.Get(S.PC));
      IncPc();
      var high := Read(r.Get(S.PC));
      r := r.Set(S.PC, Or(Shl(high, 8), low));
    }

    /** `callnznn`, `callznn`, `callncnn`, `callcnn`. */
    method Callcc(cond: S.Cond)
      requires Valid()
      modifies this, memory
      ensures State() == S.Callcc(old(State()), cond)
    {
      if flag.Get(cond.f) == cond.value {
        Callnn();
      } else {
        IncPc();
        IncPc();
      }
    }

    method Rstn(n: int)
      requires Valid()
      modifies this, memory
      ensures State() == S.Rstn(old(State()), n)
    {
      PushPc();
      r := r.Set(S.PC, 0x0000 + n);
    }

    method Ret()
      requires Valid()
      modifies this
      ensures State() == S.Ret(old(State()))
    {
      var low := Read(r.Get(S.SP));
      AddSp(1);
      var high := Read(r.Get(S.SP));
      AddSp(1);
      r := r.Set(S.PC, Or(Shl(high, 8), low));
    }

    /** `retnz`, `retz`, `retnc`, `retc`. */
    method Retcc(cond: S.Cond)
      requires Valid()
      modifies this
      ensures State() == S.Retcc(old(State()), cond)
    {
      if flag.Get(cond.f) == cond.value {
        Ret();
      }
    }

    method Reti()
      requires Valid()
      modifies this
      ensures State() == S.Reti(old(State()))
    {
      Ret();
      r := r.Set(S.IME, 1);
    }

    // -------------------------------------------------------------------
    // Dispatch (pythongb/cpu.py:1232-1781)

    /** The call a dictionary entry of `executeOpcode` makes. */
    method Apply(op: D.Op)
      requires Valid() && !op.Cbtable?
      modifies this, memory
      ensures State() == D.Apply(old(State()), op)
    {
      if D.IsLoad(op) {
        ApplyLoad(op);
      } else if D.IsStack(op) {
        ApplyStack(op);
      } else if D.IsArith(op) {
        ApplyArith(op);
      } else if D.IsWide(op) {
        ApplyWide(op);
      } else if D.IsMisc(op) {
        ApplyMisc(op);
      } else if D.IsJump(op) {
        ApplyJump(op);
      } else {
        ApplyCall(op);
      }
    }

    method ApplyLoad(op: D.Op)
      requires Valid() && D.IsLoad(op)
      modifies this, memory
      ensures State() == D.ApplyLoad(old(State()), op)
    {
      match op {
        case Ldnnn(nn) => Ldnnn(nn);
        case Ldr1r2(r1, r2) => Ldr1r2(r1, r2);
        case Ldr1hl(r1) => Ldr1hl(r1);
        case Ldhlr2(r2) => Ldhlr2(r2);
        case Ldhln => Ldhln();
        case Ldab(a, b) => Ldab(a, b);
        case Ldann => Ldann();
        case Ldae => Ldae();
        case Ldna(n) => Ldna(n);
        case Ldaba(a, b) => Ldaba(a, b);
        case Ldnna => Ldnna();
        case Ldac => Ldac();
        case Ldca => Ldca();
        case Lddahl => Lddahl();
        case Lddhla => Lddhla();
        case Ldiahl => Ldiahl();
        case Ldihla => Ldihla();
        case Ldhan => Ldhan();
      }
    }

    method ApplyStack(op: D.Op)
      requires Valid() && D.IsStack(op)
      modifies this, memory
      ensures State() == D.ApplyStack(old(State()), op)
    {
      match op {
        case Ldnnn16(a, b) => Ldnnn16(a, b);
        case Ldsphl => Ldsphl();
        case Ldhlspn => Ldhlspn();
        case Ldnnsp => Ldnnsp();
        case Pushnn(a, b) => Pushnn(a, b);
        case Popnn(a, b) => Popnn(a, b);
      }
    }

    method ApplyArith(op: D.Op)
      requires Valid() && D.IsArith(op)
      modifies this, memory
      ensures State() == D.ApplyArith(old(State()), op)
    {
      match op {
        case Addan(n) => Add(S.Reg8(n));
        case Addahl => Add(S.AtHl);
        case Addanext => Add(S.Next);
        case Adcan(n) => Adc(S.Reg8(n));
        case Adcahl => Adc(S.AtHl);
        case Adcanext => Adc(S.Next);
        case Subn(n) => Sub(S.Reg8(n));
        case Subhl => Sub(S.AtHl);
        case Subnext => Sub(S.Next);
        case Sbcan(n) => Sbc(S.Reg8(n));
        case Sbcahl => Sbc(S.AtHl);
        case Andn(n) => AndA(S.Reg8(n));
        case Andhl => AndA(S.AtHl);
        case Andnext => AndA(S.Next);
        case Orn(n) => OrA(S.Reg8(n));
        case Orhl => OrA(S.AtHl);
        case Ornext => OrA(S.Next);
        case Xorn(n) => XorA(S.Reg8(n));
        case Xorhl => XorA(S.AtHl);
        case Xornext => XorA(S.Next);
        case Cpn(n) => Cp(S.Reg8(n));
        case Cphl => Cp(S.AtHl);
        case Cpnext => Cp(S.Next);
      }
    }

    method ApplyWide(op: D.Op)
      requires Valid() && D.IsWide(op)
      modifies this, memory
      ensures State() == D.ApplyWide(old(State()), op)
    {
      match op {
        case Incn(n) => Inc(S.RegCell(n));
        case Inchl => Inc(S.HlCell);
        case Decn(n) => Dec(S.RegCell(n));
        case Dechl => Dec(S.HlCell);
        case Addhln(a, b) => Addhln(a, b);
        case Addhlsp => Addhlsp();
        case Addspn => Addspn();
        case Incnn(a, b) => Incnn(a, b);
        case Incsp => Incsp();
        case Decnn(a, b) => Decnn(a, b);
        case Decsp => Decsp();
      }
    }

    method ApplyMisc(op: D.Op)
      requires Valid() && D.IsMisc(op)
      modifies this, memory
      ensures State() == D.ApplyMisc(old(State()), op)
    {
      match op {
        case Daa => {}
        case Cpl => Cpl();
        case Ccf => Ccf();
        case Scf => Scf();
        case Nop => {}
        case Halt => {}
        case Stop => {}
        case Di => Di();
        case Ei => Ei();
        case Rlca => Shift(S.Rlc, S.RegCell(S.A));
        case Rla => Shift(S.Rl, S.RegCell(S.A));
        case Rrca => Shift(S.Rrc, S.RegCell(S.A));
        case Rra => Shift(S.Rr, S.RegCell(S.A));
      }
    }

    method ApplyJump(op: D.Op)
      requires Valid() && D.IsJump(op)
      modifies this, memory
      ensures State() == D.ApplyJump(old(State()), op)
    {
      match op {
        case Jpnn => Jpnn();
        case Jpnznn => Jpcc(S.When(S.Zero, 0));
        case Jpznn => Jpcc(S.When(S.Zero, 1));
        case Jpncnn => Jpcc(S.When(S.Carry, 0));
        case Jpcnn => Jpcc(S.When(S.Carry, 1));
        case Jphl => Jphl();
        case Jrn => Jrn();
        case Jrnzn => Jrcc(S.When(S.Zero, 0));
        case Jrzn => Jrcc(S.When(S.Zero, 1));
        case Jrncn => Jrcc(S.When(S.Carry, 0));
        case Jrcn => Jrcc(S.When(S.Carry, 1));
      }
    }

    method ApplyCall(op: D.Op)
      requires Valid() && D.IsCall(op)
      modifies this, memory
      ensures State() == D.ApplyCall(old(State()), op)
    {
      match op {
        case Callnn => Callnn();
        case Callnznn => Callcc(S.When(S.Zero, 0));
        case Callznn => Callcc(S.When(S.Zero, 1));
        case Callncnn => Callcc(S.When(S.Carry, 0));
        case Callcnn => Callcc(S.When(S.Carry, 1));
        case Rstn(addr) => Rstn(addr);
        case Ret => Ret();
        case Retnz => Retcc(S.When(S.Zero, 0));
        case Retz => Retcc(S.When(S.Zero, 1));
        case Retnc => Retcc(S.When(S.Carry, 0));
        case Retc => Retcc(S.When(S.Carry, 1));
        case Reti => Reti();
      }
    }

    /** The call an entry of the CB-prefix dictionaries makes. */
    method RunCb(op: D.CbOp)
      requires Valid()
      modifies this, memory
      ensures State() == D.RunCb(old(State()), op)
    {
      match op {
      case Swapn(n) => Swap(S.RegCell(n));
      case Swaphl => Swap(S.HlCell);
      case Rlcn(n) => Shift(S.Rlc, S.RegCell(n));
      case Rlchl => Shift(S.Rlc, S.HlCell);
      case Rln(n) => Shift(S.Rl, S.RegCell(n));
      case Rlhl => Shift(S.Rl, S.HlCell);
      case Rrcn(n) => Shift(S.Rrc, S.RegCell(n));
      case Rrchl => Shift(S.Rrc, S.HlCell);
      case Rrn(n) => Shift(S.Rr, S.RegCell(n));
      case Rrhl => Shift(S.Rr, S.HlCell);
      case Slan(n) => Shift(S.Sla, S.RegCell(n));
      case Slahl => Shift(S.Sla, S.HlCell);
      case Sran(n) => Shift(S.Sra, S.RegCell(n));
      case Srahl => Shift(S.Sra, S.HlCell);
      case Srln(n) => Shift(S.Srl, S.RegCell(n));
      }
    }

    /** `cbtable_test`: `ok` is false where the lookup raises a KeyError,
        and then nothing has changed. */
    method CbtableTest(opcode: int) returns (ok: bool)
      requires Valid()
      modifies this, memory
      ensures var out := D.CbtableTest(old(State()), opcode);
              ok == out.Done? && State() == out.m
    {
      match D.CbTable(opcode) {
        case Some(op) =>
          RunCb(op);
          ok := true;
        case None =>
          ok := false;
      }
    }

    /** `cbtable`: the program counter is advanced and its value, not the
        byte it points at, is looked up. */
    method Cbtable() returns (ok: bool)
      requires Valid()
      modifies this, memory
      ensures var out := D.CbtableByPc(old(State()));
              ok == out.Done? && State() == out.m
    {
      IncPc();
      ok := CbtableTest(r.Get(S.PC));
    }

    /** `executeOpcode`: `ok` is false where a lookup raises a KeyError. */
    method ExecuteOpcode(opcode: int) returns (ok: bool)
      requires Valid()
      modifies this, memory
      ensures var out := D.ExecuteOpcode(old(State()), opcode);
              ok == out.Done? && State() == out.m
    {
      ghost var m := State();
      match D.OpcodeTable(opcode) {
        case Some(op) =>
          D.ExecuteEntry(m, opcode, op);
          if op.Cbtable? {
            ok := Cbtable();
          } else {
            Apply(op);
            ok := true;
          }
        case None =>
          ok := false;
      }
    }

    /** One pass of the main loop of pythongb/gb.py:51-56 without the GPU
        sync: execute the opcode at PC, then advance PC. */
    method Step() returns (ok: bool)
      requires Valid()
      modifies this, memory
      ensures var out := D.Step(old(State()));
              ok == out.Done? && State() == out.m
    {
      ok := ExecuteOpcode(Read(r.Get(S.PC)));
      if ok {
        IncPc();
      }
    }
  }
}
