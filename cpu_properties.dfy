/** What the opcode methods of pythongb/cpu.py do, stated over the functions
    of module Semantics: the register-pair helpers, the stack, the jumps and
    calls, the flag quirks of the ALU and the rotate, swap and complement
    round trips. */
module CpuProperties {
  import opened Bits
  import opened Semantics

  // ---------------------------------------------------------------------
  // Register pairs (pythongb/cpu.py:43-58)

  /** `getAB` with a byte in the low register is `hi * 256 + lo`. */
  lemma PairOfBytes(m: Machine, a: Reg, b: Reg)
    requires 0 <= m.r.Get(b) < 256
    ensures Pair(m, a, b) == m.r.Get(a) * 256 + m.r.Get(b)
  {
    assert Pow2(8) == 256;
    OrShlLow(m.r.Get(a), 8, m.r.Get(b));
  }

  /** `addAB` adds `value` to the pair, whatever the registers held, leaves a
      byte in the low register and touches nothing else. */
  lemma AddPairAdds(m: Machine, a: Reg, b: Reg, value: int)
    requires a != b
    ensures Pair(AddPair(m, a, b, value), a, b) == Pair(m, a, b) + value
    ensures 0 <= AddPair(m, a, b, value).r.Get(b) < 256
    ensures forall k: Reg :: k != a && k != b ==> AddPair(m, a, b, value).r.Get(k) == m.r.Get(k)
    ensures AddPair(m, a, b, value).flag == m.flag
    ensures AddPair(m, a, b, value).mem == m.mem
  {
    var val := Pair(m, a, b) + value;
    var m1 := AddPair(m, a, b, value);
    assert m1.r.Get(a) == Shr(val, 8) && m1.r.Get(b) == And(0x00FF, val);
    AndCommutes(0x00FF, val);
    AndMasks(val);
    SplitJoin(val);
  }

  /** `ldiahl` loads A from (HL) and moves HL up by one; `lddahl` moves it
      down by one. */
  lemma LoadAndStep(m: Machine)
    ensures Ldiahl(m).r.Get(A) == Peek(m, Hl(m)) && Hl(Ldiahl(m)) == Hl(m) + 1
    ensures Lddahl(m).r.Get(A) == Peek(m, Hl(m)) && Hl(Lddahl(m)) == Hl(m) - 1
    ensures Ldiahl(m).flag == m.flag && Ldiahl(m).mem == m.mem
  {
    AddPairAdds(SetReg(m, A, Peek(m, Hl(m))), H, L, 1);
    AddPairAdds(SetReg(m, A, Peek(m, Hl(m))), H, L, -1);
  }

  /** `ldihla` stores A at (HL) and moves HL up by one; `lddhla` moves it
      down by one. */
  lemma StoreAndStep(m: Machine)
    requires 0 <= Hl(m) < MemSize
    ensures Ldihla(m).mem[Hl(m)] == m.r.Get(A) && Hl(Ldihla(m)) == Hl(m) + 1
    ensures Lddhla(m).mem[Hl(m)] == m.r.Get(A) && Hl(Lddhla(m)) == Hl(m) - 1
  {
    AddPairAdds(Poke(m, Hl(m), m.r.Get(A)), H, L, 1);
    AddPairAdds(Poke(m, Hl(m), m.r.Get(A)), H, L, -1);
  }

  /** `decnn` undoes `incnn` when the low register holds a byte. */
  lemma IncThenDecPair(m: Machine, a: Reg, b: Reg)
    requires a != b && 0 <= m.r.Get(b) < 256
    ensures Pair(Incnn(m, a, b), a, b) == Pair(m, a, b) + 1
    ensures Decnn(Incnn(m, a, b), a, b) == m
  {
    var p := Pair(m, a, b);
    AndCommutes(p + 1, 0x00FF);
    SplitJoin(p + 1);
    var m1 := Incnn(m, a, b);
    assert Pair(m1, a, b) == p + 1;
    PairOfBytes(m, a, b);
    AndMasks(p);
    assert Pow2(8) == 256;
    DivUnique(p, 256, m.r.Get(a), m.r.Get(b));
    assert Decnn(m1, a, b).r == m.r;
  }

  /** `ldhlspn`: HL ends up holding SP plus the immediate byte. */
  lemma LdhlspnSum(m: Machine)
    ensures Hl(Ldhlspn(m)) == m.r.Get(SP) + Peek(m, m.r.Get(PC) + 1)
    ensures 0 <= Ldhlspn(m).r.Get(L) < 256
    ensures Ldhlspn(m).r.Get(PC) == m.r.Get(PC) + 1 && Ldhlspn(m).r.Get(SP) == m.r.Get(SP)
  {
    var temp := m.r.Get(SP) + Peek(m, m.r.Get(PC) + 1);
    var m1 := Ldhlspn(m);
    assert m1.r.Get(H) == Shr(temp, 8) && m1.r.Get(L) == And(temp, 0xFF);
    AndMasks(temp);
    SplitJoin(temp);
  }

  /** `addhln`: HL ends up holding the pair plus the old HL, N and H are
      cleared, C is set above 0xFFFF and Z is left alone. */
  lemma AddhlnSum(m: Machine, a: Reg, b: Reg)
    ensures Hl(Addhln(m, a, b)) == Pair(m, a, b) + Hl(m)
    ensures Addhln(m, a, b).flag.Get(Zero) == m.flag.Get(Zero)
    ensures Addhln(m, a, b).flag.Get(Subtract) == 0
    ensures Addhln(m, a, b).flag.Get(HalfCarry) == 0
    ensures Addhln(m, a, b).flag.Get(Carry) == (if Pair(m, a, b) + Hl(m) > 0xFFFF then 1 else 0)
  {
    var final := Pair(m, a, b) + Hl(m);
    var m1 := Addhln(m, a, b);
    assert m1.r.Get(H) == Shr(final, 8) && m1.r.Get(L) == And(final, 0xFF);
    SplitJoin(final);
    WideHalfClear(Hl(m), Pair(m, a, b));
  }

  // ---------------------------------------------------------------------
  // Flag quirks of the ALU methods (pythongb/cpu.py:250-662)

  /** `x & 0x0F + v & 0x0F & 0x10`, as Python groups it, is always 0. */
  lemma HalfClear(a: int, v: int)
    ensures AddHalf(a, v) == 0 && SubHalf(a, v) == 0
  {
    assert Pow2(4) == 16;
    AndMasks(And(a, 0x0F + v));
    AndBelow(And(And(a, 0x0F + v), 0x0F), 4);
    AndMasks(And(a, 0x0F - v));
    AndBelow(And(And(a, 0x0F - v), 0x0F), 4);
  }

  /** The 16-bit test `x & 0x0FFF + v & 0x0FFF & 0x1000` is always 0. */
  lemma WideHalfClear(x: int, v: int)
    ensures WideHalf(x, v) == 0
  {
    assert Pow2(12) == 4096;
    AndMasks(And(x, 0x0FFF + v));
    AndBelow(And(And(x, 0x0FFF + v), 0x0FFF), 12);
  }

  /** H is never set by the 8-bit add, subtract and compare methods. */
  lemma NarrowHalfNeverSet(m: Machine, o: Operand)
    ensures Add(m, o).flag.Get(HalfCarry) == 0 && Sub(m, o).flag.Get(HalfCarry) == 0
    ensures Cp(m, o).flag.Get(HalfCarry) == 0
  {
    var (m1, v) := Fetch(m, o);
    HalfClear(m1.r.Get(A), v);
  }

  /** H is never set by the 16-bit adds. */
  lemma WideHalfNeverSet(m: Machine, a: Reg, b: Reg)
    ensures Addhln(m, a, b).flag.Get(HalfCarry) == 0 && Addhlsp(m).flag.Get(HalfCarry) == 0
    ensures Addspn(m).flag.Get(HalfCarry) == 0
  {
    WideHalfClear(Hl(m), Pair(m, a, b));
    WideHalfClear(Hl(m), m.r.Get(SP));
    var m2 := IncPc(m);
    WideHalfClear(m2.r.Get(SP), Peek(m2, m2.r.Get(PC)));
  }

  /** Z is never set by `addahl`, `addanext` or the add-with-carry
      methods. */
  lemma AddZeroQuirks(m: Machine, o: Operand)
    ensures !o.Reg8? ==> Add(m, o).flag.Get(Zero) == 0
    ensures Adc(m, o).flag.Get(Zero) == 0
  {
  }

  /** Z is never set by the subtract, subtract-with-carry and compare
      methods. */
  lemma SubZeroQuirks(m: Machine, o: Operand)
    ensures Sub(m, o).flag.Get(Zero) == 0
    ensures Sbc(m, o).flag.Get(Zero) == 0
    ensures Cp(m, o).flag.Get(Zero) == 0
  {
  }

  /** Z is always set by the increments and decrements. */
  lemma StepZeroQuirks(m: Machine, c: Cell)
    ensures Inc(m, c).flag.Get(Zero) == 1 && Dec(m, c).flag.Get(Zero) == 1
  {
  }

  /** The registers and the Z and C flags `addan` writes, with the half-carry
      term kept out of sight. */
  lemma AddRegParts(m: Machine, n: Reg)
    ensures Add(m, Reg8(n)).r == m.r.Set(A, m.r.Get(A) + m.r.Get(n))
    ensures Add(m, Reg8(n)).flag.z == Truth(m.r.Get(A) + m.r.Get(n) == 0)
    ensures Add(m, Reg8(n)).flag.c == Truth(m.r.Get(A) + m.r.Get(n) > 0xFFFF)
  {
  }

  /** `addan` with a byte in A and in the operand: A gets the sum, Z tells
      whether both were 0, and C stays 0 because a byte sum never exceeds
      0xFFFF. */
  lemma AddBytes(m: Machine, n: Reg)
    requires 0 <= m.r.Get(A) < 256 && 0 <= m.r.Get(n) < 256
    ensures Add(m, Reg8(n)).r.Get(A) == m.r.Get(A) + m.r.Get(n)
    ensures Add(m, Reg8(n)).flag.Get(Zero) == (if m.r.Get(A) == 0 && m.r.Get(n) == 0 then 1 else 0)
    ensures Add(m, Reg8(n)).flag.Get(Carry) == 0
  {
    AddRegParts(m, n);
  }

  /** Incrementing a register or the cell at HL adds one to it, and
      decrementing it afterwards gives back every register and memory; only
      the flags differ. */
  lemma IncThenDec(m: Machine, c: Cell)
    requires c.HlCell? ==> 0 <= Hl(m) < MemSize
    ensures Get(Inc(m, c), c) == Get(m, c) + 1
    ensures Dec(Inc(m, c), c).r == m.r && Dec(Inc(m, c), c).mem == m.mem
  {
    match c
    case RegCell(k) =>
      assert Dec(Inc(m, c), c).r == SetReg(m, k, m.r.Get(k)).r;
      SetSame(m, k);
    case HlCell =>
  }

  /** `subn` and then `addan` with the same register other than A give A
      back. */
  lemma SubThenAdd(m: Machine, n: Reg)
    requires n != A
    ensures Add(Sub(m, Reg8(n)), Reg8(n)).r == m.r
  {
    var m1 := Sub(m, Reg8(n));
    assert Add(m1, Reg8(n)).r == SetReg(m, A, m.r.Get(A)).r;
    SetSame(m, A);
  }

  /** The carry-in of `adc` and `sbc` is the C flag, and C is set only when
      a result exceeds 0xFFFF: with a byte in A, a byte operand and C
      holding 0 or 1, no 8-bit add, subtract or compare ever sets it. */
  lemma ByteCarryNeverSet(m: Machine, o: Operand)
    requires 0 <= m.r.Get(A) < 256 && 0 <= Fetch(m, o).1 < 256
    requires m.flag.Get(Carry) == 0 || m.flag.Get(Carry) == 1
    ensures Adc(m, o).r.Get(A) == m.r.Get(A) + Fetch(m, o).1 + m.flag.Get(Carry)
    ensures Sbc(m, o).r.Get(A) == m.r.Get(A) - Fetch(m, o).1 - m.flag.Get(Carry)
    ensures Add(m, o).flag.Get(Carry) == 0 && Adc(m, o).flag.Get(Carry) == 0
    ensures Sub(m, o).flag.Get(Carry) == 0 && Sbc(m, o).flag.Get(Carry) == 0
    ensures Cp(m, o).flag.Get(Carry) == 0
  {
  }

  /** Which operation each logic method performs: `orhl` computes what
      `andhl` does, `ornext` what `xornext` does and `xorn` what `orn`
      does, so `xorn` on A keeps A where `xorhl` with an equal byte at HL
      clears it.  The Z flag reports a zero result in every case. */
  lemma LogicOperations(m: Machine, n: Reg)
    ensures OrA(m, AtHl).r == AndA(m, AtHl).r
    ensures OrA(m, Next).r == XorA(m, Next).r
    ensures XorA(m, Reg8(n)).r == OrA(m, Reg8(n)).r
    ensures XorA(m, Reg8(A)).r == m.r
    ensures XorA(m, Reg8(A)).flag.Get(Zero) == Truth(m.r.Get(A) == 0)
    ensures Peek(m, Hl(m)) == m.r.Get(A) ==> XorA(m, AtHl).r.Get(A) == 0 && XorA(m, AtHl).flag.Get(Zero) == 1
    ensures AndA(m, AtHl).flag.Get(Zero) == Truth(AndA(m, AtHl).r.Get(A) == 0)
    ensures OrA(m, Next).flag.Get(Zero) == Truth(OrA(m, Next).r.Get(A) == 0)
  {
    OrSelf(m.r.Get(A));
    SetSame(m, A);
    XorSelf(m.r.Get(A));
  }

  // ---------------------------------------------------------------------
  // Complement, swap and rotates (pythongb/cpu.py:664-755)

  /** `cpl` sets N and H and applying it twice gives back A; `ccf` applied
      twice gives back the whole state. */
  lemma ComplementTwice(m: Machine)
    ensures Cpl(m).flag.Get(Subtract) == 1 && Cpl(m).flag.Get(HalfCarry) == 1
    ensures Cpl(Cpl(m)).r == m.r && Cpl(Cpl(m)).mem == m.mem
    ensures Ccf(Ccf(m)) == m
  {
    XorTwice(m.r.Get(A), 0xFF);
    XorTwice(m.flag.Get(Carry), 1);
    assert Ccf(Ccf(m)).flag == m.flag;
  }

  /** Swapping the nibbles of a byte yields a byte, and swapping twice gives
      the byte back. */
  lemma SwappedByte(v: int)
    requires 0 <= v < 256
    ensures Swapped(v) == (v % 16) * 16 + v / 16
    ensures 0 <= Swapped(v) < 256
    ensures Swapped(Swapped(v)) == v
  {
    assert Pow2(4) == 16;
    AndMasks(v);
    OrShlLow(v % 16, 4, v / 16);
    var w := (v % 16) * 16 + v / 16;
    AndMasks(w);
    DivUnique(w, 16, v % 16, v / 16);
    OrShlLow(w % 16, 4, w / 16);
  }

  /** `swapn`/`swaphl` twice on a byte is no change at all. */
  lemma SwapTwice(m: Machine, c: Cell)
    requires 0 <= Get(m, c) < 256
    ensures Swap(Swap(m, c), c) == m
  {
    SwappedByte(Get(m, c));
    match c
    case RegCell(k) =>
      assert Swap(Swap(m, c), c).r == m.r;
    case HlCell =>
      if 0 <= Hl(m) < MemSize {
        assert Swap(Swap(m, c), c).mem == m.mem;
      }
  }

  /** Rotating a byte right by one place, as arithmetic: bit 0 moves to
      bit 7 and every other bit moves down. */
  function Rotr(v: int): int
  {
    v / 2 + 128 * (v % 2)
  }

  /** `k` rotations right. */
  function RotrTimes(v: int, k: nat): int
  {
    if k == 0 then v else Rotr(RotrTimes(v, k - 1))
  }

  /** `rrcn`/`rrca` on a byte is the right rotation, and the carry it sets
      is the bit that wraps round. */
  lemma RrcByte(v: int)
    requires 0 <= v < 256
    ensures Shifted(Rrc, v) == Rotr(v)
    ensures ShiftCarry(Rrc, v) == v % 2
  {
    assert Pow2(1) == 2;
    AndMasks(v);
    SetBitTop(v / 2, v % 2);
  }

  /** Bit `i` of a rotated byte is bit `i + 1` of the byte, and bit 7 is
      bit 0. */
  lemma RotrBit(w: int, i: nat)
    requires 0 <= w < 256 && i < 8
    ensures 0 <= Rotr(w) < 256
    ensures Bit(Rotr(w), i) == if i < 7 then Bit(w, i + 1) else Bit(w, 0)
  {
    assert Pow2(7) == 128;
    BitHigh(w / 2, w % 2, 7, i);
    if i < 7 {
      BitHalf(w, i);
    }
  }

  /** After `k <= 8` rotations of a byte, bit `i` is the old bit `i + k`,
      counted round modulo 8. */
  lemma {:induction false} RotrTimesBits(v: int, k: nat)
    requires 0 <= v < 256 && k <= 8
    ensures 0 <= RotrTimes(v, k) < 256
    ensures forall i: nat :: i < 8 ==>
              Bit(RotrTimes(v, k), i) == Bit(v, if i + k < 8 then i + k else i + k - 8)
  {
    if k > 0 {
      RotrTimesBits(v, k - 1);
      var w := RotrTimes(v, k - 1);
      RotrBit(w, 0);
      forall i: nat | i < 8
        ensures Bit(RotrTimes(v, k), i) == Bit(v, if i + k < 8 then i + k else i + k - 8)
      {
        RotrBit(w, i);
      }
    }
  }

  /** Eight rotations give a byte back. */
  lemma RotrEight(v: int)
    requires 0 <= v < 256
    ensures RotrTimes(v, 8) == v
  {
    RotrTimesBits(v, 8);
    assert Pow2(8) == 256;
    forall i: nat ensures Bit(RotrTimes(v, 8), i) == Bit(v, i) {
      if i >= 8 {
        BitAboveWidth(RotrTimes(v, 8), 8, i);
        BitAboveWidth(v, 8, i);
      }
    }
    BitsDetermine(RotrTimes(v, 8), v);
  }

  /** Rotations keep a byte a byte. */
  lemma {:induction false} RotrTimesByte(v: int, k: nat)
    requires 0 <= v < 256
    ensures 0 <= RotrTimes(v, k) < 256
  {
    if k > 0 {
      RotrTimesByte(v, k - 1);
    }
  }

  /** `t` is `m` after a rotate or shift of the operand in `c` that yields
      `w` and carries out `carry`: the operand becomes `w`, Z reports a zero
      `w`, N and H are 0, C is `carry`, and nothing else changes.  A store
      through HL outside the flat memory is dropped. */
  predicate ShiftsTo(m: Machine, t: Machine, c: Cell, w: int, carry: int)
  {
    t.flag == Flags(Truth(w == 0), 0, 0, carry) &&
    match c
    case RegCell(k) => t.r == m.r.Set(k, w) && t.mem == m.mem
    case HlCell =>
      t.r == m.r &&
      t.mem == (if 0 <= Hl(m) < MemSize then m.mem[Hl(m) := w] else m.mem)
  }

  /** The frame every rotate and shift method shares. */
  lemma ShiftFrame(m: Machine, s: ShiftKind, c: Cell)
    ensures ShiftsTo(m, Shift(m, s, c), c, Shifted(s, Get(m, c)), ShiftCarry(s, Get(m, c)))
  {
  }

  /** `rlcn`/`rlchl`/`rlca` on a byte: the value doubles and the old bit 7 is
      added back as bit 0, with no mask, so a byte of 128 or more yields a
      value above 0xFF; C is `v & 0x80`, that is 128 or 0. */
  lemma RlcShifts(m: Machine, c: Cell)
    requires 0 <= Get(m, c) < 256
    ensures var v := Get(m, c);
      ShiftsTo(m, Shift(m, Rlc, c), c, 2 * v + v / 128, 128 * (v / 128))
  {
    var v := Get(m, c);
    assert Shifted(Rlc, v) == 2 * v + v / 128 by {
      assert Pow2(1) == 2;
      AndTop(v);
      SetBitLow(v, 128 * (v / 128));
      assert (128 * (v / 128) != 0) == (v / 128 == 1);
    }
    assert ShiftCarry(Rlc, v) == 128 * (v / 128) by { AndTop(v); }
    ShiftFrame(m, Rlc, c);
  }

  /** `rln`/`rlhl`/`rla` on a byte: the value doubles (bit 0 is not filled
      from the carry) and C is `v & 0x80`. */
  lemma RlShifts(m: Machine, c: Cell)
    requires 0 <= Get(m, c) < 256
    ensures var v := Get(m, c); ShiftsTo(m, Shift(m, Rl, c), c, 2 * v, 128 * (v / 128))
  {
    var v := Get(m, c);
    assert Shifted(Rl, v) == 2 * v by { assert Pow2(1) == 2; }
    assert ShiftCarry(Rl, v) == 128 * (v / 128) by { AndTop(v); }
    ShiftFrame(m, Rl, c);
  }

  /** `rrn`/`rrhl`/`rra` on a byte shift LEFT: the value doubles, while C is
      the old bit 0 as for a right rotation. */
  lemma RrShiftsLeft(m: Machine, c: Cell)
    requires 0 <= Get(m, c) < 256
    ensures var v := Get(m, c); ShiftsTo(m, Shift(m, Rr, c), c, 2 * v, v % 2)
  {
    var v := Get(m, c);
    assert Shifted(Rr, v) == 2 * v by { assert Pow2(1) == 2; }
    assert ShiftCarry(Rr, v) == v % 2 by { AndMasks(v); }
    ShiftFrame(m, Rr, c);
  }

  /** `slan`/`slahl` on a byte: the value doubles with bit 0 clear, and C is
      `v & 0x80`. */
  lemma SlaShifts(m: Machine, c: Cell)
    requires 0 <= Get(m, c) < 256
    ensures var v := Get(m, c); ShiftsTo(m, Shift(m, Sla, c), c, 2 * v, 128 * (v / 128))
  {
    var v := Get(m, c);
    assert Shifted(Sla, v) == 2 * v by {
      assert Pow2(1) == 2;
      SetBitLow(v, 0);
    }
    assert ShiftCarry(Sla, v) == 128 * (v / 128) by { AndTop(v); }
    ShiftFrame(m, Sla, c);
  }

  /** `sran`/`srahl` on a byte: the value halves and keeps its bit 7, and C
      is the old bit 0. */
  lemma SraShifts(m: Machine, c: Cell)
    requires 0 <= Get(m, c) < 256
    ensures var v := Get(m, c);
      ShiftsTo(m, Shift(m, Sra, c), c, v / 2 + 128 * (v / 128), v % 2)
  {
    var v := Get(m, c);
    assert Shifted(Sra, v) == v / 2 + 128 * (v / 128) by {
      assert Pow2(1) == 2 && Pow2(7) == 128;
      AndTop(v);
      assert Shr(And(v, 0x80), 7) == v / 128;
      SetBitTop(v / 2, v / 128);
    }
    assert ShiftCarry(Sra, v) == v % 2 by { AndMasks(v); }
    ShiftFrame(m, Sra, c);
  }

  /** `srln`/`srlhl` on a byte: the value halves with bit 7 clear, and C is
      the old bit 0. */
  lemma SrlShifts(m: Machine, c: Cell)
    requires 0 <= Get(m, c) < 256
    ensures var v := Get(m, c); ShiftsTo(m, Shift(m, Srl, c), c, v / 2, v % 2)
  {
    var v := Get(m, c);
    assert Shifted(Srl, v) == v / 2 by {
      assert Pow2(1) == 2;
      SetBitTop(v / 2, 0);
    }
    assert ShiftCarry(Srl, v) == v % 2 by { AndMasks(v); }
    ShiftFrame(m, Srl, c);
  }

  /** `f` applied `k` times. */
  function Iterate(f: Machine -> Machine, m: Machine, k: nat): Machine
  {
    if k == 0 then m else f(Iterate(f, m, k - 1))
  }

  /** `rrca`. */
  function Rrca(m: Machine): Machine
  {
    Shift(m, Rrc, RegCell(A))
  }

  /** The state after `k` executions of `rrca`. */
  function RrcaTimes(m: Machine, k: nat): Machine
  {
    Iterate(Rrca, m, k)
  }

  /** Repeating a step that rotates a byte in A right rotates it `k` times. */
  lemma {:induction false} IterateRotr(f: Machine -> Machine, m: Machine, k: nat)
    requires forall x: Machine :: 0 <= x.r.Get(A) < 256 ==> f(x).r.Get(A) == Rotr(x.r.Get(A))
    requires 0 <= m.r.Get(A) < 256
    ensures Iterate(f, m, k).r.Get(A) == RotrTimes(m.r.Get(A), k)
  {
    if k > 0 {
      IterateRotr(f, m, k - 1);
      RotrTimesByte(m.r.Get(A), k - 1);
    }
  }

  /** `k` executions of `rrca` rotate a byte in A `k` times. */
  lemma RrcaTimesA(m: Machine, k: nat)
    requires 0 <= m.r.Get(A) < 256
    ensures RrcaTimes(m, k).r.Get(A) == RotrTimes(m.r.Get(A), k)
  {
    forall x: Machine | 0 <= x.r.Get(A) < 256
      ensures Rrca(x).r.Get(A) == Rotr(x.r.Get(A))
    {
      RrcaRotates(x);
    }
    IterateRotr(Rrca, m, k);
  }

  /** One `rrca` rotates a byte in A right. */
  lemma RrcaRotates(m: Machine)
    requires 0 <= m.r.Get(A) < 256
    ensures Shift(m, Rrc, RegCell(A)).r.Get(A) == Rotr(m.r.Get(A))
  {
    ShiftFrame(m, Rrc, RegCell(A));
    RrcByte(m.r.Get(A));
  }

  /** `rrca` on a byte in A: A stays a byte, its bit 7 is the old bit 0 and
      C is the old bit 0. */
  lemma RrcaOnce(m: Machine)
    requires 0 <= m.r.Get(A) < 256
    ensures 0 <= Shift(m, Rrc, RegCell(A)).r.Get(A) < 256
    ensures Bit(Shift(m, Rrc, RegCell(A)).r.Get(A), 7) == Bit(m.r.Get(A), 0)
    ensures Shift(m, Rrc, RegCell(A)).flag.Get(Carry) == m.r.Get(A) % 2
  {
    ShiftFrame(m, Rrc, RegCell(A));
    RrcByte(m.r.Get(A));
    RotrBit(m.r.Get(A), 7);
  }

  /** Eight executions of `rrca` restore a byte in A. */
  lemma RrcaEight(m: Machine)
    requires 0 <= m.r.Get(A) < 256
    ensures RrcaTimes(m, 8).r.Get(A) == m.r.Get(A)
  {
    RrcaTimesA(m, 8);
    RotrEight(m.r.Get(A));
  }

  // ---------------------------------------------------------------------
  // Bit tests (pythongb/cpu.py:967-983)

  /** `bitbr` tests bit `b - 1`: Z is set when that bit is clear and left
      alone otherwise; N is cleared and H set. */
  lemma BitbrTests(m: Machine, b: int, r: Reg)
    requires b >= 1
    ensures Bitbr(m, b, r).flag.Get(Zero) == (if Bit(m.r.Get(r), b - 1) == 0 then 1 else m.flag.Get(Zero))
    ensures Bitbr(m, b, r).flag.Get(Subtract) == 0 && Bitbr(m, b, r).flag.Get(HalfCarry) == 1
    ensures Bitbr(m, b, r).r == m.r && Bitbr(m, b, r).mem == m.mem
  {
    AndMasks(Shr(m.r.Get(r), b - 1));
    BitShr(m.r.Get(r), b - 1, 0);
  }

  /** `setbr` sets bit `b` and `resbr` clears it; every other bit of the
      register stays. */
  lemma SetResBits(m: Machine, b: nat, r: Reg, i: nat)
    ensures Bit(Setbr(m, b, r).r.Get(r), b) == 1 && Bit(Resbr(m, b, r).r.Get(r), b) == 0
    ensures i != b ==> Bit(Setbr(m, b, r).r.Get(r), i) == Bit(m.r.Get(r), i)
    ensures i != b ==> Bit(Resbr(m, b, r).r.Get(r), i) == Bit(m.r.Get(r), i)
  {
    SetBitBits(m.r.Get(r), b, 1, i);
    SetBitBits(m.r.Get(r), b, 0, i);
    SetBitIndex(m.r.Get(r), b, 1);
    SetBitIndex(m.r.Get(r), b, 0);
  }

  // ---------------------------------------------------------------------
  // Register and memory loads (pythongb/cpu.py:93-195, 210-229)

  /** `ldr1r2` copies one register into another and changes nothing else;
      copying straight back, or copying a register onto itself, changes
      nothing further.  `ldan` followed by `ldna` on the same register is
      the same kind of copy back. */
  lemma CopyRegister(m: Machine, r1: Reg, r2: Reg)
    ensures Ldr1r2(m, r1, r2).r.Get(r1) == m.r.Get(r2)
    ensures forall k: Reg :: k != r1 ==> Ldr1r2(m, r1, r2).r.Get(k) == m.r.Get(k)
    ensures Ldr1r2(m, r1, r2).flag == m.flag && Ldr1r2(m, r1, r2).mem == m.mem
    ensures Ldr1r2(Ldr1r2(m, r1, r2), r2, r1) == Ldr1r2(m, r1, r2)
    ensures Ldr1r2(m, r1, r1) == m
    ensures Ldna(Ldan(m, r1), r1) == Ldan(m, r1)
  {
    SetSame(m, r1);
    SetSame(Ldr1r2(m, r1, r2), r2);
    SetSame(Ldan(m, r1), r1);
  }

  /** Writing a register's own value back leaves the machine as it was. */
  lemma SetSame(m: Machine, k: Reg)
    ensures SetReg(m, k, m.r.Get(k)) == m
  {
    match k
    case A => case B => case C => case D => case E => case F =>
    case H => case L => case PC => case SP => case IME =>
  }

  /** A register stored at HL by `ldhlr2` is what `ldr1hl` loads back; the
      store changes only that cell. */
  lemma StoreThenLoadHl(m: Machine, r1: Reg, r2: Reg)
    requires 0 <= Hl(m) < MemSize
    ensures Ldhlr2(m, r2).r == m.r && Ldhlr2(m, r2).flag == m.flag
    ensures Ldhlr2(m, r2).mem == m.mem[Hl(m) := m.r.Get(r2)]
    ensures Ldr1hl(Ldhlr2(m, r2), r1).r.Get(r1) == m.r.Get(r2)
  {
  }

  /** `ldaba` stores A at the address the pair holds and `ldab` with the
      same pair loads it back, so the registers end as they began. */
  lemma StoreThenLoadPair(m: Machine, a: Reg, b: Reg)
    requires 0 <= Pair(m, a, b) < MemSize
    ensures Ldaba(m, a, b).mem == m.mem[Pair(m, a, b) := m.r.Get(A)]
    ensures Ldab(Ldaba(m, a, b), a, b).r == m.r
  {
    SetSame(m, A);
  }

  /** `ldca` stores A at `0xFF00 + C` and `ldac` loads it back. */
  lemma StoreThenLoadHigh(m: Machine)
    requires 0 <= m.r.Get(C) < 0x100
    ensures Ldca(m).mem == m.mem[0xFF00 + m.r.Get(C) := m.r.Get(A)]
    ensures Ldac(Ldca(m)).r == m.r
  {
    SetSame(m, A);
  }

  /** `ldnnsp` writes SP over its own two operand bytes, low byte first,
      so the two bytes read back little-endian give SP. */
  lemma StoreSp(m: Machine)
    requires 0 <= m.r.Get(PC) + 1 && m.r.Get(PC) + 2 < MemSize
    ensures Ldnnsp(m).r == m.r.Set(PC, m.r.Get(PC) + 2)
    ensures 0 <= Ldnnsp(m).mem[m.r.Get(PC) + 1] < 256
    ensures Ldnnsp(m).mem[m.r.Get(PC) + 2] * 256 + Ldnnsp(m).mem[m.r.Get(PC) + 1] == m.r.Get(SP)
  {
    var sp := m.r.Get(SP);
    AndMasks(sp);
    assert Pow2(8) == 256;
    OrShlLow(Shr(sp, 8), 8, And(sp, 0xFF));
    SplitJoin(sp);
  }

  /** `ldsphl` copies HL into SP, so after `ldhlspn` it leaves SP moved by
      the operand byte. */
  lemma SpFromHl(m: Machine)
    ensures Ldsphl(m).r == m.r.Set(SP, Hl(m))
    ensures Ldsphl(Ldhlspn(m)).r.Get(SP) == m.r.Get(SP) + Peek(m, m.r.Get(PC) + 1)
  {
    LdhlspnSum(m);
  }

  // ---------------------------------------------------------------------
  // Loads with immediates (pythongb/cpu.py:120-207)

  /** `ldnnn16(a, b)`: the first immediate byte goes to the low register
      `b`, the second to the high register `a`, PC moves on by 2, and the
      pair then reads as the little-endian 16-bit immediate. */
  lemma Ldnnn16Loads(m: Machine, a: Reg, b: Reg)
    requires a != b && a != PC && b != PC
    ensures Ldnnn16(m, a, b).r ==
              m.r.Set(PC, m.r.Get(PC) + 2).Set(a, Peek(m, m.r.Get(PC) + 2)).Set(b, Peek(m, m.r.Get(PC) + 1))
    ensures Ldnnn16(m, a, b).flag == m.flag && Ldnnn16(m, a, b).mem == m.mem
    ensures 0 <= Peek(m, m.r.Get(PC) + 1) < 256 ==>
              Pair(Ldnnn16(m, a, b), a, b) == Peek(m, m.r.Get(PC) + 2) * 256 + Peek(m, m.r.Get(PC) + 1)
  {
    var m1 := Ldnnn16(m, a, b);
    if 0 <= Peek(m, m.r.Get(PC) + 1) < 256 {
      PairOfBytes(m1, a, b);
    }
  }

  /** `ldann` reads its address little-endian, `ldnna` big-endian. */
  lemma ImmediateAddressOrder(m: Machine)
    requires 0 <= Peek(m, m.r.Get(PC) + 1) < 256 && 0 <= Peek(m, m.r.Get(PC) + 2) < 256
    ensures Ldann(m).r.Get(A) == Peek(m, Peek(m, m.r.Get(PC) + 2) * 256 + Peek(m, m.r.Get(PC) + 1))
    ensures Ldnna(m) == Poke(m, Peek(m, m.r.Get(PC) + 1) * 256 + Peek(m, m.r.Get(PC) + 2), m.r.Get(A))
                          .(r := m.r.Set(PC, m.r.Get(PC) + 2))
  {
    assert Pow2(8) == 256;
    OrShlLow(Peek(m, m.r.Get(PC) + 2), 8, Peek(m, m.r.Get(PC) + 1));
    OrShlLow(Peek(m, m.r.Get(PC) + 1), 8, Peek(m, m.r.Get(PC) + 2));
  }

  /** `ldhan` (both 0xE0 and 0xF0) stores A at 0xFF00 + n and never loads
      A. */
  lemma LdhanStores(m: Machine)
    requires 0 <= 0xFF00 + Peek(m, m.r.Get(PC) + 1) < MemSize
    ensures Ldhan(m).r == m.r.Set(PC, m.r.Get(PC) + 1)
    ensures Ldhan(m).mem == m.mem[0xFF00 + Peek(m, m.r.Get(PC) + 1) := m.r.Get(A)]
    ensures Ldhan(m) == Ldhna(m)
  {
  }

  // ---------------------------------------------------------------------
  // Stack (pythongb/cpu.py:73-78, 232-245, 1081-1231)

  /** `pushnn` followed by `popnn` on the same pair restores every register
      and flag; the pair's values stay on the stack below the old SP. */
  lemma PushThenPop(m: Machine, a: Reg, b: Reg)
    requires a != SP && b != SP && 2 <= m.r.Get(SP) <= MemSize
    ensures Pushnn(m, a, b).r.Get(SP) == m.r.Get(SP) - 2
    ensures Pushnn(m, a, b).mem[m.r.Get(SP) - 1] == m.r.Get(a)
    ensures Pushnn(m, a, b).mem[m.r.Get(SP) - 2] == m.r.Get(b)
    ensures Popnn(Pushnn(m, a, b), a, b).r == m.r
    ensures Popnn(Pushnn(m, a, b), a, b).flag == m.flag
  {
    var p := Pushnn(m, a, b);
    var q := Popnn(p, a, b);
    assert q.r == m.r;
  }

  /** `pushpc` stores the high byte of PC at SP-1 and the low byte at SP-2;
      `ret` reads them back, so PC and SP are restored for every PC, and
      `reti` also sets IME. */
  lemma PushPcThenRet(m: Machine)
    requires 2 <= m.r.Get(SP) <= MemSize
    ensures PushPc(m).r == m.r.Set(SP, m.r.Get(SP) - 2)
    ensures PushPc(m).mem[m.r.Get(SP) - 1] == Shr(m.r.Get(PC), 8)
    ensures PushPc(m).mem[m.r.Get(SP) - 2] == And(m.r.Get(PC), 0x00FF)
    ensures Ret(PushPc(m)).r == m.r && Ret(PushPc(m)).flag == m.flag
    ensures Reti(PushPc(m)).r == m.r.Set(IME, 1)
  {
    SplitJoin(m.r.Get(PC));
    assert Ret(PushPc(m)).r == m.r;
  }

  /** `callnn` pushes the address of the call opcode itself, not of the
      instruction after it, so a `ret` comes back to the call: PC and SP
      are those from before the call. */
  lemma CallThenRet(m: Machine)
    requires 2 <= m.r.Get(SP) <= MemSize
    ensures Ret(Callnn(m)).r.Get(PC) == m.r.Get(PC)
    ensures Ret(Callnn(m)).r.Get(SP) == m.r.Get(SP)
  {
    SplitJoin(m.r.Get(PC));
    var p := PushPc(m);
    assert p.mem[m.r.Get(SP) - 1] == Shr(m.r.Get(PC), 8);
    assert p.mem[m.r.Get(SP) - 2] == And(m.r.Get(PC), 0x00FF);
  }

  /** `rstn` pushes PC and jumps to `0x0000 + n`. */
  lemma RstJumps(m: Machine, n: int)
    requires 2 <= m.r.Get(SP) <= MemSize
    ensures Rstn(m, n).r == m.r.Set(SP, m.r.Get(SP) - 2).Set(PC, n)
    ensures Ret(Rstn(m, n)).r.Get(PC) == m.r.Get(PC)
  {
    SplitJoin(m.r.Get(PC));
  }

  // ---------------------------------------------------------------------
  // Jumps and calls (pythongb/cpu.py:987-1163)

  /** A conditional jump or call whose condition fails steps over its two
      immediate bytes (`jr` over one) and changes nothing else; a
      conditional return that fails changes nothing at all. */
  lemma UntakenBranches(m: Machine, cond: Cond)
    requires !Holds(m, cond)
    ensures Jpcc(m, cond).r == m.r.Set(PC, m.r.Get(PC) + 2)
    ensures Jpcc(m, cond).flag == m.flag && Jpcc(m, cond).mem == m.mem
    ensures Callcc(m, cond).r == m.r.Set(PC, m.r.Get(PC) + 2)
    ensures Callcc(m, cond).flag == m.flag && Callcc(m, cond).mem == m.mem
    ensures Jrcc(m, cond).r == m.r.Set(PC, m.r.Get(PC) + 1)
    ensures Jrcc(m, cond).flag == m.flag && Jrcc(m, cond).mem == m.mem
    ensures Retcc(m, cond) == m
  {
  }

  /** A conditional jump, relative jump, call or return whose condition
      holds does what its unconditional form does; `jpnn` reads its target
      big-endian and `callnn` little-endian. */
  lemma TakenBranches(m: Machine, cond: Cond)
    requires Holds(m, cond)
    ensures Jpcc(m, cond) == Jpnn(m)
    ensures Jrcc(m, cond) == Jrn(m)
    ensures Callcc(m, cond) == Callnn(m)
    ensures Retcc(m, cond) == Ret(m)
  {
  }

  /** `jpnn` reads its target high byte first; `jrn` adds the byte after
      the opcode to the program counter. */
  lemma JumpTargets(m: Machine)
    requires 0 <= Peek(m, m.r.Get(PC) + 1) < 256 && 0 <= Peek(m, m.r.Get(PC) + 2) < 256
    ensures Jpnn(m).r.Get(PC) == Peek(m, m.r.Get(PC) + 1) * 256 + Peek(m, m.r.Get(PC) + 2)
    ensures Jrn(m).r.Get(PC) == m.r.Get(PC) + Peek(m, m.r.Get(PC) + 1)
  {
    assert Pow2(8) == 256;
    OrShlLow(Peek(m, m.r.Get(PC) + 1), 8, Peek(m, m.r.Get(PC) + 2));
  }

  /** `callnn` reads its target low byte first and pushes two bytes, when
      the pushed bytes do not overwrite the operand. */
  lemma CallTarget(m: Machine)
    requires 0 <= Peek(m, m.r.Get(PC) + 1) < 256 && 0 <= Peek(m, m.r.Get(PC) + 2) < 256
    requires 2 <= m.r.Get(SP) <= MemSize
    requires m.r.Get(SP) - 2 > m.r.Get(PC) + 2 || m.r.Get(SP) - 1 < m.r.Get(PC) + 1
    ensures Callnn(m).r.Get(PC) == Peek(m, m.r.Get(PC) + 2) * 256 + Peek(m, m.r.Get(PC) + 1)
    ensures Callnn(m).r.Get(SP) == m.r.Get(SP) - 2
  {
    assert Pow2(8) == 256;
    OrShlLow(Peek(m, m.r.Get(PC) + 2), 8, Peek(m, m.r.Get(PC) + 1));
    var p := PushPc(m);
    assert Peek(p, m.r.Get(PC) + 1) == Peek(m, m.r.Get(PC) + 1);
    assert Peek(p, m.r.Get(PC) + 2) == Peek(m, m.r.Get(PC) + 2);
  }
}
