/** The two dispatch dictionaries of pythongb/cpu.py: `executeOpcode`
    (cpu.py:1415-1781), keyed by the opcode byte, and the CB-prefixed table
    (`cbtable`, cpu.py:1233-1322, and `cbtable_test`, cpu.py:1324-1413, which
    hold the same 64 entries).  A dictionary entry names a CPU method and its
    arguments; it is modelled as an `Op` value, and a missing key as the
    `KeyError` outcome.  The cycle counts stored beside each entry are never
    read and are not modelled. */
module Decode {
  import S = Semantics
  import P = CpuProperties

  /** The methods `executeOpcode` can name, one constructor per method, with
      the arguments the dictionary passes. */
  datatype Op =
    | Ldnnn(nn: S.Reg) | Ldr1r2(r1: S.Reg, r2: S.Reg) | Ldr1hl(r1: S.Reg) | Ldhlr2(r2: S.Reg)
    | Ldhln | Ldab(a: S.Reg, b: S.Reg) | Ldann | Ldae | Ldna(n: S.Reg) | Ldaba(a: S.Reg, b: S.Reg)
    | Ldnna | Ldac | Ldca | Lddahl | Lddhla | Ldiahl | Ldihla | Ldhan
    | Ldnnn16(a: S.Reg, b: S.Reg) | Ldsphl | Ldhlspn | Ldnnsp
    | Pushnn(a: S.Reg, b: S.Reg) | Popnn(a: S.Reg, b: S.Reg)
    | Addan(n: S.Reg) | Addahl | Addanext | Adcan(n: S.Reg) | Adcahl | Adcanext
    | Subn(n: S.Reg) | Subhl | Subnext | Sbcan(n: S.Reg) | Sbcahl
    | Andn(n: S.Reg) | Andhl | Andnext | Orn(n: S.Reg) | Orhl | Ornext
    | Xorn(n: S.Reg) | Xorhl | Xornext | Cpn(n: S.Reg) | Cphl | Cpnext
    | Incn(n: S.Reg) | Inchl | Decn(n: S.Reg) | Dechl
    | Addhln(a: S.Reg, b: S.Reg) | Addhlsp | Addspn
    | Incnn(a: S.Reg, b: S.Reg) | Incsp | Decnn(a: S.Reg, b: S.Reg) | Decsp
    | Daa | Cpl | Ccf | Scf | Nop | Halt | Stop | Di | Ei
    | Rlca | Rla | Rrca | Rra
    | Jpnn | Jpnznn | Jpznn | Jpncnn | Jpcnn | Jphl
    | Jrn | Jrnzn | Jrzn | Jrncn | Jrcn
    | Callnn | Callnznn | Callznn | Callncnn | Callcnn
    | Rstn(addr: int) | Ret | Retnz | Retz | Retnc | Retc | Reti
    | Cbtable

  /** The methods the CB-prefixed table can name. */
  datatype CbOp =
    | Swapn(n: S.Reg) | Swaphl
    | Rlcn(n: S.Reg) | Rlchl | Rln(n: S.Reg) | Rlhl
    | Rrcn(n: S.Reg) | Rrchl | Rrn(n: S.Reg) | Rrhl
    | Slan(n: S.Reg) | Slahl | Sran(n: S.Reg) | Srahl | Srln(n: S.Reg)

  /** The result of indexing a dictionary and calling the method found:
      either the machine after the call, or the `KeyError` Python raises,
      with the machine as it was when the lookup failed. */
  datatype Outcome = Done(m: S.Machine) | KeyError(m: S.Machine, key: int)

  datatype Option<T> = None | Some(value: T)

  /** The dictionary built by `executeOpcode` (cpu.py:1416-1775), as a
      lookup: `None` for a missing key.  It is laid out as the 16 x 16
      opcode grid, one function per high nibble. */
  function OpcodeTable(opcode: int): Option<Op>
  {
    if opcode < 0 || 0x100 <= opcode then None
    else
      var lo := opcode % 0x10;
      match opcode / 0x10
      case 0x0 => Row0(lo)
      case 0x1 => Row1(lo)
      case 0x2 => Row2(lo)
      case 0x3 => Row3(lo)
      case 0x4 => Row4(lo)
      case 0x5 => Row5(lo)
      case 0x6 => Row6(lo)
      case 0x7 => Row7(lo)
      case 0x8 => Row8(lo)
      case 0x9 => Row9(lo)
      case 0xA => RowA(lo)
      case 0xB => RowB(lo)
      case 0xC => RowC(lo)
      case 0xD => RowD(lo)
      case 0xE => RowE(lo)
      case 0xF => RowF(lo)
      case _ => None
  }

  function Row0(lo: int): Option<Op>
  {
    match lo
    case 0x0 => Some(Nop)
    case 0x1 => Some(Ldnnn16(S.B, S.C))
    case 0x2 => Some(Ldaba(S.B, S.C))
    case 0x3 => Some(Incnn(S.B, S.C))
    case 0x4 => Some(Incn(S.B))
    case 0x5 => Some(Decn(S.B))
    case 0x6 => Some(Ldnnn(S.B))
    case 0x7 => Some(Rlca)
    case 0x8 => Some(Ldnnsp)
    case 0x9 => Some(Addhln(S.B, S.C))
    case 0xA => Some(Ldab(S.B, S.C))
    case 0xB => Some(Decnn(S.B, S.C))
    case 0xC => Some(Incn(S.C))
    case 0xD => Some(Decn(S.C))
    case 0xE => Some(Ldnnn(S.C))
    case 0xF => Some(Rrca)
    case _ => None
  }

  function Row1(lo: int): Option<Op>
  {
    match lo
    case 0x0 => Some(Stop)
    case 0x1 => Some(Ldnnn16(S.D, S.E))
    case 0x2 => Some(Ldaba(S.D, S.E))
    case 0x3 => Some(Incnn(S.D, S.E))
    case 0x4 => Some(Incn(S.D))
    case 0x5 => Some(Decn(S.D))
    case 0x6 => Some(Ldnnn(S.D))
    case 0x7 => Some(Rla)
    case 0x8 => Some(Jrn)
    case 0x9 => Some(Addhln(S.D, S.E))
    case 0xA => Some(Ldab(S.D, S.E))
    case 0xB => Some(Decnn(S.D, S.E))
    case 0xC => Some(Incn(S.E))
    case 0xD => Some(Decn(S.E))
    case 0xE => Some(Ldnnn(S.E))
    case 0xF => Some(Rra)
    case _ => None
  }

  function Row2(lo: int): Option<Op>
  {
    match lo
    case 0x0 => Some(Jrnzn)
    case 0x1 => Some(Ldnnn16(S.H, S.L))
    case 0x2 => Some(Ldihla)
    case 0x3 => Some(Incnn(S.H, S.L))
    case 0x4 => Some(Incn(S.H))
    case 0x5 => Some(Decn(S.H))
    case 0x6 => Some(Ldnnn(S.H))
    case 0x7 => Some(Daa)
    case 0x8 => Some(Jrzn)
    case 0x9 => Some(Addhln(S.H, S.L))
    case 0xA => Some(Ldiahl)
    case 0xB => Some(Decnn(S.H, S.L))
    case 0xC => Some(Incn(S.L))
    case 0xD => Some(Decn(S.L))
    case 0xE => Some(Ldnnn(S.L))
    case 0xF => Some(Cpl)
    case _ => None
  }

  function Row3(lo: int): Option<Op>
  {
    match lo
    case 0x0 => Some(Jrncn)
    case 0x1 => Some(Ldnnsp)
    case 0x2 => Some(Lddhla)
    case 0x3 => Some(Incsp)
    case 0x4 => Some(Inchl)
    case 0x5 => Some(Dechl)
    case 0x6 => Some(Ldhln)
    case 0x7 => Some(Scf)
    case 0x8 => Some(Jrcn)
    case 0x9 => Some(Addhlsp)
    case 0xA => Some(Lddahl)
    case 0xB => Some(Decsp)
    case 0xC => Some(Incn(S.A))
    case 0xD => Some(Decn(S.A))
    case 0xE => Some(Ldae)
    case 0xF => Some(Ccf)
    case _ => None
  }

  function Row4(lo: int): Option<Op>
  {
    match lo
    case 0x0 => Some(Ldr1r2(S.B, S.B))
    case 0x1 => Some(Ldr1r2(S.B, S.C))
    case 0x2 => Some(Ldr1r2(S.B, S.D))
    case 0x3 => Some(Ldr1r2(S.B, S.E))
    case 0x4 => Some(Ldr1r2(S.B, S.H))
    case 0x5 => Some(Ldr1r2(S.B, S.L))
    case 0x6 => Some(Ldr1hl(S.B))
    case 0x7 => Some(Ldna(S.B))
    case 0x8 => Some(Ldr1r2(S.C, S.B))
    case 0x9 => Some(Ldr1r2(S.C, S.C))
    case 0xA => Some(Ldr1r2(S.C, S.D))
    case 0xB => Some(Ldr1r2(S.C, S.E))
    case 0xC => Some(Ldr1r2(S.C, S.H))
    case 0xD => Some(Ldr1r2(S.C, S.L))
    case 0xE => Some(Ldr1hl(S.C))
    case 0xF => Some(Ldna(S.C))
    case _ => None
  }

  function Row5(lo: int): Option<Op>
  {
    match lo
    case 0x0 => Some(Ldr1r2(S.D, S.B))
    case 0x1 => Some(Ldr1r2(S.D, S.C))
    case 0x2 => Some(Ldr1r2(S.D, S.D))
    case 0x3 => Some(Ldr1r2(S.D, S.E))
    case 0x4 => Some(Ldr1r2(S.D, S.H))
    case 0x5 => Some(Ldr1r2(S.D, S.L))
    case 0x6 => Some(Ldr1hl(S.D))
    case 0x7 => Some(Ldna(S.D))
    case 0x8 => Some(Ldr1r2(S.E, S.B))
    case 0x9 => Some(Ldr1r2(S.E, S.C))
    case 0xA => Some(Ldr1r2(S.E, S.D))
    case 0xB => Some(Ldr1r2(S.E, S.E))
    case 0xC => Some(Ldr1r2(S.E, S.H))
    case 0xD => Some(Ldr1r2(S.E, S.L))
    case 0xE => Some(Ldr1hl(S.E))
    case 0xF => Some(Ldna(S.E))
    case _ => None
  }

  function Row6(lo: int): Option<Op>
  {
    match lo
    case 0x0 => Some(Ldr1r2(S.H, S.B))
    case 0x1 => Some(Ldr1r2(S.H, S.C))
    case 0x2 => Some(Ldr1r2(S.H, S.D))
    case 0x3 => Some(Ldr1r2(S.H, S.E))
    case 0x4 => Some(Ldr1r2(S.H, S.H))
    case 0x5 => Some(Ldr1r2(S.H, S.L))
    case 0x6 => Some(Ldr1hl(S.H))
    case 0x7 => Some(Ldna(S.H))
    case 0x8 => Some(Ldr1r2(S.L, S.B))
    case 0x9 => Some(Ldr1r2(S.L, S.C))
    case 0xA => Some(Ldr1r2(S.L, S.D))
    case 0xB => Some(Ldr1r2(S.L, S.E))
    case 0xC => Some(Ldr1r2(S.L, S.H))
    case 0xD => Some(Ldr1r2(S.L, S.L))
    case 0xE => Some(Ldr1hl(S.L))
    case 0xF => Some(Ldna(S.L))
    case _ => None
  }

  function Row7(lo: int): Option<Op>
  {
    match lo
    case 0x0 => Some(Ldhlr2(S.B))
    case 0x1 => Some(Ldhlr2(S.C))
    case 0x2 => Some(Ldhlr2(S.D))
    case 0x3 => Some(Ldhlr2(S.E))
    case 0x4 => Some(Ldhlr2(S.H))
    case 0x5 => Some(Ldhlr2(S.L))
    case 0x6 => Some(Halt)
    case 0x7 => Some(Ldaba(S.H, S.L))
    case 0x8 => Some(Ldr1r2(S.A, S.B))
    case 0x9 => Some(Ldr1r2(S.A, S.C))
    case 0xA => Some(Ldr1r2(S.A, S.D))
    case 0xB => Some(Ldr1r2(S.A, S.E))
    case 0xC => Some(Ldr1r2(S.A, S.H))
    case 0xD => Some(Ldr1r2(S.A, S.L))
    case 0xE => Some(Ldr1hl(S.A))
    case 0xF => Some(Ldr1r2(S.A, S.A))
    case _ => None
  }

  function Row8(lo: int): Option<Op>
  {
    match lo
    case 0x0 => Some(Addan(S.B))
    case 0x1 => Some(Addan(S.C))
    case 0x2 => Some(Addan(S.D))
    case 0x3 => Some(Addan(S.E))
    case 0x4 => Some(Addan(S.H))
    case 0x5 => Some(Addan(S.L))
    case 0x6 => Some(Addahl)
    case 0x7 => Some(Addan(S.A))
    case 0x8 => Some(Adcan(S.B))
    case 0x9 => Some(Adcan(S.C))
    case 0xA => Some(Adcan(S.D))
    case 0xB => Some(Adcan(S.E))
    case 0xC => Some(Adcan(S.H))
    case 0xD => Some(Adcan(S.L))
    case 0xE => Some(Adcahl)
    case 0xF => Some(Adcan(S.A))
    case _ => None
  }

  function Row9(lo: int): Option<Op>
  {
    match lo
    case 0x0 => Some(Subn(S.B))
    case 0x1 => Some(Subn(S.C))
    case 0x2 => Some(Subn(S.D))
    case 0x3 => Some(Subn(S.E))
    case 0x4 => Some(Subn(S.H))
    case 0x5 => Some(Subn(S.L))
    case 0x6 => Some(Subhl)
    case 0x7 => Some(Subn(S.A))
    case 0x8 => Some(Sbcan(S.B))
    case 0x9 => Some(Sbcan(S.C))
    case 0xA => Some(Sbcan(S.D))
    case 0xB => Some(Sbcan(S.E))
    case 0xC => Some(Sbcan(S.H))
    case 0xD => Some(Sbcan(S.L))
    case 0xE => Some(Sbcahl)
    case 0xF => Some(Sbcan(S.A))
    case _ => None
  }

  function RowA(lo: int): Option<Op>
  {
    match lo
    case 0x0 => Some(Andn(S.B))
    case 0x1 => Some(Andn(S.C))
    case 0x2 => Some(Andn(S.D))
    case 0x3 => Some(Andn(S.E))
    case 0x4 => Some(Andn(S.H))
    case 0x5 => Some(Andn(S.L))
    case 0x6 => Some(Andhl)
    case 0x7 => Some(Andn(S.A))
    case 0x8 => Some(Xorn(S.B))
    case 0x9 => Some(Xorn(S.C))
    case 0xA => Some(Xorn(S.D))
    case 0xB => Some(Xorn(S.E))
    case 0xC => Some(Xorn(S.H))
    case 0xD => Some(Xorn(S.L))
    case 0xE => Some(Xorhl)
    case 0xF => Some(Xorn(S.A))
    case _ => None
  }

  function RowB(lo: int): Option<Op>
  {
    match lo
    case 0x0 => Some(Orn(S.B))
    case 0x1 => Some(Orn(S.C))
    case 0x2 => Some(Orn(S.D))
    case 0x3 => Some(Orn(S.E))
    case 0x4 => Some(Orn(S.H))
    case 0x5 => Some(Orn(S.L))
    case 0x6 => Some(Orhl)
    case 0x7 => Some(Orn(S.A))
    case 0x8 => Some(Cpn(S.B))
    case 0x9 => Some(Cpn(S.C))
    case 0xA => Some(Cpn(S.D))
    case 0xB => Some(Cpn(S.E))
    case 0xC => Some(Cpn(S.H))
    case 0xD => Some(Cpn(S.L))
    case 0xE => Some(Cphl)
    case 0xF => Some(Cpn(S.A))
    case _ => None
  }

  function RowC(lo: int): Option<Op>
  {
    match lo
    case 0x0 => Some(Retnz)
    case 0x1 => Some(Popnn(S.B, S.C))
    case 0x2 => Some(Jpnznn)
    case 0x3 => Some(Jpnn)
    case 0x4 => Some(Callnznn)
    case 0x5 => Some(Pushnn(S.B, S.C))
    case 0x6 => Some(Addanext)
    case 0x7 => Some(Rstn(0x00))
    case 0x8 => Some(Retz)
    case 0x9 => Some(Ret)
    case 0xA => Some(Jpznn)
    case 0xB => Some(Cbtable)
    case 0xC => Some(Callznn)
    case 0xD => Some(Callnn)
    case 0xE => Some(Adcanext)
    case 0xF => Some(Rstn(0x08))
    case _ => None
  }

  function RowD(lo: int): Option<Op>
  {
    match lo
    case 0x0 => Some(Retnc)
    case 0x1 => Some(Popnn(S.D, S.E))
    case 0x2 => Some(Jpncnn)
    case 0x4 => Some(Callncnn)
    case 0x5 => Some(Pushnn(S.D, S.E))
    case 0x6 => Some(Subnext)
    case 0x7 => Some(Rstn(0x10))
    case 0x8 => Some(Retc)
    case 0x9 => Some(Reti)
    case 0xA => Some(Jpcnn)
    case 0xC => Some(Callcnn)
    case 0xF => Some(Rstn(0x18))
    case _ => None
  }

  function RowE(lo: int): Option<Op>
  {
    match lo
    case 0x0 => Some(Ldhan)
    case 0x1 => Some(Popnn(S.H, S.L))
    case 0x2 => Some(Ldca)
    case 0x5 => Some(Pushnn(S.H, S.L))
    case 0x6 => Some(Andnext)
    case 0x7 => Some(Rstn(0x20))
    case 0x8 => Some(Addspn)
    case 0x9 => Some(Jphl)
    case 0xA => Some(Ldnna)
    case 0xE => Some(Xornext)
    case 0xF => Some(Rstn(0x28))
    case _ => None
  }

  function RowF(lo: int): Option<Op>
  {
    match lo
    case 0x0 => Some(Ldhan)
    case 0x1 => Some(Popnn(S.A, S.F))
    case 0x2 => Some(Ldac)
    case 0x3 => Some(Di)
    case 0x5 => Some(Pushnn(S.A, S.F))
    case 0x6 => Some(Ornext)
    case 0x7 => Some(Rstn(0x30))
    case 0x8 => Some(Ldhlspn)
    case 0x9 => Some(Ldsphl)
    case 0xA => Some(Ldann)
    case 0xB => Some(Ei)
    case 0xE => Some(Cpnext)
    case 0xF => Some(Rstn(0x38))
    case _ => None
  }

  /** The dictionary built by `cbtable` and `cbtable_test`
      (cpu.py:1236-1318 and 1326-1408), as a lookup; 0x3E names `srahl`,
      so `srl (hl)` has no entry. */
  function CbTable(opcode: int): Option<CbOp>
  {
    match opcode
    case 0x00 => Some(Rlcn(S.B))
    case 0x01 => Some(Rlcn(S.C))
    case 0x02 => Some(Rlcn(S.D))
    case 0x03 => Some(Rlcn(S.E))
    case 0x04 => Some(Rlcn(S.H))
    case 0x05 => Some(Rlcn(S.L))
    case 0x06 => Some(Rlchl)
    case 0x07 => Some(Rlcn(S.A))
    case 0x08 => Some(Rrcn(S.B))
    case 0x09 => Some(Rrcn(S.C))
    case 0x0A => Some(Rrcn(S.D))
    case 0x0B => Some(Rrcn(S.E))
    case 0x0C => Some(Rrcn(S.H))
    case 0x0D => Some(Rrcn(S.L))
    case 0x0E => Some(Rrchl)
    case 0x0F => Some(Rrcn(S.A))
    case 0x10 => Some(Rln(S.B))
    case 0x11 => Some(Rln(S.C))
    case 0x12 => Some(Rln(S.D))
    case 0x13 => Some(Rln(S.E))
    case 0x14 => Some(Rln(S.H))
    case 0x15 => Some(Rln(S.L))
    case 0x16 => Some(Rlhl)
    case 0x17 => Some(Rln(S.A))
    case 0x18 => Some(Rrn(S.B))
    case 0x19 => Some(Rrn(S.C))
    case 0x1A => Some(Rrn(S.D))
    case 0x1B => Some(Rrn(S.E))
    case 0x1C => Some(Rrn(S.H))
    case 0x1D => Some(Rrn(S.L))
    case 0x1E => Some(Rrhl)
    case 0x1F => Some(Rrn(S.A))
    case 0x20 => Some(Slan(S.B))
    case 0x21 => Some(Slan(S.C))
    case 0x22 => Some(Slan(S.D))
    case 0x23 => Some(Slan(S.E))
    case 0x24 => Some(Slan(S.H))
    case 0x25 => Some(Slan(S.L))
    case 0x26 => Some(Slahl)
    case 0x27 => Some(Slan(S.A))
    case 0x28 => Some(Sran(S.B))
    case 0x29 => Some(Sran(S.C))
    case 0x2A => Some(Sran(S.D))
    case 0x2B => Some(Sran(S.E))
    case 0x2C => Some(Sran(S.H))
    case 0x2D => Some(Sran(S.L))
    case 0x2E => Some(Srahl)
    case 0x2F => Some(Sran(S.A))
    case 0x30 => Some(Swapn(S.B))
    case 0x31 => Some(Swapn(S.C))
    case 0x32 => Some(Swapn(S.D))
    case 0x33 => Some(Swapn(S.E))
    case 0x34 => Some(Swapn(S.H))
    case 0x35 => Some(Swapn(S.L))
    case 0x36 => Some(Swaphl)
    case 0x37 => Some(Swapn(S.A))
    case 0x38 => Some(Srln(S.B))
    case 0x39 => Some(Srln(S.C))
    case 0x3A => Some(Srln(S.D))
    case 0x3B => Some(Srln(S.E))
    case 0x3C => Some(Srln(S.H))
    case 0x3D => Some(Srln(S.L))
    case 0x3E => Some(Srahl)
    case 0x3F => Some(Srln(S.A))
    case _ => None
  }

  /** Calling the method a CB entry names. */
  function RunCb(m: S.Machine, op: CbOp): S.Machine
  {
    match op
    case Swapn(n) => S.Swap(m, S.RegCell(n))
    case Swaphl => S.Swap(m, S.HlCell)
    case Rlcn(n) => S.Shift(m, S.Rlc, S.RegCell(n))
    case Rlchl => S.Shift(m, S.Rlc, S.HlCell)
    case Rln(n) => S.Shift(m, S.Rl, S.RegCell(n))
    case Rlhl => S.Shift(m, S.Rl, S.HlCell)
    case Rrcn(n) => S.Shift(m, S.Rrc, S.RegCell(n))
    case Rrchl => S.Shift(m, S.Rrc, S.HlCell)
    case Rrn(n) => S.Shift(m, S.Rr, S.RegCell(n))
    case Rrhl => S.Shift(m, S.Rr, S.HlCell)
    case Slan(n) => S.Shift(m, S.Sla, S.RegCell(n))
    case Slahl => S.Shift(m, S.Sla, S.HlCell)
    case Sran(n) => S.Shift(m, S.Sra, S.RegCell(n))
    case Srahl => S.Shift(m, S.Sra, S.HlCell)
    case Srln(n) => S.Shift(m, S.Srl, S.RegCell(n))
  }

  /** `cbtable_test` (cpu.py:1324-1413): the table indexed by the opcode. */
  function CbtableTest(m: S.Machine, opcode: int): (r: Outcome)
    ensures CbTable(opcode).None? ==> r == KeyError(m, opcode)
    ensures CbTable(opcode).Some? ==> r.Done?
  {
    match CbTable(opcode)
    case Some(op) => Done(RunCb(m, op))
    case None => KeyError(m, opcode)
  }

  /** `cbtable` (cpu.py:1233-1322): steps PC, then indexes the table by the
      new PC value itself rather than by the byte stored there. */
  function CbtableByPc(m: S.Machine): (r: Outcome)
    ensures r.m.r.Get(S.PC) == m.r.Get(S.PC) + 1 || r.Done?
  {
    var m1 := S.IncPc(m);
    CbtableTest(m1, m1.r.Get(S.PC))
  }

  /** Calling the method an `executeOpcode` entry names. */
  function Run(m: S.Machine, op: Op): Outcome
  {
    match op
    case Cbtable => CbtableByPc(m)
    case _ => Done(Apply(m, op))
  }

  /** Calling the method of an entry other than `cbtable`; the entries are
      grouped as the sections of the class group them. */
  function Apply(m: S.Machine, op: Op): S.Machine
    requires !op.Cbtable?
  {
    if IsLoad(op) then ApplyLoad(m, op)
    else if IsStack(op) then ApplyStack(m, op)
    else if IsArith(op) then ApplyArith(m, op)
    else if IsWide(op) then ApplyWide(m, op)
    else if IsMisc(op) then ApplyMisc(m, op)
    else if IsJump(op) then ApplyJump(m, op)
    else ApplyCall(m, op)
  }

  /** The entries that call the 8-bit loads. */
  predicate IsLoad(op: Op)
  {
    op.Ldnnn?
    || op.Ldr1r2?
    || op.Ldr1hl?
    || op.Ldhlr2?
    || op.Ldhln?
    || op.Ldab?
    || op.Ldann?
    || op.Ldae?
    || op.Ldna?
    || op.Ldaba?
    || op.Ldnna?
    || op.Ldac?
    || op.Ldca?
    || op.Lddahl?
    || op.Lddhla?
    || op.Ldiahl?
    || op.Ldihla?
    || op.Ldhan?
  }

  /** The entries that call the 16-bit loads, pushes and pops. */
  predicate IsStack(op: Op)
  {
    op.Ldnnn16?
    || op.Ldsphl?
    || op.Ldhlspn?
    || op.Ldnnsp?
    || op.Pushnn?
    || op.Popnn?
  }

  /** The entries that call the 8-bit arithmetic and logic. */
  predicate IsArith(op: Op)
  {
    op.Addan?
    || op.Addahl?
    || op.Addanext?
    || op.Adcan?
    || op.Adcahl?
    || op.Adcanext?
    || op.Subn?
    || op.Subhl?
    || op.Subnext?
    || op.Sbcan?
    || op.Sbcahl?
    || op.Andn?
    || op.Andhl?
    || op.Andnext?
    || op.Orn?
    || op.Orhl?
    || op.Ornext?
    || op.Xorn?
    || op.Xorhl?
    || op.Xornext?
    || op.Cpn?
    || op.Cphl?
    || op.Cpnext?
  }

  /** The entries that call the increments, decrements and 16-bit arithmetic. */
  predicate IsWide(op: Op)
  {
    op.Incn?
    || op.Inchl?
    || op.Decn?
    || op.Dechl?
    || op.Addhln?
    || op.Addhlsp?
    || op.Addspn?
    || op.Incnn?
    || op.Incsp?
    || op.Decnn?
    || op.Decsp?
  }

  /** The entries that call the miscellaneous methods and the rotates of A. */
  predicate IsMisc(op: Op)
  {
    op.Daa?
    || op.Cpl?
    || op.Ccf?
    || op.Scf?
    || op.Nop?
    || op.Halt?
    || op.Stop?
    || op.Di?
    || op.Ei?
    || op.Rlca?
    || op.Rla?
    || op.Rrca?
    || op.Rra?
  }

  /** The entries that call the jumps. */
  predicate IsJump(op: Op)
  {
    op.Jpnn?
    || op.Jpnznn?
    || op.Jpznn?
    || op.Jpncnn?
    || op.Jpcnn?
    || op.Jphl?
    || op.Jrn?
    || op.Jrnzn?
    || op.Jrzn?
    || op.Jrncn?
    || op.Jrcn?
  }

  /** The entries that call the calls, restarts and returns. */
  predicate IsCall(op: Op)
  {
    op.Callnn?
    || op.Callnznn?
    || op.Callznn?
    || op.Callncnn?
    || op.Callcnn?
    || op.Rstn?
    || op.Ret?
    || op.Retnz?
    || op.Retz?
    || op.Retnc?
    || op.Retc?
    || op.Reti?
  }

  function ApplyLoad(m: S.Machine, op: Op): S.Machine
    requires IsLoad(op)
  {
    match op
    case Ldnnn(nn) => S.Ldnnn(m, nn)
    case Ldr1r2(r1, r2) => S.Ldr1r2(m, r1, r2)
    case Ldr1hl(r1) => S.Ldr1hl(m, r1)
    case Ldhlr2(r2) => S.Ldhlr2(m, r2)
    case Ldhln => S.Ldhln(m)
    case Ldab(a, b) => S.Ldab(m, a, b)
    case Ldann => S.Ldann(m)
    case Ldae => S.Ldae(m)
    case Ldna(n) => S.Ldna(m, n)
    case Ldaba(a, b) => S.Ldaba(m, a, b)
    case Ldnna => S.Ldnna(m)
    case Ldac => S.Ldac(m)
    case Ldca => S.Ldca(m)
    case Lddahl => S.Lddahl(m)
    case Lddhla => S.Lddhla(m)
    case Ldiahl => S.Ldiahl(m)
    case Ldihla => S.Ldihla(m)
    case Ldhan => S.Ldhan(m)
  }

  function ApplyStack(m: S.Machine, op: Op): S.Machine
    requires IsStack(op)
  {
    match op
    case Ldnnn16(a, b) => S.Ldnnn16(m, a, b)
    case Ldsphl => S.Ldsphl(m)
    case Ldhlspn => S.Ldhlspn(m)
    case Ldnnsp => S.Ldnnsp(m)
    case Pushnn(a, b) => S.Pushnn(m, a, b)
    case Popnn(a, b) => S.Popnn(m, a, b)
  }

  function ApplyArith(m: S.Machine, op: Op): S.Machine
    requires IsArith(op)
  {
    match op
    case Addan(n) => S.Add(m, S.Reg8(n))
    case Addahl => S.Add(m, S.AtHl)
    case Addanext => S.Add(m, S.Next)
    case Adcan(n) => S.Adc(m, S.Reg8(n))
    case Adcahl => S.Adc(m, S.AtHl)
    case Adcanext => S.Adc(m, S.Next)
    case Subn(n) => S.Sub(m, S.Reg8(n))
    case Subhl => S.Sub(m, S.AtHl)
    case Subnext => S.Sub(m, S.Next)
    case Sbcan(n) => S.Sbc(m, S.Reg8(n))
    case Sbcahl => S.Sbc(m, S.AtHl)
    case Andn(n) => S.AndA(m, S.Reg8(n))
    case Andhl => S.AndA(m, S.AtHl)
    case Andnext => S.AndA(m, S.Next)
    case Orn(n) => S.OrA(m, S.Reg8(n))
    case Orhl => S.OrA(m, S.AtHl)
    case Ornext => S.OrA(m, S.Next)
    case Xorn(n) => S.XorA(m, S.Reg8(n))
    case Xorhl => S.XorA(m, S.AtHl)
    case Xornext => S.XorA(m, S.Next)
    case Cpn(n) => S.Cp(m, S.Reg8(n))
    case Cphl => S.Cp(m, S.AtHl)
    case Cpnext => S.Cp(m, S.Next)
  }

  function ApplyWide(m: S.Machine, op: Op): S.Machine
    requires IsWide(op)
  {
    match op
    case Incn(n) => S.Inc(m, S.RegCell(n))
    case Inchl => S.Inc(m, S.HlCell)
    case Decn(n) => S.Dec(m, S.RegCell(n))
    case Dechl => S.Dec(m, S.HlCell)
    case Addhln(a, b) => S.Addhln(m, a, b)
    case Addhlsp => S.Addhlsp(m)
    case Addspn => S.Addspn(m)
    case Incnn(a, b) => S.Incnn(m, a, b)
    case Incsp => S.Incsp(m)
    case Decnn(a, b) => S.Decnn(m, a, b)
    case Decsp => S.Decsp(m)
  }

  function ApplyMisc(m: S.Machine, op: Op): S.Machine
    requires IsMisc(op)
  {
    match op
    case Daa => m
    case Cpl => S.Cpl(m)
    case Ccf => S.Ccf(m)
    case Scf => S.Scf(m)
    case Nop => m
    case Halt => m
    case Stop => m
    case Di => S.Di(m)
    case Ei => S.Ei(m)
    case Rlca => S.Shift(m, S.Rlc, S.RegCell(S.A))
    case Rla => S.Shift(m, S.Rl, S.RegCell(S.A))
    case Rrca => S.Shift(m, S.Rrc, S.RegCell(S.A))
    case Rra => S.Shift(m, S.Rr, S.RegCell(S.A))
  }

  function ApplyJump(m: S.Machine, op: Op): S.Machine
    requires IsJump(op)
  {
    match op
    case Jpnn => S.Jpnn(m)
    case Jpnznn => S.Jpcc(m, S.When(S.Zero, 0))
    case Jpznn => S.Jpcc(m, S.When(S.Zero, 1))
    case Jpncnn => S.Jpcc(m, S.When(S.Carry, 0))
    case Jpcnn => S.Jpcc(m, S.When(S.Carry, 1))
    case Jphl => S.Jphl(m)
    case Jrn => S.Jrn(m)
    case Jrnzn => S.Jrcc(m, S.When(S.Zero, 0))
    case Jrzn => S.Jrcc(m, S.When(S.Zero, 1))
    case Jrncn => S.Jrcc(m, S.When(S.Carry, 0))
    case Jrcn => S.Jrcc(m, S.When(S.Carry, 1))
  }

  function ApplyCall(m: S.Machine, op: Op): S.Machine
    requires IsCall(op)
  {
    match op
    case Callnn => S.Callnn(m)
    case Callnznn => S.Callcc(m, S.When(S.Zero, 0))
    case Callznn => S.Callcc(m, S.When(S.Zero, 1))
    case Callncnn => S.Callcc(m, S.When(S.Carry, 0))
    case Callcnn => S.Callcc(m, S.When(S.Carry, 1))
    case Rstn(addr) => S.Rstn(m, addr)
    case Ret => S.Ret(m)
    case Retnz => S.Retcc(m, S.When(S.Zero, 0))
    case Retz => S.Retcc(m, S.When(S.Zero, 1))
    case Retnc => S.Retcc(m, S.When(S.Carry, 0))
    case Retc => S.Retcc(m, S.When(S.Carry, 1))
    case Reti => S.Reti(m)
  }

  /** `executeOpcode` (cpu.py:1415-1781): a key missing from the dictionary
      raises before anything is changed. */
  function ExecuteOpcode(m: S.Machine, opcode: int): (r: Outcome)
    ensures OpcodeTable(opcode).None? ==> r == KeyError(m, opcode)
  {
    match OpcodeTable(opcode)
    case Some(op) => Run(m, op)
    case None => KeyError(m, opcode)
  }

  /** One turn of the emulator loop (pythongb/gb.py:51-56): execute the
      opcode stored at PC, then step PC past it. */
  function Step(m: S.Machine): Outcome
  {
    match ExecuteOpcode(m, S.Peek(m, m.r.Get(S.PC)))
    case Done(m1) => Done(S.IncPc(m1))
    case KeyError(m1, key) => KeyError(m1, key)
  }

  // ---------------------------------------------------------------------
  // What the dictionaries hold

  /** The twelve bytes `executeOpcode` has no entry for. */
  predicate Unlisted(opcode: int)
  {
    opcode == 0xD3 || opcode == 0xDB || opcode == 0xDD || opcode == 0xDE ||
    opcode == 0xE3 || opcode == 0xE4 || opcode == 0xEB || opcode == 0xEC ||
    opcode == 0xED || opcode == 0xF4 || opcode == 0xFC || opcode == 0xFD
  }

  /** Every byte except the twelve unlisted ones has an entry. */
  lemma ListedOpcodes(opcode: int)
    requires 0 <= opcode < 0x100 && !Unlisted(opcode)
    ensures OpcodeTable(opcode).Some?
  {
  }

  /** What `executeOpcode` does with a key whose entry is known. */
  lemma ExecuteEntry(m: S.Machine, opcode: int, op: Op)
    requires OpcodeTable(opcode) == Some(op)
    ensures ExecuteOpcode(m, opcode) == Run(m, op)
    ensures !op.Cbtable? ==> ExecuteOpcode(m, opcode) == Done(Apply(m, op))
  {
  }

  /** An unlisted byte has no entry. */
  lemma UnlistedMissing(opcode: int)
    requires Unlisted(opcode)
    ensures OpcodeTable(opcode).None?
  {
  }

  /** An unlisted byte makes `executeOpcode` raise `KeyError` with nothing
      changed. */
  lemma UnlistedOpcodes(m: S.Machine, opcode: int)
    requires Unlisted(opcode)
    ensures ExecuteOpcode(m, opcode) == KeyError(m, opcode)
  {
    UnlistedMissing(opcode);
  }
  /** 0xCB is the only entry that dispatches to the CB table. */
  lemma OnlyCbPrefix(opcode: int)
    ensures OpcodeTable(opcode) == Some(Cbtable) <==> opcode == 0xCB
  {
  }

  /** The CB table has exactly the keys 0x00-0x3F. */
  lemma CbKeys(opcode: int)
    ensures CbTable(opcode).Some? <==> 0 <= opcode < 0x40
  {
  }

  /** Since `cbtable` looks up the incremented PC value, the CB dispatch
      succeeds exactly when that value is below 0x40, and then does what
      `cbtable_test` does for that key after stepping PC. */
  lemma CbDispatchByPc(m: S.Machine)
    ensures CbtableByPc(m).Done? <==> 0 <= m.r.Get(S.PC) + 1 < 0x40
    ensures CbtableByPc(m).KeyError? ==>
              CbtableByPc(m) == KeyError(S.IncPc(m), m.r.Get(S.PC) + 1)
  {
    CbKeys(m.r.Get(S.PC) + 1);
  }

  /** On a listed byte, `executeOpcode` raises only through the CB
      dispatch. */
  lemma ListedOpcodeFails(m: S.Machine, opcode: int)
    requires 0 <= opcode < 0x100 && !Unlisted(opcode)
    ensures ExecuteOpcode(m, opcode).KeyError? <==>
              opcode == 0xCB && !(0 <= m.r.Get(S.PC) + 1 < 0x40)
  {
    ListedOpcodes(opcode);
    OnlyCbPrefix(opcode);
    var op := OpcodeTable(opcode).value;
    ExecuteEntry(m, opcode, op);
    if op.Cbtable? {
      CbDispatchByPc(m);
    }
  }

  /** `executeOpcode` raises exactly for the unlisted bytes, for keys that
      are not bytes, and for 0xCB when the CB lookup fails. */
  lemma ExecuteOpcodeFails(m: S.Machine, opcode: int)
    ensures ExecuteOpcode(m, opcode).KeyError? <==>
              opcode < 0 || 0x100 <= opcode || Unlisted(opcode) ||
              (opcode == 0xCB && !(0 <= m.r.Get(S.PC) + 1 < 0x40))
  {
    if Unlisted(opcode) {
      UnlistedOpcodes(m, opcode);
    } else if 0 <= opcode < 0x100 {
      ListedOpcodeFails(m, opcode);
    }
  }

  /** 0xE0 and 0xF0 both run `ldhan`. */
  lemma LdhanTwice(m: S.Machine)
    ensures OpcodeTable(0xE0) == OpcodeTable(0xF0) == Some(Ldhan)
    ensures ExecuteOpcode(m, 0xE0) == ExecuteOpcode(m, 0xF0)
  {
  }

  /** The `srl (hl)` slot 0x3E runs `srahl`, as 0x2E does. */
  lemma SrlSlotRunsSra(m: S.Machine)
    ensures CbTable(0x3E) == CbTable(0x2E) == Some(Srahl)
    ensures CbtableTest(m, 0x3E) == CbtableTest(m, 0x2E)
  {
  }

  /** A register other than PC, SP and IME. */
  predicate Narrow(r: S.Reg)
  {
    r != S.PC && r != S.SP && r != S.IME
  }

  /** The methods in rows 0x40-0x7F of the grid: register loads, loads
      through HL, and `halt`. */
  predicate RegisterLoad(op: Op)
  {
    match op
    case Ldr1r2(r1, _) => Narrow(r1)
    case Ldr1hl(r1) => Narrow(r1)
    case Ldhlr2(_) => true
    case Ldna(n) => Narrow(n)
    case Ldaba(_, _) => true
    case Halt => true
    case _ => false
  }

  /** Rows 0x4 and 0x5 of the grid are full of register loads. */
  lemma LoadRowsLow(lo: int)
    requires 0 <= lo < 0x10
    ensures Row4(lo).Some? && RegisterLoad(Row4(lo).value)
    ensures Row5(lo).Some? && RegisterLoad(Row5(lo).value)
  {
  }

  /** Rows 0x6 and 0x7 of the grid are full of register loads. */
  lemma LoadRowsHigh(lo: int)
    requires 0 <= lo < 0x10
    ensures Row6(lo).Some? && RegisterLoad(Row6(lo).value)
    ensures Row7(lo).Some? && RegisterLoad(Row7(lo).value)
  {
  }

  /** Opcodes 0x40-0x7F are all register loads. */
  lemma RegisterLoadRows(opcode: int)
    requires 0x40 <= opcode < 0x80
    ensures OpcodeTable(opcode).Some? && RegisterLoad(OpcodeTable(opcode).value)
  {
    LoadRowsLow(opcode % 0x10);
    LoadRowsHigh(opcode % 0x10);
  }

  /** A register load never touches PC or SP. */
  lemma RegisterLoadKeepsPc(m: S.Machine, op: Op)
    requires RegisterLoad(op)
    ensures Apply(m, op).r.Get(S.PC) == m.r.Get(S.PC)
    ensures Apply(m, op).r.Get(S.SP) == m.r.Get(S.SP)
  {
  }

  /** A step over an opcode in 0x40-0x7F moves PC by exactly one. */
  lemma RegisterLoadsStep(m: S.Machine)
    requires 0x40 <= S.Peek(m, m.r.Get(S.PC)) < 0x80
    ensures Step(m).Done?
    ensures Step(m).m.r.Get(S.PC) == m.r.Get(S.PC) + 1
    ensures Step(m).m.r.Get(S.SP) == m.r.Get(S.SP)
  {
    var opcode := S.Peek(m, m.r.Get(S.PC));
    RegisterLoadRows(opcode);
    var op := OpcodeTable(opcode).value;
    ExecuteEntry(m, opcode, op);
    RegisterLoadKeepsPc(m, op);
  }

  /** A step over `nop` (0x00) only moves PC. */
  lemma NopStep(m: S.Machine)
    requires S.Peek(m, m.r.Get(S.PC)) == 0x00
    ensures Step(m) == Done(S.IncPc(m))
  {
  }

  /** The four push opcodes and the pop opcodes four below them name the
      same register pair. */
  lemma StackEntries(push: int) returns (a: S.Reg, b: S.Reg)
    requires push == 0xC5 || push == 0xD5 || push == 0xE5 || push == 0xF5
    ensures OpcodeTable(push) == Some(Pushnn(a, b))
    ensures OpcodeTable(push - 4) == Some(Popnn(a, b))
    ensures a != S.SP && b != S.SP
  {
    a, b := if push == 0xC5 then S.B else if push == 0xD5 then S.D else if push == 0xE5 then S.H else S.A,
            if push == 0xC5 then S.C else if push == 0xD5 then S.E else if push == 0xE5 then S.L else S.F;
  }

  /** Each push opcode followed by the matching pop opcode restores every
      register, whatever the stack held. */
  lemma PushPopOpcodes(m: S.Machine, push: int)
    requires push == 0xC5 || push == 0xD5 || push == 0xE5 || push == 0xF5
    requires 2 <= m.r.Get(S.SP) <= S.MemSize
    ensures ExecuteOpcode(m, push).Done?
    ensures ExecuteOpcode(ExecuteOpcode(m, push).m, push - 4).Done?
    ensures ExecuteOpcode(ExecuteOpcode(m, push).m, push - 4).m.r == m.r
  {
    var a, b := StackEntries(push);
    var m1 := PushStep(m, push, a, b);
    var m2 := PopStep(m1, push - 4, a, b);
    P.PushThenPop(m, a, b);
  }

  /** A push opcode runs `pushnn` on its pair. */
  lemma PushStep(m: S.Machine, push: int, a: S.Reg, b: S.Reg) returns (m1: S.Machine)
    requires OpcodeTable(push) == Some(Pushnn(a, b))
    ensures ExecuteOpcode(m, push) == Done(m1) && m1 == S.Pushnn(m, a, b)
  {
    ExecuteEntry(m, push, Pushnn(a, b));
    m1 := S.Pushnn(m, a, b);
  }

  /** A pop opcode runs `popnn` on its pair. */
  lemma PopStep(m: S.Machine, pop: int, a: S.Reg, b: S.Reg) returns (m1: S.Machine)
    requires OpcodeTable(pop) == Some(Popnn(a, b))
    ensures ExecuteOpcode(m, pop) == Done(m1) && m1 == S.Popnn(m, a, b)
  {
    ExecuteEntry(m, pop, Popnn(a, b));
    m1 := S.Popnn(m, a, b);
  }
}
