# pythongb in Dafny

A verified model of the core of **pythongb**, a Game Boy emulator written in
Python. The model covers four parts of the emulator:

- the Sharp LR35902 interpreter `CPU` (`pythongb/cpu.py`): its registers and
  flags, every opcode method, and the two dispatch dictionaries
  `executeOpcode` and `cbtable_test`, plus `cbtable`;
- the memory controller `MemoryController` (`pythongb/memory.py`): the boot
  ROM overlay, the readers and writers of the five banking types and the
  ROM loader;
- the mode timer of the `GPU` (`pythongb/gpu.py`): `__init__` and `sync`;
- the helper `set_bit` (`pythongb/utils.py`).

The model keeps the emulator's behaviour as written, quirks included. Some
examples: `xorn` ORs, `orhl` ANDs, and `ldhan` stores A rather than loading it.
The Z flag of most arithmetic methods is a constant. The half-carry tests
never fire because of Python's operator precedence. `cbtable` looks up the
value of PC rather than the byte at PC.

Python integers are unbounded and their bit operators act on two's
complement. Module `Bits` defines `&`, `|`, `^`, `~`, `<<` and `>>` on Dafny's
`int` in exactly that sense. No register is truncated to 8 or 16 bits unless
the source masks it.

## Layout

- `bits.dfy`, module `Bits`:
  - Python's bit operators;
  - `SetBit`, the `set_bit` of both `utils.py` and `cpu.py`;
  - their bit-level lemmas.
- `semantics.dfy`, module `Semantics`:
  - the CPU as a value: `Registers` and `Flags` records for the `r` and `flag` dictionaries, and `Machine`;
  - one function per opcode method; related methods share one function with an operand parameter (`Add(m, Reg8(B))` is `addan("b")`, `Add(m, AtHl)` is `addahl`, `Add(m, Next)` is `addanext`).
- `cpu_properties.dfy`, module `CpuProperties`: what the opcode methods do, as lemmas over `Semantics`.
- `decode.dfy`, module `Decode`: the dispatch dictionaries as lookup functions over an `Op` datatype, and what running an opcode does.
- `processor.dfy`, module `Processor`:
  - class `CPU` with fields `r` and `flag` and an `array` for memory;
  - every opcode method and the dispatchers as imperative methods;
  - each method is proved to produce the state that its `Semantics` or `Decode` function computes.
- `memory.dfy`, module `Memory`:
  - the controller's state as a value `MemState`, with functions for each reader and writer and lemmas about them;
  - class `MemoryController`, whose buffers are arrays and whose methods are proved against those functions.
- `gpu.dfy`, module `Ppu`:
  - the mode timer as a function `SyncResult` and its lemmas;
  - class `GPU` with `Sync`.

## Model

| member | source | states |
|---|---|---|
| Bits.SetBitBits | pythongb/utils.py:1-9 | bit `index` of the result is 1 exactly when `x` is non-zero; every other bit is the bit of `v` |
| Bits.SetBitIndex | pythongb/utils.py:1-9 | the chosen bit ends up as `x`'s truth value |
| Bits.SetBitOthers | pythongb/utils.py:1-9 | no bit other than `index` changes |
| Bits.SetBitLastWins | pythongb/utils.py:1-9 | of two calls on the same bit the second decides; repeating a call changes nothing (idempotence) |
| Bits.SetBitByte | pythongb/utils.py:1-9 | on a byte with an index below 8, the result is still a byte |
| Bits.SetBitTop | pythongb/cpu.py:63-71 | setting bit 7 of a value below 128 adds 128 when `x` is non-zero and nothing otherwise |
| Bits.SetBitLow | pythongb/utils.py:1-9 | setting bit 0 of an even number adds 1 when `x` is non-zero and nothing otherwise |
| Bits.AndTop | pythongb/cpu.py:769-779 | `v & 0x80` on a byte is 128 when bit 7 is set and 0 otherwise |
| Bits.SplitJoin | pythongb/cpu.py:55-58 | splitting any integer into `x >> 8` and `x & 0xFF` and joining with `hi << 8 \| lo` gives it back |
| Semantics.PowerOn | pythongb/cpu.py:18-40 | after `__init__`, PC is 0x100, SP is 0xFFFE, IME is 1, and every other register and every flag is 0 |
| Semantics.Registers.Set | pythongb/cpu.py:20-31 | assigning `r[k]` changes entry `k` to the new value and no other entry |
| Semantics.Flags.Set | pythongb/cpu.py:34-39 | assigning `flag[f]` changes entry `f` to the new value and no other entry |
| CpuProperties.PairOfBytes | pythongb/cpu.py:46-47 | `getAB(a, b)` with a byte in `b` is `a * 256 + b` |
| CpuProperties.AddPairAdds | pythongb/cpu.py:55-58 | `addAB` adds `value` to the 16-bit pair; the low register holds a byte afterwards; no other register, flag or memory cell changes |
| CpuProperties.LoadAndStep | pythongb/cpu.py:164-176 | `ldiahl`/`lddahl` load the byte at HL into A, then move HL up or down by one; flags and memory are unchanged |
| CpuProperties.StoreAndStep | pythongb/cpu.py:169-181 | `ldihla`/`lddhla` store A at HL, then move HL up or down by one |
| CpuProperties.IncThenDecPair | pythongb/cpu.py:641-656 | `incnn` adds one to the pair and `decnn` undoes it exactly |
| CpuProperties.LdhlspnSum | pythongb/cpu.py:214-221 | `ldhlspn` sets HL to SP plus the operand byte, with a byte in L; PC moves by one and SP is kept |
| CpuProperties.AddhlnSum | pythongb/cpu.py:592-607 | `addhln` sets HL to HL plus the pair and keeps Z; N and H are 0; C is set exactly when the sum exceeds 0xFFFF |
| CpuProperties.HalfClear | pythongb/cpu.py:250-259 | the 8-bit half-carry test, as Python parses it, is always 0 for every operand |
| CpuProperties.WideHalfClear | pythongb/cpu.py:592-607 | the 16-bit half-carry test, as Python parses it, is always 0 |
| CpuProperties.NarrowHalfNeverSet | pythongb/cpu.py:250-546 | `add`, `sub` and `cp` never set H, for every operand form |
| CpuProperties.WideHalfNeverSet | pythongb/cpu.py:592-638 | `addhln`, `addhlsp` and `addspn` never set H |
| CpuProperties.AddZeroQuirks | pythongb/cpu.py:262-326 | `addahl`, `addanext` and every `adc` form leave Z at 0 whatever the sum |
| CpuProperties.SubZeroQuirks | pythongb/cpu.py:329-546 | every `sub`, `sbc` and `cp` form leaves Z at 0 |
| CpuProperties.StepZeroQuirks | pythongb/cpu.py:549-588 | `inc` and `dec` always set Z to 1 |
| CpuProperties.AddRegParts | pythongb/cpu.py:250-259 | `addan` adds the register to A and changes no other register; Z reports a zero sum and C a sum above 0xFFFF |
| CpuProperties.AddBytes | pythongb/cpu.py:250-259 | on bytes, `addan` gives the plain sum; Z is set only when both are 0; C stays 0 |
| CpuProperties.IncThenDec | pythongb/cpu.py:549-588 | `inc` adds one to a register or the cell at HL; a following `dec` gives back every register and all memory |
| CpuProperties.SubThenAdd | pythongb/cpu.py:329-337 | `subn` then `addan` with the same register other than A gives back all registers |
| CpuProperties.ByteCarryNeverSet | pythongb/cpu.py:291-401 | `adc`/`sbc` add or subtract the C flag as carry-in; on bytes no 8-bit add, subtract or compare ever sets C |
| CpuProperties.LogicOperations | pythongb/cpu.py:440-509 | which operation each logic method really performs (details below the table); Z reports a zero result |
| CpuProperties.ComplementTwice | pythongb/cpu.py:680-689 | `cpl` sets N and H, and twice gives back registers and memory; `ccf` twice is the identity |
| CpuProperties.SwappedByte | pythongb/cpu.py:664-665 | swapping a byte exchanges its nibbles, stays a byte, and swapping twice gives it back |
| CpuProperties.SwapTwice | pythongb/cpu.py:664-673 | `swapn`/`swaphl` twice on a byte is the identity on the machine |
| CpuProperties.RrcByte | pythongb/cpu.py:824-835 | on a byte, `rrcn`'s value is the right rotation `Rotr`, and C is the old bit 0 |
| CpuProperties.RotrBit | pythongb/cpu.py:824-835 | bit `i` of the rotated byte is the old bit `i + 1`, and bit 7 is the old bit 0 |
| CpuProperties.RotrTimesBits | pythongb/cpu.py:824-835 | `k` rotations move bit `i + k` (mod 8) into bit `i` and keep a byte |
| CpuProperties.RotrEight | pythongb/cpu.py:824-835 | eight rotations give the byte back |
| CpuProperties.RotrTimesByte | pythongb/cpu.py:824-835 | any number of rotations keeps a byte |
| CpuProperties.RlcShifts | pythongb/cpu.py:769-797 | `rlcn`/`rlchl` (and `rlca`) on a byte give `2 * v + v / 128`, unmasked, so up to 0x1FF; C is `128 * (v / 128)`; Z reports a zero result, N and H are 0, nothing else changes |
| CpuProperties.RlShifts | pythongb/cpu.py:800-821 | `rln`/`rlhl` (and `rla`) on a byte give `2 * v`, the carry not rotated in; C is `128 * (v / 128)`; Z, N, H as above |
| CpuProperties.RrShiftsLeft | pythongb/cpu.py:854-875 | `rrn`/`rrhl` (and `rra`) on a byte shift LEFT, giving `2 * v`; C is the old bit 0, `v % 2`; Z, N, H as above |
| CpuProperties.SlaShifts | pythongb/cpu.py:879-905 | `slan`/`slahl` on a byte give `2 * v`, unmasked; C is `128 * (v / 128)`; Z, N, H as above |
| CpuProperties.SraShifts | pythongb/cpu.py:908-935 | `sran`/`srahl` on a byte give `v / 2 + 128 * (v / 128)`, keeping bit 7; C is `v % 2`; Z, N, H as above |
| CpuProperties.SrlShifts | pythongb/cpu.py:938-963 | `srln`/`srlhl` on a byte give `v / 2`; C is `v % 2`; Z, N, H as above |
| CpuProperties.IterateRotr | pythongb/cpu.py:744-755 | any machine step that rotates A right, repeated `k` times, leaves A equal to `k` rotations of the byte |
| CpuProperties.RrcaTimesA | pythongb/cpu.py:744-755 | `k` executions of `rrca` leave A rotated right `k` times |
| CpuProperties.RrcaRotates | pythongb/cpu.py:744-755 | `rrca` rotates a byte in A right by one |
| CpuProperties.RrcaOnce | pythongb/cpu.py:744-755 | after `rrca`, A is a byte, its bit 7 is the old bit 0, and C is the old bit 0 |
| CpuProperties.RrcaEight | pythongb/cpu.py:744-755 | eight `rrca`s give A back |
| CpuProperties.BitbrTests | pythongb/cpu.py:967-975 | `bitbr(b, r)` sets Z when bit `b - 1` of the register is 0 and keeps Z otherwise; N is 0 and H is 1; registers and memory are unchanged |
| CpuProperties.SetResBits | pythongb/cpu.py:977-983 | `setbr` sets and `resbr` clears bit `b` of the register, and every other bit stays |
| CpuProperties.CopyRegister | pythongb/cpu.py:93-94 | `ldr1r2` copies one register and changes nothing else; copying back or onto itself is a no-op; so is `ldna` after `ldan` |
| CpuProperties.StoreThenLoadHl | pythongb/cpu.py:97-102 | `ldhlr2` changes only the cell at HL, and `ldr1hl` loads the stored register back |
| CpuProperties.StoreThenLoadPair | pythongb/cpu.py:116-142 | `ldaba` stores A at the pair's address and `ldab` loads it back, so the registers end unchanged |
| CpuProperties.StoreThenLoadHigh | pythongb/cpu.py:156-161 | `ldca` stores A at 0xFF00 + C and `ldac` loads it back |
| CpuProperties.StoreSp | pythongb/cpu.py:224-229 | `ldnnsp` overwrites its operand bytes with SP, low byte first; read little-endian they give SP; PC moves by 2 |
| CpuProperties.SpFromHl | pythongb/cpu.py:210-211 | `ldsphl` copies HL into SP, so after `ldhlspn` SP has moved by the operand byte |
| CpuProperties.Ldnnn16Loads | pythongb/cpu.py:199-207 | the first immediate goes to the low register and the second to the high one; PC moves by 2; with a byte low half the pair reads back little-endian |
| CpuProperties.ImmediateAddressOrder | pythongb/cpu.py:120-153 | `ldann` reads its address low byte first; `ldnna` reads it high byte first |
| CpuProperties.LdhanStores | pythongb/cpu.py:184-195 | `ldhan` stores A at 0xFF00 + n exactly as `ldhna` does, and moves PC by one |
| CpuProperties.PushThenPop | pythongb/cpu.py:232-245 | `pushnn` lowers SP by 2 and stores the high register above the low one; `popnn` of the same pair gives back every register and flag |
| CpuProperties.PushPcThenRet | pythongb/cpu.py:73-78 | `pushpc` stores PC's high byte above its low byte and lowers SP by 2; `ret` restores all registers and flags; `reti` also sets IME |
| CpuProperties.CallThenRet | pythongb/cpu.py:1081-1091 | `ret` after `callnn` gives back PC and SP |
| CpuProperties.RstJumps | pythongb/cpu.py:1167-1169 | `rstn` pushes PC and jumps to `n`; `ret` returns to the old PC |
| CpuProperties.UntakenBranches | pythongb/cpu.py:996-1220 | a conditional jump or call whose condition fails only steps PC over its operands; a failing conditional return changes nothing |
| CpuProperties.TakenBranches | pythongb/cpu.py:996-1220 | a conditional jump, relative jump, call or return whose condition holds equals its unconditional form |
| CpuProperties.JumpTargets | pythongb/cpu.py:987-1051 | `jpnn` jumps to the big-endian operand; `jrn` adds the operand byte to PC |
| CpuProperties.CallTarget | pythongb/cpu.py:1081-1091 | `callnn` jumps to the little-endian operand and lowers SP by 2 |
| Decode.CbtableTest | pythongb/cpu.py:1324-1412 | a key outside the dictionary raises `KeyError` with the state unchanged; a key in it always completes |
| Decode.CbtableByPc | pythongb/cpu.py:1233-1322 | either PC has moved by one or the lookup completed |
| Decode.ExecuteOpcode | pythongb/cpu.py:1415-1781 | an opcode missing from the dictionary raises `KeyError` with the state unchanged |
| Decode.ListedOpcodes | pythongb/cpu.py:1416-1776 | every byte except the twelve unlisted ones is a key of `executeOpcode`'s dictionary |
| Decode.UnlistedMissing | pythongb/cpu.py:1416-1776 | D3 DB DD DE E3 E4 EB EC ED F4 FC FD are not keys |
| Decode.UnlistedOpcodes | pythongb/cpu.py:1778-1781 | executing an unlisted opcode raises `KeyError` |
| Decode.ExecuteEntry | pythongb/cpu.py:1778-1781 | executing a key runs its entry; any entry other than 0xCB completes with the opcode's effect |
| Decode.OnlyCbPrefix | pythongb/cpu.py:1684 | 0xCB, and only 0xCB, is mapped to `cbtable` |
| Decode.CbKeys | pythongb/cpu.py:1326-1408 | the CB dictionary's keys are exactly 0x00 through 0x3F |
| Decode.CbDispatchByPc | pythongb/cpu.py:1233-1322 | `cbtable` completes exactly when the incremented PC value is below 0x40; otherwise it raises `KeyError` after moving PC |
| Decode.ListedOpcodeFails | pythongb/cpu.py:1415-1781 | a listed opcode fails exactly when it is 0xCB and PC + 1 is no CB key |
| Decode.ExecuteOpcodeFails | pythongb/cpu.py:1415-1781 | `executeOpcode` raises exactly for non-bytes, the unlisted bytes, and 0xCB with PC + 1 outside 0x00-0x3F |
| Decode.LdhanTwice | pythongb/cpu.py:1521-1524 | 0xE0 and 0xF0 both map to `ldhan` and execute identically |
| Decode.SrlSlotRunsSra | pythongb/cpu.py:1305-1315 | CB 0x3E runs `srahl`, the same as CB 0x2E |
| Decode.RegisterLoadRows | pythongb/cpu.py:1426-1499 | every opcode 0x40-0x7F is a register load, a load through HL, or `halt` |
| Decode.RegisterLoadKeepsPc | pythongb/cpu.py:93-102 | those entries change neither PC nor SP |
| Decode.RegisterLoadsStep | pythongb/gb.py:51-56 | a step on an opcode 0x40-0x7F completes, moves PC by one and keeps SP |
| Decode.NopStep | pythongb/cpu.py:696-697 | a step on 0x00 only moves PC by one |
| Decode.StackEntries | pythongb/cpu.py:1542-1551 | each push key 0xC5/D5/E5/F5 maps to `pushnn` and the key four below to `popnn` of the same pair |
| Decode.PushPopOpcodes | pythongb/cpu.py:1542-1551 | executing a push opcode and then its pop gives back every register |
| Processor.CPU.constructor | pythongb/cpu.py:18-40 | a new CPU is in the power-on state `Semantics.PowerOn` |
| Processor.CPU.GetHL | pythongb/cpu.py:43-44 | with a byte in L, `getHL` is `H * 256 + L` |
| Processor.CPU.GetAB | pythongb/cpu.py:46-47 | with a byte in the low register, `getAB` is `a * 256 + b` |
| Processor.CPU.IncPc | pythongb/cpu.py:49-50 | PC moves by one and nothing else changes |
| Processor.CPU.AddSp | pythongb/cpu.py:52-53 | SP moves by `value` and nothing else changes |
| Processor.CPU.AddAB | pythongb/cpu.py:55-58 | the pair gains `value` (`CpuProperties.AddPairAdds`) |
| Processor.CPU.PushPc | pythongb/cpu.py:73-78 | PC is pushed as two bytes (`CpuProperties.PushPcThenRet`) |
| Processor.CPU.Ldnnn | pythongb/cpu.py:84-90 | the register receives the immediate byte and PC moves by one |
| Processor.CPU.Ldr1r2 | pythongb/cpu.py:93-94 | the state becomes `Semantics.Ldr1r2` (`CpuProperties.CopyRegister`) |
| Processor.CPU.Ldr1hl | pythongb/cpu.py:97-98 | the register receives the byte at HL (`CpuProperties.StoreThenLoadHl`) |
| Processor.CPU.Ldhlr2 | pythongb/cpu.py:101-102 | the register is stored at HL (`CpuProperties.StoreThenLoadHl`) |
| Processor.CPU.Ldhln | pythongb/cpu.py:105-109 | the immediate byte is stored at HL and PC moves by one |
| Processor.CPU.Ldan | pythongb/cpu.py:112-113 | A receives the register (`CpuProperties.CopyRegister`) |
| Processor.CPU.Ldab | pythongb/cpu.py:116-117 | A receives the byte at the pair's address (`CpuProperties.StoreThenLoadPair`) |
| Processor.CPU.Ldann | pythongb/cpu.py:120-127 | A receives the byte at the little-endian immediate address (`CpuProperties.ImmediateAddressOrder`) |
| Processor.CPU.Ldae | pythongb/cpu.py:130-134 | A receives the immediate byte and PC moves by one |
| Processor.CPU.Ldna | pythongb/cpu.py:137-138 | the register receives A (`CpuProperties.CopyRegister`) |
| Processor.CPU.Ldaba | pythongb/cpu.py:141-142 | A is stored at the pair's address (`CpuProperties.StoreThenLoadPair`) |
| Processor.CPU.Ldnna | pythongb/cpu.py:145-153 | A is stored at the big-endian immediate address (`CpuProperties.ImmediateAddressOrder`) |
| Processor.CPU.Ldac | pythongb/cpu.py:156-157 | A receives the byte at 0xFF00 + C (`CpuProperties.StoreThenLoadHigh`) |
| Processor.CPU.Ldca | pythongb/cpu.py:160-161 | A is stored at 0xFF00 + C (`CpuProperties.StoreThenLoadHigh`) |
| Processor.CPU.Lddahl | pythongb/cpu.py:164-166 | load through HL, then HL minus one (`CpuProperties.LoadAndStep`) |
| Processor.CPU.Lddhla | pythongb/cpu.py:169-171 | store through HL, then HL minus one (`CpuProperties.StoreAndStep`) |
| Processor.CPU.Ldiahl | pythongb/cpu.py:174-176 | load through HL, then HL plus one (`CpuProperties.LoadAndStep`) |
| Processor.CPU.Ldihla | pythongb/cpu.py:179-181 | store through HL, then HL plus one (`CpuProperties.StoreAndStep`) |
| Processor.CPU.Ldhna | pythongb/cpu.py:184-188 | A is stored at 0xFF00 + the immediate byte (`CpuProperties.LdhanStores`) |
| Processor.CPU.Ldhan | pythongb/cpu.py:191-195 | the same store as `ldhna` (`CpuProperties.LdhanStores`) |
| Processor.CPU.Ldnnn16 | pythongb/cpu.py:199-207 | the pair receives the two immediates (`CpuProperties.Ldnnn16Loads`) |
| Processor.CPU.Ldsphl | pythongb/cpu.py:210-211 | SP receives HL (`CpuProperties.SpFromHl`) |
| Processor.CPU.Ldhlspn | pythongb/cpu.py:214-221 | HL receives SP plus the immediate (`CpuProperties.LdhlspnSum`) |
| Processor.CPU.Ldnnsp | pythongb/cpu.py:224-229 | SP is written over the operand bytes (`CpuProperties.StoreSp`) |
| Processor.CPU.Pushnn | pythongb/cpu.py:232-237 | the pair is pushed (`CpuProperties.PushThenPop`) |
| Processor.CPU.Popnn | pythongb/cpu.py:240-245 | the pair is popped (`CpuProperties.PushThenPop`) |
| Processor.CPU.Add | pythongb/cpu.py:250-288 | A gains the operand (`CpuProperties.AddRegParts`, `AddBytes`, `AddZeroQuirks`) |
| Processor.CPU.Adc | pythongb/cpu.py:291-326 | A gains the operand plus C (`CpuProperties.ByteCarryNeverSet`) |
| Processor.CPU.Sub | pythongb/cpu.py:329-363 | A loses the operand (`CpuProperties.SubThenAdd`, `SubZeroQuirks`) |
| Processor.CPU.Sbc | pythongb/cpu.py:366-401 | A loses the operand plus C (`CpuProperties.ByteCarryNeverSet`) |
| Processor.CPU.AndA | pythongb/cpu.py:404-437 | A is ANDed with the operand, H is 1 (`CpuProperties.LogicOperations`) |
| Processor.CPU.OrA | pythongb/cpu.py:440-473 | the `or` methods' operation per operand (`CpuProperties.LogicOperations`) |
| Processor.CPU.XorA | pythongb/cpu.py:476-509 | the `xor` methods' operation per operand (`CpuProperties.LogicOperations`) |
| Processor.CPU.Cp | pythongb/cpu.py:512-546 | only flags change; Z and H stay 0 (`CpuProperties.SubZeroQuirks`) |
| Processor.CPU.Inc | pythongb/cpu.py:549-567 | the register or cell at HL gains one (`CpuProperties.IncThenDec`) |
| Processor.CPU.Dec | pythongb/cpu.py:570-588 | the register or cell at HL loses one (`CpuProperties.IncThenDec`) |
| Processor.CPU.Addhln | pythongb/cpu.py:592-607 | HL gains the pair (`CpuProperties.AddhlnSum`) |
| Processor.CPU.Addhlsp | pythongb/cpu.py:610-624 | HL gains SP; H stays 0 (`CpuProperties.WideHalfNeverSet`) |
| Processor.CPU.Addspn | pythongb/cpu.py:627-638 | SP gains the immediate; H stays 0 (`CpuProperties.WideHalfNeverSet`) |
| Processor.CPU.Incnn | pythongb/cpu.py:641-645 | the pair gains one (`CpuProperties.IncThenDecPair`) |
| Processor.CPU.Incsp | pythongb/cpu.py:648-649 | SP gains one and nothing else changes |
| Processor.CPU.Decnn | pythongb/cpu.py:652-656 | the pair loses one (`CpuProperties.IncThenDecPair`) |
| Processor.CPU.Decsp | pythongb/cpu.py:659-660 | SP loses one and nothing else changes |
| Processor.CPU.Swap | pythongb/cpu.py:664-673 | the nibbles are exchanged (`CpuProperties.SwappedByte`, `SwapTwice`) |
| Processor.CPU.Cpl | pythongb/cpu.py:680-685 | A is complemented (`CpuProperties.ComplementTwice`) |
| Processor.CPU.Ccf | pythongb/cpu.py:688-689 | C is flipped (`CpuProperties.ComplementTwice`) |
| Processor.CPU.Scf | pythongb/cpu.py:692-693 | C becomes 1 and nothing else changes |
| Processor.CPU.Di | pythongb/cpu.py:710-711 | IME becomes 0 and nothing else changes |
| Processor.CPU.Ei | pythongb/cpu.py:714-715 | IME becomes 1 and nothing else changes |
| Processor.CPU.Shift | pythongb/cpu.py:717-963 | all eighteen rotate and shift methods (`CpuProperties.RlcShifts`, `RlShifts`, `RrcByte`, `RrShiftsLeft`, `SlaShifts`, `SraShifts`, `SrlShifts`, `RrcaTimesA`) |
| Processor.CPU.Bitbr | pythongb/cpu.py:967-975 | sets Z when bit `b - 1` is clear and keeps it otherwise (`CpuProperties.BitbrTests`) |
| Processor.CPU.Setbr | pythongb/cpu.py:977-979 | bit `b` is set (`CpuProperties.SetResBits`) |
| Processor.CPU.Resbr | pythongb/cpu.py:981-983 | bit `b` is cleared (`CpuProperties.SetResBits`) |
| Processor.CPU.Jpnn | pythongb/cpu.py:987-993 | jump to the big-endian operand (`CpuProperties.JumpTargets`) |
| Processor.CPU.Jpcc | pythongb/cpu.py:996-1038 | conditional jump (`CpuProperties.TakenBranches`, `UntakenBranches`) |
| Processor.CPU.Jphl | pythongb/cpu.py:1041-1042 | PC receives HL and nothing else changes |
| Processor.CPU.Jrn | pythongb/cpu.py:1045-1051 | relative jump (`CpuProperties.JumpTargets`) |
| Processor.CPU.Jrcc | pythongb/cpu.py:1054-1077 | conditional relative jump (`CpuProperties.TakenBranches`, `UntakenBranches`) |
| Processor.CPU.Callnn | pythongb/cpu.py:1081-1091 | call (`CpuProperties.CallTarget`, `CallThenRet`) |
| Processor.CPU.Callcc | pythongb/cpu.py:1094-1163 | conditional call (`CpuProperties.TakenBranches`, `UntakenBranches`) |
| Processor.CPU.Rstn | pythongb/cpu.py:1167-1169 | restart (`CpuProperties.RstJumps`) |
| Processor.CPU.Ret | pythongb/cpu.py:1174-1180 | return (`CpuProperties.PushPcThenRet`) |
| Processor.CPU.Retcc | pythongb/cpu.py:1183-1220 | conditional return (`CpuProperties.TakenBranches`, `UntakenBranches`) |
| Processor.CPU.Reti | pythongb/cpu.py:1223-1231 | return and set IME (`CpuProperties.PushPcThenRet`) |
| Processor.CPU.Apply | pythongb/cpu.py:1416-1776 | running a non-CB dictionary entry gives the state `Decode.Apply` computes |
| Processor.CPU.CbtableTest | pythongb/cpu.py:1324-1412 | reports success exactly when the lookup completes (`Decode.CbKeys`); the state is the one `Decode.CbtableTest` computes |
| Processor.CPU.Cbtable | pythongb/cpu.py:1233-1322 | the same, for the lookup by PC (`Decode.CbDispatchByPc`) |
| Processor.CPU.ExecuteOpcode | pythongb/cpu.py:1415-1781 | reports success exactly when no `KeyError` is raised (`Decode.ExecuteOpcodeFails`) |
| Processor.CPU.Step | pythongb/gb.py:51-56 | one iteration of the main loop; PC moves after a completed opcode (`Decode.NopStep`, `RegisterLoadsStep`) |
| Memory.Initial | pythongb/memory.py:40-79 | a new controller has correctly sized buffers, the boot ROM mapped and banking type 0; no `currBank` exists yet, because `__init__` sets `curr_bank` instead (`BankUndefined`) |
| Memory.At | pythongb/memory.py:121-150 | Python indexing: a negative index counts from the end |
| Memory.Alias | pythongb/memory.py:141-148 | an address in 0xFEB4-0xFEFF reaches the `io` cell of the address 0x4C above; one in 0xFF4C-0xFF7F reaches the `ram` cell of the address 0x7F above |
| Memory.Mbc1Bank | pythongb/memory.py:299-314 | the MBC1 ROM bank is between 1 and 31 and equals the low five bits of the address unless those are 0 |
| Memory.Mbc2Bank | pythongb/memory.py:353-368 | the MBC2 ROM bank is between 1 and 15 and equals the low four bits of the data unless those are 0 |
| Memory.Mbc3Bank | pythongb/memory.py:409-421 | the MBC3 ROM bank is never 0 and is the data unless the data is 0 |
| Memory.Mbc5HighBank | pythongb/memory.py:481-483 | writing the high bank byte keeps the low byte and replaces the high part by `data` |
| Memory.RamBank | pythongb/memory.py:316-318 | the RAM bank selected is below the number of banks |
| Memory.MemoryModel | pythongb/memory.py:320-322 | the memory model is 0 or 1 |
| Memory.LowByte | pythongb/memory.py:224-254 | the masked value is a byte |
| Memory.EramDisabled | pythongb/memory.py:293-297 | external RAM is disabled exactly when bits 1 and 3 of the address are both 0 |
| Memory.EnableMask | pythongb/memory.py:293-297 | `loc & 0x0A` is 0 exactly when bits 1 and 3 are 0 |
| Memory.PythonMasks | pythongb/memory.py:292-513 | the bank and mode functions agree with the writers' Python mask expressions |
| Memory.Store | pythongb/memory.py:276-289 | storing into a buffer keeps every buffer's size and the ROM |
| Memory.Stored | pythongb/memory.py:276-289 | a store keeps the controller well-formed |
| Memory.AfterWrite0 | pythongb/memory.py:268-289 | `write0` keeps the controller well-formed; what it stores is stated by `WriteThenRead0` and `TileWrites` |
| Memory.AfterWrite1 | pythongb/memory.py:292-343 | `write1` keeps the controller well-formed; its register writes are stated by `Mbc1SelectsByAddress` and `TileWrites` |
| Memory.AfterWrite2 | pythongb/memory.py:346-397 | `write2` keeps the controller well-formed; its tile writes are stated by `TileWrites` |
| Memory.AfterWrite3 | pythongb/memory.py:400-465 | `write3` keeps the controller well-formed; its register writes are stated by `Mbc3RamSelect` and `Mbc3Latch` |
| Memory.AfterWrite5 | pythongb/memory.py:468-513 | `write5` keeps the controller well-formed; its bank writes are stated by `Mbc5BankPair` |
| Memory.AfterWrite | pythongb/memory.py:515-526 | `write` keeps the controller well-formed; `WriteKeepsMode` and `BiosStaysOff` state what no write changes |
| Memory.CartType | pythongb/memory.py:528-560 | the cartridge-type byte selects banking 1, 2, 3 or 5 for exactly the listed codes and 0 for all others |
| Memory.BootOverlay | pythongb/memory.py:81-118 | with the boot ROM mapped, `read0` below 0x100 returns the boot ROM; at 0x100 it returns the cartridge byte and unmaps the boot ROM |
| Memory.BootWrap | pythongb/memory.py:121-254 | below 0x100 the banked readers return the boot ROM (through Python's negative index) and `read2` does not unmap it |
| Memory.Read2BootMirror | pythongb/memory.py:153-183 | `read2` from 0x100 to 0x1FF mirrors the boot ROM, and only 0x1FF unmaps it |
| Memory.Read2Mirror | pythongb/memory.py:153-183 | `read2` at `loc` and at `loc - 0x100` both return boot ROM byte `loc - 0x100` |
| Memory.Read2Below | pythongb/memory.py:153-183 | `read2` below 0x100 returns the boot ROM |
| Memory.Read2Unmaps | pythongb/memory.py:153-183 | in 0x100-0x1FF, `read2` unmaps the boot ROM exactly at 0x1FF |
| Memory.Read2Low | pythongb/memory.py:153-183 | `read2` below 0x1000 indexes the boot ROM at `loc - 0x100` |
| Memory.WriteKeepsMode | pythongb/memory.py:515-526 | no write changes the boot mapping or the banking type |
| Memory.BiosStaysOff | pythongb/memory.py:81-526 | once the boot ROM is unmapped, no read or write maps it again, and bank 0 reads come from the cartridge |
| Memory.EchoRam | pythongb/memory.py:81-118 | 0xE000-0xFDFF reads the same work-RAM byte as 0x2000 below, and reading changes nothing |
| Memory.WriteThenRead0 | pythongb/memory.py:268-289 | without banking, a write above 0xC000 is read back; no other cell and no other field changes |
| Memory.StoreOtherCell | pythongb/memory.py:276-289 | a store leaves every read of a different cell unchanged |
| Memory.UnmappedAddresses | pythongb/memory.py:81-118 | the unused areas and 0xFFFF read as 0; a write at or above 0xFFFF changes nothing |
| Memory.AliasedAddresses | pythongb/memory.py:141-148 | the banked readers and every writer treat 0xFEB4-0xFEFF and 0xFF4C-0xFF7F as their `Alias`, through Python's negative indices; `read0` reads 0 there |
| Memory.IoHoleRaises | pythongb/memory.py:284-287 | at 0xFEA0-0xFEB3 every writer and every banked reader raises `IndexError`, and `read0` reads 0 |
| Memory.BootExitWrite | pythongb/memory.py:10-38 | the boot program's last write, 1 to 0xFF50, lands in high RAM at 0xFFCF under ROM-only banking; the boot ROM stays mapped and 0xFF50 still reads 0 |
| Memory.BankUndefined | pythongb/memory.py:133-134 | until a bank select creates `currBank`, banked reads of 0x4000-0x7FFF and MBC5 bank writes raise `AttributeError`, and MBC5 writes never create it; MBC1-MBC3 bank selects do |
| Memory.NegativeBank | pythongb/memory.py:412-421 | an MBC3 bank select keeps a negative bank unmasked, and afterwards every switchable-bank read whose offset is at least `-len(rom)` succeeds and returns the ROM byte counted from the end of the image, as Python's negative indexing does |
| Memory.Mbc3RamSelect | pythongb/memory.py:423-429 | data 0-3 selects that RAM bank and unmaps the clock; larger data maps the clock, and external RAM then reads 0 |
| Memory.Mbc3Latch | pythongb/memory.py:431-443 | 0 then 1 latches the host time into the clock registers; other data changes nothing |
| Memory.TileWrites | pythongb/memory.py:268-513 | a tile write stores nothing; banked writers mark the tiles outdated at `loc`, and `write0` notifies the GPU of `loc` |
| Memory.Mbc1SelectsByAddress | pythongb/memory.py:299-314 | MBC1's ROM bank depends on the address written, never on the data |
| Memory.Mbc5BankPair | pythongb/memory.py:476-483 | once `currBank` exists, writing the low then the high bank byte selects bank `high * 256 + low` and changes nothing else |
| Memory.MemoryController.constructor | pythongb/memory.py:40-79 | the new controller is in the `Initial` state |
| Memory.MemoryController.Read0 | pythongb/memory.py:81-118 | returns `read0`'s value and makes `read0`'s state change (`BootOverlay`) |
| Memory.MemoryController.ReadHigh | pythongb/memory.py:139-148 | the reads above 0xC000 that all banked readers share, with the negative `io`/`ram` indices wrapped (`EchoRam`, `AliasedAddresses`) |
| Memory.MemoryController.Read1 | pythongb/memory.py:121-150 | returns `read1`'s value (`BootWrap`) |
| Memory.MemoryController.Read2 | pythongb/memory.py:153-183 | returns `read2`'s value and makes its state change (`Read2BootMirror`) |
| Memory.MemoryController.Read3 | pythongb/memory.py:186-221 | returns `read3`'s value (`Mbc3RamSelect`) |
| Memory.MemoryController.Read5 | pythongb/memory.py:224-254 | returns `read5`'s value (`BootWrap`) |
| Memory.MemoryController.Read | pythongb/memory.py:256-265 | dispatches by banking type (`BiosStaysOff`) |
| Memory.MemoryController.StoreTail | pythongb/memory.py:276-289 | the buffer store the writers share (`StoreOtherCell`) |
| Memory.MemoryController.MarkTiles | pythongb/memory.py:324-328 | marks the tiles outdated at `loc` (`TileWrites`) |
| Memory.MemoryController.Write0 | pythongb/memory.py:268-289 | `write0` (`WriteThenRead0`) |
| Memory.MemoryController.Registers1 | pythongb/memory.py:293-322 | the MBC1 register writes (`Mbc1SelectsByAddress`) |
| Memory.MemoryController.Write1 | pythongb/memory.py:292-343 | `write1` |
| Memory.MemoryController.Registers2 | pythongb/memory.py:347-377 | the MBC2 register writes |
| Memory.MemoryController.Write2 | pythongb/memory.py:346-397 | `write2` |
| Memory.MemoryController.LatchClock | pythongb/memory.py:431-443 | the clock latch (`Mbc3Latch`) |
| Memory.MemoryController.Registers3 | pythongb/memory.py:401-443 | the MBC3 register writes (`Mbc3RamSelect`) |
| Memory.MemoryController.Write3 | pythongb/memory.py:400-465 | `write3` |
| Memory.MemoryController.Registers5 | pythongb/memory.py:470-491 | the MBC5 register writes (`Mbc5BankPair`) |
| Memory.MemoryController.Write5 | pythongb/memory.py:468-513 | `write5` |
| Memory.MemoryController.Write | pythongb/memory.py:515-526 | dispatches by banking type (`WriteKeepsMode`) |
| Memory.MemoryController.LoadRom | pythongb/memory.py:528-560 | installs the image as the ROM and sets the banking type from byte 0x147 (`CartType`) |
| Memory.MemoryController.AttachGpu | pythongb/memory.py:562-563 | records the GPU; nothing else changes |
| Ppu.SyncResult | pythongb/gpu.py:22-60 | at most one mode change per call, never into V-Blank; a change restarts the mode clock; VRAM transfer keeps no cycles; the line moves only when H-Blank or V-Blank ends |
| Ppu.SyncOamScan | pythongb/gpu.py:26-31 | OAM scan moves to VRAM transfer at 20 cycles |
| Ppu.SyncVramTransfer | pythongb/gpu.py:33-37 | VRAM transfer moves to H-Blank at 43 cycles, and always restarts its clock |
| Ppu.SyncHBlank | pythongb/gpu.py:39-50 | H-Blank ends at 51 cycles: the next line's OAM scan, or line 0 in H-Blank after line 142 |
| Ppu.SyncVBlank | pythongb/gpu.py:52-60 | V-Blank lines last 114 cycles; after ten lines OAM scan resumes at line 0 |
| Ppu.SyncKeepsDrawing | pythongb/gpu.py:22-60 | a call from a drawing mode stays in a drawing mode |
| Ppu.VBlankUnreachable | pythongb/gpu.py:22-60 | from a drawing mode, power-on included, no sequence of calls ever reaches V-Blank (mode 1) |
| Ppu.ScanlineCadence | pythongb/gpu.py:22-60 | 20, 43 and 51 cycles take a line from OAM scan to the next line's OAM scan |
| Ppu.GPU.constructor | pythongb/gpu.py:5-19 | a new GPU is at line 0 in H-Blank with a zero clock, a drawing mode |
| Ppu.GPU.Sync | pythongb/gpu.py:22-60 | the timer moves as `SyncResult` says |

`CpuProperties.LogicOperations` states:

- `orhl` computes what `andhl` does;
- `ornext` computes what `xornext` does;
- `xorn` computes what `orn` does;
- `xorn` on A therefore keeps A, whereas `xorhl` with an equal byte at HL clears it and sets Z.

Each `Processor.CPU` method's `ensures` says that the new state `State()` is the
`Semantics` function of the same name applied to the old state. The
properties named in brackets are proved about that function. The
`Memory.MemoryController` methods are tied to `Memory`'s functions the same way.

## Left out

- The CPU's memory: `CPU.memory` is modelled as a flat array of 0x10000 cells that hold any integer. A read outside it yields 0 and a write outside it is dropped. The controller's bytearrays instead raise `ValueError` on a store that is not a byte (`inchl` on 0xFF, `dechl` on 0, `rlchl` on 0x80 or more), so `CpuProperties.IncThenDec` for the HL cell and `CpuProperties.SwapTwice` at HL hold only for the flat memory. The controller's banking is modelled separately in `Memory` and is not plugged into the CPU.
- Cycle counts: the third element of each dispatch tuple, and `last_clock_inc`, are not modelled. `Ppu.GPU.Sync` takes its cycle count as a parameter.
- `print` calls in `executeOpcode` and elsewhere are output only and are left out.
- `daa`, `halt` and `stop` change nothing, as in the source.
- `getFlagAsInt` (pythongb/cpu.py:60-61) is called nowhere, so it is not modelled.
- `set_bit` appears twice, at pythongb/cpu.py:63-71 and pythongb/utils.py:1-9, with identical bodies; both are modelled by the single function `Bits.SetBit`.
- `ldan`, `ldhna`, `sbcanext`, `bitbr`, `setbr`, `resbr` and `srlhl` are in no dispatch dictionary. They are modelled as methods but are not reachable from `Decode`.
- A failed dictionary lookup is modelled as a `KeyError` outcome that keeps the state at that point. The exception propagating out of the emulator's main loop is not modelled.
- Processor.CPU.Bitbr: requires `b >= 1`. With `b = 0` the source shifts by `-1`, which raises in Python. No dictionary calls `bitbr`.
- Decode.CbtableByPc: its `ensures` only says that the lookup completed or PC moved. The exact condition is stated by `Decode.CbDispatchByPc`.
- Memory readers and writers: they require the conditions under which Python does not raise: an index that Python accepts (negative ones included, see `Memory.Wrap`), a byte value for bytearray stores, and an existing `currBank` where it is read. A negative MBC3 bank is one such accepted index (`Memory.NegativeBank`). The exceptions raised otherwise (`IndexError` at 0xFEA0-0xFEB3, `AttributeError` before a bank select, `ValueError` on a non-byte store, and `IndexError` for a negative address given to a banked writer, after it has set `tiles_outdated`) are not modelled as outcomes.
- Memory.Initial / Memory.MemoryController.constructor: the attribute `curr_bank` that `__init__` sets is read nowhere and is not modelled. The `currBank` the readers and `write5` use is absent until an MBC1, MBC2 or MBC3 bank select, which `hasCurrBank` records; its value field holds a placeholder 0 until then. Under MBC5 it is never created, so every banked read of 0x4000-0x7FFF and every ROM-bank write raises (`Memory.BankUndefined`).
- `read2` with the boot ROM mapped at an address from 0x200 to 0xFFF indexes the boot ROM out of range and raises in the source. Its precondition excludes that range.
- The MBC3 clock reads `datetime.now()`; the host time is a parameter (`Memory.HostTime`).
- `read_rom` opens a file; `LoadRom` takes the file's bytes instead.
- Memory.AfterWrite0 / Memory.MemoryController.Write0 / Memory.TileWrites: `write0` at 0x8000-0x97FF calls `gpu.update_tiles` (pythongb/memory.py:274), but the program's own `GPU` class defines only `__init__` and `sync`, so with that class the tile branch always raises `AttributeError` (and does so on `None` when no GPU is attached). The model instead treats the call as the intended notification: it requires an attached GPU and appends the address to the `notified` log. The tile cache and rendering are not modelled.
- Memory.MemoryController.LoadRom: requires an image longer than 0x147 bytes. On a shorter file `rom_array[0x147]` (pythongb/memory.py:536) raises `IndexError`, and that outcome is not modelled.
- The GPU's rendering, the window and keyboard handling in gb.py, and the rest of gb.py apart from one main-loop step (`Decode.Step`) are not part of this model.
