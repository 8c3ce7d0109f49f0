/** The PPU mode timer of pythongb/gpu.py: `GPU.sync` advances a four-mode
    state machine (0 H-Blank, 1 V-Blank, 2 OAM scan, 3 VRAM transfer) by the
    cycle count the CPU reports. */
module Ppu {

  /** The three fields `sync` reads and writes. */
  datatype Timing = Timing(clock: int, mode: int, line: int)

  const HBlank := 0
  const VBlank := 1
  const OamScan := 2
  const VramTransfer := 3

  /** The mode `sync` moves to when a mode's budget is used up; the H-Blank of
      line 142 is followed by another H-Blank, on line 0. */
  function NextMode(mode: int, line: int): int
  {
    if mode == OamScan then VramTransfer
    else if mode == VramTransfer then HBlank
    else if mode == HBlank then (if line + 1 == 143 then HBlank else OamScan)
    else if line + 1 == 10 then OamScan else mode
  }

  /** What one `sync(cycles)` does to the timer (pythongb/gpu.py:22-60). */
  function SyncResult(t: Timing, cycles: int): (u: Timing)
    // at most one transition per call, and it is never into V-Blank
    ensures u.mode == t.mode || u.mode == NextMode(t.mode, t.line)
    ensures u.mode == VBlank ==> t.mode == VBlank
    ensures t.mode in {0, 1, 2, 3} ==> u.mode in {0, 1, 2, 3}
    // a transition always restarts the mode clock
    ensures u.mode != t.mode ==> u.clock == 0
    // VRAM transfer never keeps cycles from one call to the next
    ensures t.mode == VramTransfer ==> u.clock == 0
    // the line only moves when H-Blank or V-Blank ends
    ensures u.line != t.line ==> t.mode !in {OamScan, VramTransfer} && u.clock == 0
  {
    var clock := t.clock + cycles;
    if t.mode == OamScan then
      if clock >= 20 then Timing(0, VramTransfer, t.line) else Timing(clock, OamScan, t.line)
    else if t.mode == VramTransfer then
      Timing(0, if clock >= 43 then HBlank else VramTransfer, t.line)
    else if t.mode == HBlank then
      if clock >= 51 then
        if t.line + 1 == 143 then Timing(0, HBlank, 0) else Timing(0, OamScan, t.line + 1)
      else Timing(clock, HBlank, t.line)
    else
      if clock >= 114 then
        if t.line + 1 == 10 then Timing(0, OamScan, 0) else Timing(0, t.mode, t.line + 1)
      else Timing(clock, t.mode, t.line)
  }

  /** OAM scan (pythongb/gpu.py:24-31). */
  lemma SyncOamScan(t: Timing, cycles: int)
    requires t.mode == OamScan
    ensures var u := SyncResult(t, cycles);
      if t.clock + cycles >= 20 then u == Timing(0, VramTransfer, t.line)
      else u == Timing(t.clock + cycles, OamScan, t.line)
  {
  }

  /** VRAM transfer (pythongb/gpu.py:33-37). */
  lemma SyncVramTransfer(t: Timing, cycles: int)
    requires t.mode == VramTransfer
    ensures var u := SyncResult(t, cycles);
      u.clock == 0 && u.line == t.line &&
      (u.mode == HBlank <==> t.clock + cycles >= 43) &&
      (u.mode == VramTransfer <==> t.clock + cycles < 43)
  {
  }

  /** H-Blank (pythongb/gpu.py:39-50). */
  lemma SyncHBlank(t: Timing, cycles: int)
    requires t.mode == HBlank
    ensures var u := SyncResult(t, cycles);
      if t.clock + cycles < 51 then u == Timing(t.clock + cycles, HBlank, t.line)
      else if t.line + 1 == 143 then u == Timing(0, HBlank, 0)
      else u == Timing(0, OamScan, t.line + 1)
  {
  }

  /** V-Blank (pythongb/gpu.py:52-60). */
  lemma SyncVBlank(t: Timing, cycles: int)
    requires t.mode == VBlank
    ensures var u := SyncResult(t, cycles);
      if t.clock + cycles < 114 then u == Timing(t.clock + cycles, VBlank, t.line)
      else if t.line + 1 == 10 then u == Timing(0, OamScan, 0)
      else u == Timing(0, VBlank, t.line + 1)
  {
  }

  /** The timer state a run of `sync` calls ends in. */
  function SyncAll(t: Timing, cycles: seq<int>): Timing
    decreases |cycles|
  {
    if cycles == [] then t else SyncAll(SyncResult(t, cycles[0]), cycles[1..])
  }

  /** The visible-line invariant: outside V-Blank, lines stay within 0..142. */
  ghost predicate Drawing(t: Timing)
  {
    t.mode in {HBlank, OamScan, VramTransfer} && 0 <= t.line <= 142
  }

  /** One call keeps the timer in the drawing modes on lines 0..142
      (pythongb/gpu.py:42-50). */
  lemma SyncKeepsDrawing(t: Timing, cycles: int)
    requires Drawing(t)
    ensures Drawing(SyncResult(t, cycles))
  {
  }

  /** Started from a drawing mode (as the constructor does: mode 0, line 0),
      no sequence of `sync` calls ever reaches V-Blank or line 143. */
  lemma {:induction false} VBlankUnreachable(t: Timing, cycles: seq<int>)
    requires Drawing(t)
    ensures Drawing(SyncAll(t, cycles))
    ensures SyncAll(t, cycles).mode != VBlank
    decreases |cycles|
  {
    if cycles != [] {
      SyncKeepsDrawing(t, cycles[0]);
      VBlankUnreachable(SyncResult(t, cycles[0]), cycles[1..]);
    }
  }

  /** A full scanline: 20 cycles of OAM scan, 43 of VRAM transfer and 51 of
      H-Blank move from the start of line `l` to the start of line `l + 1`. */
  lemma ScanlineCadence(l: int)
    requires 0 <= l && l + 1 != 143
    ensures SyncAll(Timing(0, OamScan, l), [20, 43, 51]) == Timing(0, OamScan, l + 1)
  {
    assert SyncAll(Timing(0, OamScan, l), [20, 43, 51])
        == SyncAll(Timing(0, VramTransfer, l), [43, 51]);
    assert SyncAll(Timing(0, VramTransfer, l), [43, 51])
        == SyncAll(Timing(0, HBlank, l), [51]);
  }

  /** The GPU object of pythongb/gpu.py. */
  class GPU {
    var clock: int
    var mode: int
    var line: int

    function Timer(): Timing
      reads this
    {
      Timing(clock, mode, line)
    }

    /** `GPU.__init__` (pythongb/gpu.py:5-19): H-Blank, line 0, clock 0. */
    constructor ()
      ensures Timer() == Timing(0, HBlank, 0)
      ensures Drawing(Timer())
    {
      clock := 0;
      mode := HBlank;
      line := 0;
    }

    /** `GPU.sync` (pythongb/gpu.py:22-60). */
    method Sync(cycles: int)
      modifies this
      ensures Timer() == SyncResult(old(Timer()), cycles)
    {
      clock := clock + cycles;
      if mode == OamScan {
        if clock >= 20 {
          mode := VramTransfer;
          clock := 0;
        }
      } else if mode == VramTransfer {
        if clock >= 43 {
          mode := HBlank;
        }
        clock := 0;
      } else if mode == HBlank {
        if clock >= 51 {
          clock := 0;
          line := line + 1;
          if line == 143 {
            mode := HBlank;
            line := 0;
          } else {
            mode := OamScan;
          }
        }
      } else {
        if clock >= 114 {
          clock := 0;
          line := line + 1;
          if line == 10 {
            line := 0;
            mode := OamScan;
          }
        }
      }
    }
  }
}
