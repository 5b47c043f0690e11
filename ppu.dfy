// The PPU of src/PPU.tsx: a countdown mode machine over STAT's two mode
// bits, LY and IF, and the loops that rasterise the background.
//
// PpuTick is tick() on the value (I/O registers, counter); the PPU object's
// Tick does the same to the Memory object's fields. Modes are 2 (OAM scan),
// 3 (drawing), 0 (HBLANK) and 1 (VBLANK).
module Ppu {
  import opened Bits
  import opened MemoryMap
  import opened Background

  const HBlank: nat := 0
  const VBlank: nat := 1
  const OamScan: nat := 2
  const Drawing: nat := 3

  /** The reloads of the counter. */
  const OamClocks: nat := 80
  const DrawClocks: nat := 172
  const HBlankClocks: nat := 204
  const LineClocks: nat := 456

  /** STAT & 0x3 */
  function Mode(stat: byte): nat {
    stat % 4
  }

  /** `STAT - mode + next`: the two mode bits become `next`, the rest stay. */
  function SetMode(stat: byte, next: nat): (r: byte)
    requires next < 4
    ensures Mode(r) == next
    ensures forall i: nat :: i >= 2 ==> Bit(r, i) == Bit(stat, i)
  {
    forall i: nat | i >= 2
      ensures Bit(stat - stat % 4 + next, i) == Bit(stat, i)
    {
      UpperBits(stat / 4, next, i);
      UpperBits(stat / 4, stat % 4, i);
    }
    stat - stat % 4 + next
  }

  /** Bits 2 and up of 4q + lo are the bits of q. */
  lemma UpperBits(q: nat, lo: nat, i: nat)
    requires lo < 4 && i >= 2
    ensures Bit(4 * q + lo, i) == Bit(q, i - 2)
  {
    assert (4 * q + lo) / 2 == 2 * q + lo / 2;
    assert (2 * q + lo / 2) / 2 == q;
  }

  /** The mode bits are bits 0 and 1. */
  lemma ModeBits(x: byte)
    ensures Mode(x) == Bit(x, 0) + 2 * Bit(x, 1)
  {
    LowBits(x);
    assert Bit(x, 1) == Bit(x / 2, 0);
  }

  lemma LowBits(x: nat)
    ensures x % 4 == x % 2 + 2 * ((x / 2) % 2)
  {
    var q, r := x / 4, x % 4;
    assert x == 4 * q + r;
    assert x / 2 == 2 * q + r / 2;
    assert (x / 2) % 2 == r / 2;
    assert x % 2 == r % 2;
  }

  /** The LY setter touches only STAT bit 2, so the mode is kept. */
  lemma SetterKeepsMode(io: IORegs, v: byte)
    ensures Mode(WithLY(io, v).stat) == Mode(io.stat)
  {
    ModeBits(io.stat);
    ModeBits(WithLY(io, v).stat);
  }

  /** `IF |= 1 << n` when `cond` holds. */
  function RaiseIf(io: IORegs, cond: bool, n: nat): IORegs
    requires n < 8
  {
    if cond then io.(iflag := SetBit(io.iflag, n)) else io
  }

  /** The PPU as a value: the I/O registers and clocksToComplete. */
  datatype PpuState = PpuState(io: IORegs, clocks: int)

  /** LCDC >> 7 !== 0 */
  predicate LcdEnabled(io: IORegs) {
    io.lcdc / 128 != 0
  }

  /** What happens when the counter reaches zero. */
  function Transition(io: IORegs): PpuState {
    var mode := Mode(io.stat);
    if mode == OamScan then
      PpuState(io.(stat := SetMode(io.stat, Drawing)), DrawClocks)
    else if mode == Drawing then
      // updateCanvas() is not part of this model
      var io1 := io.(stat := SetMode(io.stat, HBlank));
      PpuState(RaiseIf(io1, TestBit(io1.stat, 3), 1), HBlankClocks)
    else if mode == HBlank then
      HBlankEnd(io)
    else
      VBlankEnd(io)
  }

  /** Leaving HBLANK: LY + 1, then VBLANK at 144 or OAM scan. */
  function HBlankEnd(io: IORegs): PpuState {
    var io1 := WithLY(io, (io.ly + 1) % 256);
    if io1.ly == 144 then
      var io2 := io1.(stat := SetMode(io1.stat, VBlank));
      PpuState(RaiseIf(io2, TestBit(io2.stat, 4), 0), LineClocks)
    else
      var io2 := io1.(stat := SetMode(io1.stat, OamScan));
      PpuState(RaiseIf(io2, TestBit(io2.stat, 5), 1), OamClocks)
  }

  /** The end of a VBLANK line: LY + 1, or line 0 and OAM scan after 154,
      then the LY == LYC interrupt when STAT bits 2 and 6 are set. */
  function VBlankEnd(io: IORegs): PpuState {
    var next :=
      if io.ly == 154 then
        var io1 := WithLY(io, 0);
        var io2 := io1.(stat := SetMode(io1.stat, OamScan));
        PpuState(RaiseIf(io2, TestBit(io2.stat, 5), 1), OamClocks)
      else
        PpuState(WithLY(io, (io.ly + 1) % 256), LineClocks);
    var st := next.io.stat;
    next.(io := RaiseIf(next.io, TestBit(st, 2) && TestBit(st, 6), 1))
  }

  /** tick() */
  function PpuTick(s: PpuState): PpuState {
    if !LcdEnabled(s.io) then s
    else if s.clocks - 1 == 0 then Transition(s.io)
    else s.(clocks := s.clocks - 1)
  }

  /** n ticks. */
  function Run(s: PpuState, n: nat): PpuState
    decreases n
  {
    if n == 0 then s else PpuTick(Run(s, n - 1))
  }

  /** The part of the state that decides timing: LCDC, LY, the mode and
      the counter. */
  datatype Timing = Timing(lcdc: byte, ly: byte, mode: nat, clocks: int)

  function TimingOf(s: PpuState): Timing {
    Timing(s.io.lcdc, s.io.ly, Mode(s.io.stat), s.clocks)
  }

  /** The mode machine's skeleton as a table of edges: the mode and counter
      after a transition from mode `t.mode` at line `t.ly`. */
  function NextTiming(t: Timing): Timing {
    if t.mode == OamScan then t.(mode := Drawing, clocks := DrawClocks)
    else if t.mode == Drawing then t.(mode := HBlank, clocks := HBlankClocks)
    else if t.mode == HBlank then
      if (t.ly + 1) % 256 == 144 then t.(ly := 144, mode := VBlank, clocks := LineClocks)
      else t.(ly := (t.ly + 1) % 256, mode := OamScan, clocks := OamClocks)
    else if t.ly == 154 then t.(ly := 0, mode := OamScan, clocks := OamClocks)
    else t.(ly := (t.ly + 1) % 256, clocks := LineClocks)
  }

  // ---------------------------------------------------------------------
  // One tick

  /** LCDC >> 7 is bit 7 of LCDC. */
  lemma EnabledIsBit7(io: IORegs)
    ensures LcdEnabled(io) <==> TestBit(io.lcdc, 7)
  {
    BitSeven(io.lcdc);
  }

  /** With LCDC bit 7 clear a tick changes nothing, not even the counter. */
  lemma TickWhenOff(s: PpuState)
    requires !TestBit(s.io.lcdc, 7)
    ensures PpuTick(s) == s
  {
    EnabledIsBit7(s.io);
  }

  /** With the LCD on, a transition happens exactly on the tick that brings
      the counter to 0; every other tick only decrements it. */
  lemma TickWhenOn(s: PpuState)
    requires TestBit(s.io.lcdc, 7)
    ensures s.clocks == 1 ==> PpuTick(s) == Transition(s.io)
    ensures s.clocks != 1 ==> PpuTick(s) == s.(clocks := s.clocks - 1)
  {
    EnabledIsBit7(s.io);
  }

  /** The mode edges and their reloads: 2 to 3 (172), 3 to 0 (204), 0 to 1
      (456) when LY becomes 144 and 0 to 2 (80) otherwise, 1 to 2 (80) when
      LY was 154 and 1 to 1 (456) otherwise. */
  lemma TransitionEdges(io: IORegs)
    ensures var t := Transition(io); var mode, next := Mode(io.stat), Mode(t.io.stat);
      (mode == OamScan ==> next == Drawing && t.clocks == 172) &&
      (mode == Drawing ==> next == HBlank && t.clocks == 204) &&
      (mode == HBlank && t.io.ly == 144 ==> next == VBlank && t.clocks == 456) &&
      (mode == HBlank && t.io.ly != 144 ==> next == OamScan && t.clocks == 80) &&
      (mode == VBlank && io.ly == 154 ==> next == OamScan && t.clocks == 80) &&
      (mode == VBlank && io.ly != 154 ==> next == VBlank && t.clocks == 456)
  {
    SetterKeepsMode(io, (io.ly + 1) % 256);
  }

  /** Leaving HBLANK and each VBLANK step advance LY by one (mod 256), except
      that VBLANK at LY 154 resets it to 0; OAM scan and drawing keep LY. */
  lemma TransitionLines(io: IORegs)
    ensures var t := Transition(io); var mode := Mode(io.stat);
      (mode == OamScan || mode == Drawing ==> t.io.ly == io.ly) &&
      (mode == HBlank ==> t.io.ly == (io.ly + 1) % 256) &&
      (mode == VBlank && io.ly == 154 ==> t.io.ly == 0) &&
      (mode == VBlank && io.ly != 154 ==> t.io.ly == (io.ly + 1) % 256)
  {
    var mode := Mode(io.stat);
    if mode == HBlank {
      assert Transition(io).io.ly == WithLY(io, (io.ly + 1) % 256).ly;
    } else if mode == VBlank {
      var next := if io.ly == 154 then WithLY(io, 0) else WithLY(io, (io.ly + 1) % 256);
      assert Transition(io).io.ly == next.ly;
    }
  }

  /** A transition rewrites STAT's mode bits, STAT bit 2 only through the LY
      setter (so it then records LY == LYC), LY and IF, and no other
      register. */
  lemma TransitionFrame(io: IORegs)
    ensures var t := Transition(io);
      t.io == io.(stat := t.io.stat, ly := t.io.ly, iflag := t.io.iflag) &&
      (forall i: nat :: i >= 3 ==> Bit(t.io.stat, i) == Bit(io.stat, i)) &&
      (Mode(io.stat) == OamScan || Mode(io.stat) == Drawing ==> Bit(t.io.stat, 2) == Bit(io.stat, 2)) &&
      (Mode(io.stat) == HBlank || Mode(io.stat) == VBlank ==>
        Bit(t.io.stat, 2) == if t.io.ly == io.lyc then 1 else 0)
  {
  }

  /** IF is only ever OR-ed: bit 0 is raised on entering VBLANK when STAT
      bit 4 is set; bit 1 on entering HBLANK when STAT bit 3 is set, on
      entering OAM scan when STAT bit 5 is set, and after each VBLANK step
      when STAT bits 2 and 6 are set; no other IF bit changes. */
  lemma TransitionInterrupts(io: IORegs)
    ensures var t := Transition(io); var mode := Mode(io.stat); var next := Mode(t.io.stat);
      var vblank := mode == HBlank && next == VBlank && TestBit(io.stat, 4);
      var stat :=
        (mode == Drawing && TestBit(io.stat, 3)) ||
        (mode == HBlank && next == OamScan && TestBit(io.stat, 5)) ||
        (mode == VBlank && next == OamScan && TestBit(io.stat, 5)) ||
        (mode == VBlank && TestBit(t.io.stat, 2) && TestBit(io.stat, 6));
      (TestBit(t.io.iflag, 0) <==> TestBit(io.iflag, 0) || vblank) &&
      (TestBit(t.io.iflag, 1) <==> TestBit(io.iflag, 1) || stat) &&
      (forall i: nat :: i >= 2 ==> Bit(t.io.iflag, i) == Bit(io.iflag, i))
  {
    SetterKeepsMode(io, (io.ly + 1) % 256);
    SetterKeepsMode(io, 0);
  }

  // ---------------------------------------------------------------------
  // Many ticks

  lemma {:induction false} RunAdd(s: PpuState, a: nat, b: nat)
    ensures Run(s, a + b) == Run(Run(s, a), b)
    decreases b
  {
    if b > 0 {
      RunAdd(s, a, b - 1);
    }
  }

  /** With the LCD off the PPU stays frozen however long it runs. */
  lemma {:induction false} RunWhenOff(s: PpuState, n: nat)
    requires !TestBit(s.io.lcdc, 7)
    ensures Run(s, n) == s
    decreases n
  {
    if n > 0 {
      RunWhenOff(s, n - 1);
      TickWhenOff(s);
    }
  }

  /** With the LCD on, j ticks short of the counter only count down. */
  lemma {:induction false} CountDown(s: PpuState, j: nat)
    requires TestBit(s.io.lcdc, 7) && j < s.clocks
    ensures Run(s, j) == s.(clocks := s.clocks - j)
    decreases j
  {
    if j > 0 {
      CountDown(s, j - 1);
      TickWhenOn(s.(clocks := s.clocks - (j - 1)));
    }
  }

  /** With the LCD on, a counter of k fires its transition after exactly k ticks. */
  lemma Segment(s: PpuState, k: nat)
    requires TestBit(s.io.lcdc, 7) && s.clocks == k
    ensures k >= 1 ==> Run(s, k) == Transition(s.io)
  {
    if k >= 1 {
      CountDown(s, k - 1);
      TickWhenOn(s.(clocks := 1));
    }
  }

  /** A counter at or below 0 never reaches 0 again: the `== 0` test means
      such a PPU counts down forever without a transition. In particular the
      power-on PPU (counter 0, LCD on) never changes mode. */
  lemma {:induction false} NeverFires(s: PpuState, n: nat)
    requires s.clocks <= 0
    ensures Run(s, n) == if LcdEnabled(s.io) then s.(clocks := s.clocks - n) else s
    decreases n
  {
    if n > 0 {
      NeverFires(s, n - 1);
    }
  }

  lemma PowerOnFrozen(n: nat)
    ensures Run(PpuState(PowerOn().io, 0), n) == PpuState(PowerOn().io, 0 - n)
  {
    PowerOnDefaults();
    NeverFires(PpuState(PowerOn().io, 0), n);
  }

  /** A transition follows the edge table, whatever the other registers hold. */
  lemma TransitionTiming(io: IORegs, clocks: int)
    ensures TimingOf(Transition(io)) == NextTiming(TimingOf(PpuState(io, clocks)))
  {
    TransitionEdges(io);
    TransitionLines(io);
    assert Transition(io).io.lcdc == io.lcdc;
  }

  // ---------------------------------------------------------------------
  // The timing skeleton as a machine of its own

  /** LCDC bit 7, as the tick tests it. */
  predicate On(lcdc: byte) {
    lcdc / 128 != 0
  }

  /** tick() on the timing skeleton alone. */
  function TimingTick(t: Timing): Timing {
    if !On(t.lcdc) then t
    else if t.clocks - 1 == 0 then NextTiming(t)
    else t.(clocks := t.clocks - 1)
  }

  function TimingRun(t: Timing, n: nat): Timing
    decreases n
  {
    if n == 0 then t else TimingTick(TimingRun(t, n - 1))
  }

  /** The skeleton is an abstraction of the PPU: the timing after a tick is
      the skeleton's tick of the timing before it. */
  lemma TickRefines(s: PpuState)
    ensures TimingOf(PpuTick(s)) == TimingTick(TimingOf(s))
  {
    if LcdEnabled(s.io) && s.clocks - 1 == 0 {
      TransitionTiming(s.io, s.clocks);
    }
  }

  lemma {:induction false} RunRefines(s: PpuState, n: nat)
    ensures TimingOf(Run(s, n)) == TimingRun(TimingOf(s), n)
    decreases n
  {
    if n > 0 {
      RunRefines(s, n - 1);
      TickRefines(Run(s, n - 1));
    }
  }

  lemma {:induction false} TimingRunAdd(t: Timing, a: nat, b: nat)
    ensures TimingRun(t, a + b) == TimingRun(TimingRun(t, a), b)
    decreases b
  {
    if b > 0 {
      TimingRunAdd(t, a, b - 1);
    }
  }

  /** TimingRunAdd with the total named, so that it matches a goal's count. */
  lemma TimingRunSplit(t: Timing, a: nat, b: nat, c: nat)
    requires c == a + b
    ensures TimingRun(t, c) == TimingRun(TimingRun(t, a), b)
  {
    TimingRunAdd(t, a, b);
  }

  lemma {:induction false} TimingCountDown(t: Timing, j: nat)
    requires On(t.lcdc) && j < t.clocks
    ensures TimingRun(t, j) == t.(clocks := t.clocks - j)
    decreases j
  {
    if j > 0 {
      TimingCountDown(t, j - 1);
    }
  }

  /** A segment of k ticks ends on the next edge of the table. */
  lemma TimingSegment(t: Timing, k: nat)
    requires On(t.lcdc) && t.clocks == k
    ensures k >= 1 ==> TimingRun(t, k) == NextTiming(t)
  {
    if k >= 1 {
      TimingCountDown(t, k - 1);
      NextIgnoresClocks(t);
    }
  }

  /** The edge taken does not depend on the counter. */
  lemma NextIgnoresClocks(t: Timing)
    ensures NextTiming(t.(clocks := 1)) == NextTiming(t)
  {
  }

  /** The state a visible line starts in: OAM scan, or VBLANK at LY 144. */
  function LineStart(lcdc: byte, ly: byte): Timing {
    if ly == 144 then Timing(lcdc, 144, VBlank, LineClocks) else Timing(lcdc, ly, OamScan, OamClocks)
  }

  /** A visible line: from the start of OAM scan, 80 + 172 + 204 = 456 ticks
      later LY has advanced by one and the next line has started. */
  lemma VisibleLine(lcdc: byte, ly: byte)
    requires On(lcdc) && ly < 144
    ensures TimingRun(Timing(lcdc, ly, OamScan, OamClocks), LineClocks) == LineStart(lcdc, ly + 1)
  {
    var t0 := Timing(lcdc, ly, OamScan, OamClocks);
    var t1 := Timing(lcdc, ly, Drawing, DrawClocks);
    var t2 := Timing(lcdc, ly, HBlank, HBlankClocks);
    TimingSegment(t0, OamClocks);
    assert TimingRun(t0, 80) == t1;
    TimingSegment(t1, DrawClocks);
    assert TimingRun(t1, 172) == t2;
    TimingSegment(t2, HBlankClocks);
    HBlankEdge(lcdc, ly);
    assert TimingRun(t2, 204) == LineStart(lcdc, ly + 1);
    TimingRunAdd(t0, 80, 172);
    assert TimingRun(t0, 252) == t2;
    TimingRunAdd(t0, 252, 204);
  }

  lemma HBlankEdge(lcdc: byte, ly: byte)
    requires ly < 144
    ensures NextTiming(Timing(lcdc, ly, HBlank, HBlankClocks)) == LineStart(lcdc, ly + 1)
  {
  }

  /** A VBLANK line: 456 ticks take LY one line further, or from 154 back to
      OAM scan on line 0. */
  lemma VBlankLine(lcdc: byte, ly: byte)
    requires On(lcdc) && 144 <= ly <= 154
    ensures ly < 154 ==> TimingRun(Timing(lcdc, ly, VBlank, LineClocks), LineClocks) == Timing(lcdc, ly + 1, VBlank, LineClocks)
    ensures ly == 154 ==> TimingRun(Timing(lcdc, ly, VBlank, LineClocks), LineClocks) == Timing(lcdc, 0, OamScan, OamClocks)
  {
    TimingSegment(Timing(lcdc, ly, VBlank, LineClocks), LineClocks);
  }

  /** n visible lines from the start of line LY advance LY by n, ending in
      OAM scan or, at LY 144, in VBLANK. */
  lemma {:induction false} VisibleLines(lcdc: byte, ly: byte, n: nat)
    requires On(lcdc) && ly < 144 && ly + n <= 144
    ensures TimingRun(Timing(lcdc, ly, OamScan, OamClocks), LineClocks * n) == LineStart(lcdc, ly + n)
    decreases n
  {
    if n > 0 {
      var t := Timing(lcdc, ly, OamScan, OamClocks);
      var u := Timing(lcdc, ly + n - 1, OamScan, OamClocks);
      var a := LineClocks * (n - 1);
      VisibleLines(lcdc, ly, n - 1);
      assert TimingRun(t, a) == u;
      VisibleLine(lcdc, ly + n - 1);
      assert TimingRun(u, LineClocks) == LineStart(lcdc, ly + n);
      assert a + LineClocks == LineClocks * n;
      TimingRunSplit(t, a, LineClocks, LineClocks * n);
    }
  }

  /** n VBLANK lines from LY 144 or later advance LY by n while it stays at
      most 154. */
  lemma {:induction false} VBlankLines(lcdc: byte, ly: byte, n: nat)
    requires On(lcdc) && 144 <= ly && ly + n <= 154
    ensures TimingRun(Timing(lcdc, ly, VBlank, LineClocks), LineClocks * n) == Timing(lcdc, ly + n, VBlank, LineClocks)
    decreases n
  {
    if n > 0 {
      var t := Timing(lcdc, ly, VBlank, LineClocks);
      var u := Timing(lcdc, ly + n - 1, VBlank, LineClocks);
      var a := LineClocks * (n - 1);
      VBlankLines(lcdc, ly, n - 1);
      assert TimingRun(t, a) == u;
      VBlankLine(lcdc, ly + n - 1);
      assert TimingRun(u, LineClocks) == Timing(lcdc, ly + n, VBlank, LineClocks);
      assert a + LineClocks == LineClocks * n;
      TimingRunSplit(t, a, LineClocks, LineClocks * n);
    }
  }

  /** A frame of the skeleton: 144 visible lines and 11 VBLANK lines (LY 144
      to 154), 155 * 456 = 70680 ticks, lead back to OAM scan on line 0. */
  lemma FrameTiming(lcdc: byte)
    requires On(lcdc)
    ensures TimingRun(Timing(lcdc, 0, OamScan, OamClocks), 70680) == Timing(lcdc, 0, OamScan, OamClocks)
  {
    var t := Timing(lcdc, 0, OamScan, OamClocks);
    VisibleLines(lcdc, 0, 144);
    VBlankLines(lcdc, 144, 10);
    VBlankLine(lcdc, 154);
    TimingRunAdd(t, LineClocks * 144, LineClocks * 10);
    TimingRunAdd(t, LineClocks * 154, LineClocks);
  }

  /** A frame of the PPU: from the start of OAM scan on line 0 it is back
      there, with the same LCDC, after 70680 ticks. */
  lemma Frame(s: PpuState)
    requires TestBit(s.io.lcdc, 7) && Mode(s.io.stat) == OamScan && s.clocks == OamClocks && s.io.ly == 0
    ensures TimingOf(Run(s, 70680)) == Timing(s.io.lcdc, 0, OamScan, OamClocks)
  {
    EnabledIsBit7(s.io);
    RunRefines(s, 70680);
    FrameTiming(s.io.lcdc);
  }

  // ---------------------------------------------------------------------
  // LY as written: a setter without storage

  /** A transition as the source writes it. `this.memory.LY` reads
      `undefined`, so `LY + 1` is NaN, `LY === 144` and `LY === 154` never
      hold and each LY assignment only clears STAT bit 2: HBLANK always
      goes on to OAM scan, and a VBLANK line only reloads 456. */
  function TransitionAsWritten(io: IORegs): PpuState {
    var mode := Mode(io.stat);
    if mode == OamScan || mode == Drawing then Transition(io)
    else if mode == HBlank then
      var io1 := io.(stat := StatAfterSetterAsWritten(io.stat));
      var io2 := io1.(stat := SetMode(io1.stat, OamScan));
      PpuState(RaiseIf(io2, TestBit(io2.stat, 5), 1), OamClocks)
    else
      var io1 := io.(stat := StatAfterSetterAsWritten(io.stat));
      PpuState(RaiseIf(io1, TestBit(io1.stat, 6) && TestBit(io1.stat, 2), 1), LineClocks)
  }

  /** tick() as written. */
  function PpuTickAsWritten(s: PpuState): PpuState {
    if !LcdEnabled(s.io) then s
    else if s.clocks - 1 == 0 then TransitionAsWritten(s.io)
    else s.(clocks := s.clocks - 1)
  }

  function RunAsWritten(s: PpuState, n: nat): PpuState
    decreases n
  {
    if n == 0 then s else PpuTickAsWritten(RunAsWritten(s, n - 1))
  }

  /** As written, a PPU outside VBLANK never enters it, however many ticks
      pass: the VBLANK interrupt (IF bit 0) is never requested. */
  lemma {:induction false} NeverVBlankAsWritten(s: PpuState, n: nat)
    requires Mode(s.io.stat) != VBlank && !TestBit(s.io.iflag, 0)
    ensures Mode(RunAsWritten(s, n).io.stat) != VBlank
    ensures !TestBit(RunAsWritten(s, n).io.iflag, 0)
    decreases n
  {
    if n > 0 {
      NeverVBlankAsWritten(s, n - 1);
      var t := RunAsWritten(s, n - 1);
      if LcdEnabled(t.io) && t.clocks - 1 == 0 {
        StepAsWritten(t.io);
      }
    }
  }

  /** One transition as written, out of a mode other than VBLANK: the next
      mode is not VBLANK either (out of HBLANK it is OAM scan), and IF bit 0
      is untouched. */
  lemma StepAsWritten(io: IORegs)
    requires Mode(io.stat) != VBlank
    ensures Mode(TransitionAsWritten(io).io.stat) != VBlank
    ensures Bit(TransitionAsWritten(io).io.iflag, 0) == Bit(io.iflag, 0)
    ensures Mode(io.stat) == HBlank ==> Mode(TransitionAsWritten(io).io.stat) == OamScan
  {
    var mode := Mode(io.stat);
    if mode == Drawing {
      var io1 := io.(stat := SetMode(io.stat, HBlank));
      assert TransitionAsWritten(io) == PpuState(RaiseIf(io1, TestBit(io1.stat, 3), 1), HBlankClocks);
    } else if mode == HBlank {
      var io1 := io.(stat := StatAfterSetterAsWritten(io.stat));
      var io2 := io1.(stat := SetMode(io1.stat, OamScan));
      assert TransitionAsWritten(io) == PpuState(RaiseIf(io2, TestBit(io2.stat, 5), 1), OamClocks);
    }
  }

  /** The line that shows it: at the end of HBLANK on line 143 the model
      enters VBLANK on line 144, the code as written starts OAM scan. */
  lemma LastLineAsWritten(io: IORegs)
    requires Mode(io.stat) == HBlank && io.ly == 143
    ensures Mode(Transition(io).io.stat) == VBlank && Transition(io).io.ly == 144
    ensures Mode(TransitionAsWritten(io).io.stat) == OamScan
  {
    TransitionTiming(io, HBlankClocks);
    HBlankEdge(io.lcdc, 143);
    StepAsWritten(io);
  }

  // ---------------------------------------------------------------------
  // The PPU object

  /** The bytes of a tile, as TileByte gives them. */
  ghost function TileImage(m: MemState, dataArea: bool, mapArea: bool, palette: byte, obj: bool,
                           X: nat, Y: nat): (r: seq<byte>)
    requires MapAddr(mapArea, X, Y) <= 0xFFFF
    ensures |r| == TileBytes
    ensures forall j :: 0 <= j < TileBytes ==> r[j] == TileByte(m, dataArea, mapArea, palette, obj, X, Y, j)
  {
    seq(TileBytes, j requires 0 <= j < TileBytes => TileByte(m, dataArea, mapArea, palette, obj, X, Y, j))
  }

  /** Row y of a tile, given its two row bytes: byte j of the row belongs
      to pixel (j / 4) % 8 and is its channel j % 4. */
  lemma RowPixels(m: MemState, dataArea: bool, mapArea: bool, palette: byte, obj: bool,
                  X: nat, Y: nat, y: nat, lower: byte, upper: byte)
    requires MapAddr(mapArea, X, Y) <= 0xFFFF && y < 8
    requires var base := TileBase(dataArea, Read(m, MapAddr(mapArea, X, Y)));
      lower == Read(m, base + 2 * y) && upper == Read(m, base + 2 * y + 1)
    ensures var w := TileImage(m, dataArea, mapArea, palette, obj, X, Y);
      forall j :: 32 * y <= j < 32 * y + 32 ==>
        w[j] == PixelByte(ColorIndex(lower, upper, (j / 4) % 8), j % 4, palette, obj)
  {
    forall j | 32 * y <= j < 32 * y + 32
      ensures TileImage(m, dataArea, mapArea, palette, obj, X, Y)[j] ==
        PixelByte(ColorIndex(lower, upper, (j / 4) % 8), j % 4, palette, obj)
    {
      RowArith(j, y);
      assert TileColor(m, dataArea, mapArea, X, Y, (j / 4) % 8, y) == ColorIndex(lower, upper, (j / 4) % 8);
    }
  }

  lemma RowArith(j: nat, y: nat)
    requires 32 * y <= j < 32 * y + 32
    ensures j / 32 == y
  {
  }

  /** The inner loop of fetchTile: the eight pixels of row y. */
  method DrawRow(tile: array<byte>, y: nat, lower: byte, upper: byte, palette: byte, obj: bool,
                 ghost want: seq<byte>)
    requires tile.Length == TileBytes == |want| && y < 8
    requires forall j :: 0 <= j < TileBytes ==> tile[j] == if j < 32 * y then want[j] else 0
    requires forall j :: 32 * y <= j < 32 * y + 32 ==>
      want[j] == PixelByte(ColorIndex(lower, upper, (j / 4) % 8), j % 4, palette, obj)
    modifies tile
    ensures forall j :: 0 <= j < TileBytes ==> tile[j] == if j < 32 * y + 32 then want[j] else 0
  {
    for x := 0 to 8
      invariant forall j :: 0 <= j < TileBytes ==> tile[j] == if j < 32 * y + 4 * x then want[j] else 0
    {
      var colorIndex := ColorIndex(lower, upper, x);
      var p := (y * 8 + x) * 4;
      PixelOffsets(y, x);
      ghost var before := tile[..];
      if obj && colorIndex == 0 {
        // transparent
        tile[p + 3] := 0;
      } else {
        var color := Shade(palette, colorIndex);
        var v := ShadeValue(color);
        tile[p], tile[p + 1], tile[p + 2], tile[p + 3] := v, v, v, 255;
      }
      assert tile[p] == want[p] && tile[p + 1] == want[p + 1];
      assert tile[p + 2] == want[p + 2] && tile[p + 3] == want[p + 3];
      Extend(want, before, tile[..], p, p + 4);
    }
  }

  /** Byte k of pixel (x, y) is at 32y + 4x + k. */
  lemma PixelOffsets(y: nat, x: nat)
    requires x < 8
    ensures var p := (y * 8 + x) * 4;
      p == 32 * y + 4 * x &&
      (p / 4) % 8 == x && p % 4 == 0 && ((p + 1) / 4) % 8 == x && (p + 1) % 4 == 1 &&
      ((p + 2) / 4) % 8 == x && (p + 2) % 4 == 2 && ((p + 3) / 4) % 8 == x && (p + 3) % 4 == 3
  {
    var p := (y * 8 + x) * 4;
    assert p / 4 == 8 * y + x && (p + 1) / 4 == 8 * y + x;
    assert (p + 2) / 4 == 8 * y + x && (p + 3) / 4 == 8 * y + x;
  }

  /** A buffer filled with `want` below p and zero above, once p..q is
      written with `want` and nothing else changes, is filled below q. */
  lemma Extend(want: seq<byte>, before: seq<byte>, after: seq<byte>, p: nat, q: nat)
    requires |want| == |before| == |after| && p <= q <= |want|
    requires forall j :: 0 <= j < |before| ==> before[j] == if j < p then want[j] else 0
    requires forall j :: p <= j < q ==> after[j] == want[j]
    requires forall j :: 0 <= j < |after| && !(p <= j < q) ==> after[j] == before[j]
    ensures forall j :: 0 <= j < |after| ==> after[j] == if j < q then want[j] else 0
  {
  }

  /** Row, column and channel of background byte j. */
  function RowOf(j: nat): nat { j / 1024 }
  function ColOf(j: nat): nat { (j / 4) % 256 }
  function ChanOf(j: nat): nat { j % 4 }

  class PPU {
    const memory: Memory
    var clocksToComplete: int

    constructor(memory: Memory)
      ensures this.memory == memory && clocksToComplete == 0
    {
      this.memory := memory;
      clocksToComplete := 0;
    }

    function State(): PpuState
      reads this, memory
    {
      PpuState(memory.IO(), clocksToComplete)
    }

    method Tick()
      modifies this, memory
      ensures State() == PpuTick(old(State()))
    {
      var enableLCD := memory.LCDC / 128 != 0;
      if !enableLCD {
        return;
      }
      clocksToComplete := clocksToComplete - 1;
      if clocksToComplete == 0 {
        Transit();
      }
    }

    /** The body of the `clocksToComplete === 0` branch: one mode edge. */
    method Transit()
      modifies this, memory
      ensures State() == Transition(old(memory.IO()))
    {
      var mode := memory.STAT % 4;
      if mode == 2 {
        memory.STAT := memory.STAT - mode + 3;
        clocksToComplete := 172;
      } else if mode == 3 {
        // updateCanvas() is not part of this model
        memory.STAT := memory.STAT - mode;
        clocksToComplete := 204;
        if TestBit(memory.STAT, 3) {
          memory.IF := SetBit(memory.IF, 1);
        }
      } else if mode == 0 {
        LeaveHBlank(mode);
      } else {
        StepVBlank(mode);
      }
    }

    /** End of HBLANK: the next line, then VBLANK at LY 144 or OAM scan. */
    method LeaveHBlank(mode: nat)
      requires mode == Mode(memory.STAT)
      modifies this, memory
      ensures State() == HBlankEnd(old(memory.IO()))
    {
      ghost var io1 := WithLY(memory.IO(), (memory.LY + 1) % 256);
      SetterKeepsMode(memory.IO(), (memory.LY + 1) % 256);
      memory.SetLY((memory.LY + 1) % 256);
      assert memory.IO() == io1 && mode == Mode(io1.stat);
      if memory.LY == 144 {
        EnterMode(mode, VBlank);
        ghost var io2 := io1.(stat := SetMode(io1.stat, VBlank));
        assert memory.IO() == io2;
        clocksToComplete := 456;
        RaiseInterrupt(TestBit(memory.STAT, 4), 0);
        assert State() == PpuState(RaiseIf(io2, TestBit(io2.stat, 4), 0), LineClocks);
      } else {
        EnterMode(mode, OamScan);
        ghost var io2 := io1.(stat := SetMode(io1.stat, OamScan));
        assert memory.IO() == io2;
        clocksToComplete := 80;
        RaiseInterrupt(TestBit(memory.STAT, 5), 1);
        assert State() == PpuState(RaiseIf(io2, TestBit(io2.stat, 5), 1), OamClocks);
      }
    }

    /** A VBLANK line ends: the next line, or line 0 and OAM scan after 154,
        then the LY == LYC interrupt. */
    method StepVBlank(mode: nat)
      requires mode == Mode(memory.STAT)
      modifies this, memory
      ensures State() == VBlankEnd(old(memory.IO()))
    {
      ghost var io := memory.IO();
      ghost var next: PpuState;
      if memory.LY == 154 {
        RestartFrame(mode);
        next := PpuState(RaiseIf(WithLY(io, 0).(stat := SetMode(WithLY(io, 0).stat, OamScan)),
                                 TestBit(SetMode(WithLY(io, 0).stat, OamScan), 5), 1), OamClocks);
      } else {
        memory.SetLY((memory.LY + 1) % 256);
        clocksToComplete := 456;
        next := PpuState(WithLY(io, (io.ly + 1) % 256), LineClocks);
      }
      assert State() == next;
      RaiseInterrupt(TestBit(memory.STAT, 2) && TestBit(memory.STAT, 6), 1);
    }

    /** After line 154: line 0, OAM scan, and its STAT interrupt. */
    method RestartFrame(mode: nat)
      requires mode == Mode(memory.STAT)
      modifies this, memory
      ensures var io1 := WithLY(old(memory.IO()), 0);
              var io2 := io1.(stat := SetMode(io1.stat, OamScan));
              State() == PpuState(RaiseIf(io2, TestBit(io2.stat, 5), 1), OamClocks)
    {
      ghost var io1 := WithLY(memory.IO(), 0);
      SetterKeepsMode(memory.IO(), 0);
      memory.SetLY(0);
      assert memory.IO() == io1 && mode == Mode(io1.stat);
      EnterMode(mode, OamScan);
      clocksToComplete := 80;
      RaiseInterrupt(TestBit(memory.STAT, 5), 1);
    }

    /** `STAT = STAT - mode + next`: only the mode bits of STAT change. */
    method EnterMode(mode: nat, next: nat)
      requires mode == Mode(memory.STAT) && next < 4
      modifies memory
      ensures memory.IO() == old(memory.IO()).(stat := SetMode(old(memory.STAT), next))
    {
      memory.STAT := memory.STAT - mode + next;
    }

    /** `if (cond) IF |= 1 << n`. */
    method RaiseInterrupt(cond: bool, n: nat)
      requires n < 8
      modifies memory
      ensures memory.IO() == RaiseIf(old(memory.IO()), cond, n)
    {
      if cond {
        memory.IF := SetBit(memory.IF, n);
      }
    }

    method FetchTile(dataArea: bool, mapArea: bool, palette: byte, obj: bool, X: nat, Y: nat)
      returns (tile: array<byte>)
      requires memory.Valid() && MapAddr(mapArea, X, Y) <= 0xFFFF
      ensures fresh(tile) && tile.Length == TileBytes
      ensures forall j :: 0 <= j < TileBytes ==>
        tile[j] == TileByte(memory.Abs(), dataArea, mapArea, palette, obj, X, Y, j)
    {
      ghost var m := memory.Abs();
      ghost var want := TileImage(m, dataArea, mapArea, palette, obj, X, Y);
      tile := new byte[TileBytes](_ => 0);
      var mapAddr := if mapArea then 0x9800 + (Y * 32 + X) else 0x9C00 + (Y * 32 + X);
      var index := memory.ReadByte(mapAddr);
      var dataAddr := TileDataAddr(dataArea, index);
      assert dataAddr == TileBase(dataArea, Read(m, MapAddr(mapArea, X, Y)));
      for y := 0 to 8
        invariant forall j :: 0 <= j < TileBytes ==> tile[j] == if j < 32 * y then want[j] else 0
      {
        var lower := memory.ReadByte(dataAddr + y * 2);
        var upper := memory.ReadByte(dataAddr + y * 2 + 1);
        RowPixels(m, dataArea, mapArea, palette, obj, X, Y, y, lower, upper);
        DrawRow(tile, y, lower, upper, palette, obj, want);
      }
    }

    method GenerateBG() returns (img: array<byte>)
      requires memory.Valid()
      ensures fresh(img) && img.Length == BGBytes
      ensures forall j :: 0 <= j < BGBytes ==> img[j] == BGByte(memory.Abs(), j)
    {
      ghost var m := memory.Abs();
      img := new byte[BGBytes](_ => 0);
      // set all pixels to white
      for y := 0 to 256
        invariant forall j :: 0 <= j < BGBytes ==> img[j] == if j < 1024 * y then 255 else 0
      {
        for x := 0 to 256
          invariant forall j :: 0 <= j < BGBytes ==> img[j] == if j < 1024 * y + 4 * x then 255 else 0
        {
          var index := y * 256 + x;
          img[index * 4], img[index * 4 + 1], img[index * 4 + 2], img[index * 4 + 3] := 255, 255, 255, 255;
        }
      }
      if Bit(memory.LCDC, 0) == 0 {
        return;
      }
      var dataArea := Bit(memory.LCDC, 4) == 0;
      var mapArea := Bit(memory.LCDC, 3) == 0;
      for Y := 0 to 32
        invariant forall j :: 0 <= j < BGBytes ==>
          img[j] == if RowOf(j) < 8 * Y then BGByte(m, j) else 255
      {
        for X := 0 to 32
          invariant forall j :: 0 <= j < BGBytes ==>
            img[j] == if RowOf(j) < 8 * Y || (RowOf(j) < 8 * Y + 8 && ColOf(j) < 8 * X) then BGByte(m, j) else 255
        {
          var palette := memory.BGP;
          var tile := FetchTile(dataArea, mapArea, palette, false, X, Y);
          CopyTile(img, tile, m, X, Y);
        }
      }
    }
  }

  /** The copy loop of generateBG for tile (X, Y). */
  method CopyTile(img: array<byte>, tile: array<byte>, ghost m: MemState, X: nat, Y: nat)
    requires img != tile && img.Length == BGBytes && tile.Length == TileBytes
    requires X < 32 && Y < 32 && Bit(m.io.lcdc, 0) == 1
    requires forall j :: 0 <= j < TileBytes ==>
      tile[j] == TileByte(m, Bit(m.io.lcdc, 4) == 0, Bit(m.io.lcdc, 3) == 0, m.io.bgp, false, X, Y, j)
    requires forall j :: 0 <= j < BGBytes ==>
      img[j] == if RowOf(j) < 8 * Y || (RowOf(j) < 8 * Y + 8 && ColOf(j) < 8 * X) then BGByte(m, j) else 255
    modifies img
    ensures forall j :: 0 <= j < BGBytes ==>
      img[j] == if RowOf(j) < 8 * Y || (RowOf(j) < 8 * Y + 8 && ColOf(j) < 8 * X + 8) then BGByte(m, j) else 255
  {
    CopyStart(img[..], m, X, Y);
    for y := 0 to 8
      invariant Progress(img[..], m, X, Y, 32 * y)
    {
      for x := 0 to 8
        invariant Progress(img[..], m, X, Y, 32 * y + 4 * x)
      {
        for k := 0 to 4
          invariant Progress(img[..], m, X, Y, 32 * y + 4 * x + k)
        {
          var w := ((Y * 8 + y) * 256 + (X * 8 + x)) * 4 + k;
          TilePlacement(m, X, Y, x, y, k);
          ghost var before := img[..];
          img[w] := tile[(y * 8 + x) * 4 + k];
          assert img[..] == before[w := BGByte(m, w)];
          CopyStep(before, m, X, Y, y, x, k);
        }
      }
    }
    CopyDone(img[..], m, X, Y);
  }

  /** The background buffer s once the tiles before (X, Y) and the first n
      bytes of tile (X, Y) are copied: those bytes hold the background, the
      rest is still white. */
  ghost predicate Progress(s: seq<byte>, m: MemState, X: nat, Y: nat, n: nat) {
    |s| == BGBytes &&
    forall j :: 0 <= j < BGBytes ==> s[j] == if Copied(j, X, Y, n) then BGByte(m, j) else 255
  }

  /** Byte j of the background is final once the tiles before (X, Y) and the
      first n bytes of tile (X, Y), in the copy loop's order, are copied. */
  predicate Copied(j: nat, X: nat, Y: nat, n: nat) {
    RowOf(j) < 8 * Y || (RowOf(j) < 8 * Y + 8 && ColOf(j) < 8 * X) ||
    (8 * Y <= RowOf(j) < 8 * Y + 8 && 8 * X <= ColOf(j) < 8 * X + 8 &&
     32 * (RowOf(j) - 8 * Y) + 4 * (ColOf(j) - 8 * X) + ChanOf(j) < n)
  }

  lemma CopyStart(s: seq<byte>, m: MemState, X: nat, Y: nat)
    requires |s| == BGBytes
    requires forall j :: 0 <= j < BGBytes ==>
      s[j] == if RowOf(j) < 8 * Y || (RowOf(j) < 8 * Y + 8 && ColOf(j) < 8 * X) then BGByte(m, j) else 255
    ensures Progress(s, m, X, Y, 0)
  { }

  lemma CopyDone(s: seq<byte>, m: MemState, X: nat, Y: nat)
    requires Progress(s, m, X, Y, 256)
    ensures forall j :: 0 <= j < BGBytes ==>
      s[j] == if RowOf(j) < 8 * Y || (RowOf(j) < 8 * Y + 8 && ColOf(j) < 8 * X + 8) then BGByte(m, j) else 255
  {
    forall j | 0 <= j < BGBytes
      ensures Copied(j, X, Y, 256) <==> RowOf(j) < 8 * Y || (RowOf(j) < 8 * Y + 8 && ColOf(j) < 8 * X + 8)
    {
      if 8 * Y <= RowOf(j) < 8 * Y + 8 && 8 * X <= ColOf(j) < 8 * X + 8 {
        TileIndexBound(RowOf(j) - 8 * Y, ColOf(j) - 8 * X, ChanOf(j));
      }
    }
  }

  /** Copying byte (y, x, k) of the tile to its place advances the progress
      by one. */
  lemma CopyStep(s: seq<byte>, m: MemState, X: nat, Y: nat, y: nat, x: nat, k: nat)
    requires X < 32 && Y < 32 && y < 8 && x < 8 && k < 4
    requires Progress(s, m, X, Y, 32 * y + 4 * x + k)
    ensures var w := ((Y * 8 + y) * 256 + (X * 8 + x)) * 4 + k;
      w < BGBytes && Progress(s[w := BGByte(m, w)], m, X, Y, 32 * y + 4 * x + k + 1)
  {
    var w := ((Y * 8 + y) * 256 + (X * 8 + x)) * 4 + k;
    var after := s[w := BGByte(m, w)];
    Coordinates(Y * 8 + y, X * 8 + x, k);
    forall j | 0 <= j < BGBytes
      ensures after[j] == if Copied(j, X, Y, 32 * y + 4 * x + k + 1) then BGByte(m, j) else 255
    {
      CopiedStep(j, X, Y, y, x, k);
    }
  }

  /** Copying byte (y, x, k) of the tile makes exactly its place final. */
  lemma CopiedStep(j: nat, X: nat, Y: nat, y: nat, x: nat, k: nat)
    requires X < 32 && Y < 32 && y < 8 && x < 8 && k < 4 && j < BGBytes
    ensures Copied(j, X, Y, 32 * y + 4 * x + k + 1) <==>
      Copied(j, X, Y, 32 * y + 4 * x + k) || j == ((Y * 8 + y) * 256 + (X * 8 + x)) * 4 + k
  {
    Decompose(j);
    Coordinates(Y * 8 + y, X * 8 + x, k);
    if 8 * Y <= RowOf(j) < 8 * Y + 8 && 8 * X <= ColOf(j) < 8 * X + 8 {
      TileOrder(RowOf(j) - 8 * Y, ColOf(j) - 8 * X, ChanOf(j), y, x, k);
    }
  }

  /** Positions within a tile are numbered without clashes. */
  lemma TileOrder(r: nat, c: nat, h: nat, y: nat, x: nat, k: nat)
    requires r < 8 && c < 8 && h < 4 && y < 8 && x < 8 && k < 4
    ensures 32 * r + 4 * c + h == 32 * y + 4 * x + k <==> r == y && c == x && h == k
  {
    if 32 * r + 4 * c + h == 32 * y + 4 * x + k {
      assert (32 * r + 4 * c + h) / 4 == 8 * r + c && (32 * y + 4 * x + k) / 4 == 8 * y + x;
      assert (8 * r + c) / 8 == r && (8 * y + x) / 8 == y;
    }
  }

  lemma TileIndexBound(r: nat, c: nat, h: nat)
    requires r < 8 && c < 8 && h < 4
    ensures 32 * r + 4 * c + h < 256
  { }

  /** Byte (row, col, k) of the background is at ((row * 256) + col) * 4 + k. */
  lemma Coordinates(row: nat, col: nat, k: nat)
    requires row < 256 && col < 256 && k < 4
    ensures var j := (row * 256 + col) * 4 + k;
      j < BGBytes && RowOf(j) == row && ColOf(j) == col && ChanOf(j) == k
  {
    var j := (row * 256 + col) * 4 + k;
    assert j == 1024 * row + 4 * col + k;
  }

  lemma Decompose(j: nat)
    ensures j == (RowOf(j) * 256 + ColOf(j)) * 4 + ChanOf(j)
  {
    assert j == 4 * (j / 4) + j % 4;
    assert j / 4 == 256 * (j / 4 / 256) + (j / 4) % 256;
    assert j / 4 / 256 == j / 1024;
  }
}
