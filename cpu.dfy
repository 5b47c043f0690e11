// The CPU of src/CPU.tsx: the handlers of the opcode table, as one
// interpreter over micro-ops, and the fetch/tick cycle countdown.
//
// A Machine is the register file together with the address space. Exec is
// what a handler does to it; Execute runs the same handler on the Registers
// and Memory objects. FetchSpec and TickSpec are fetch() and tick() on the
// whole CPU state; an opcode without a table entry ends the tick with
// IllegalOpcode where the source's `inst.clocks` would throw.
module Cpu {
  import opened Bits
  import opened MemoryMap
  import opened RegisterFile
  import opened Alu
  import opened Opcodes

  datatype Machine = Machine(regs: RegFile, mem: MemState)

  /** reg[label8[o]], with (HL) read through the address space. */
  function ReadOperand(m: Machine, o: Operand): byte {
    match o
    case B => m.regs.b
    case C => m.regs.c
    case D => m.regs.d
    case E => m.regs.e
    case H => m.regs.h
    case L => m.regs.l
    case HLInd => Read(m.mem, m.regs.HL())
    case A => m.regs.a
  }

  function WriteOperand(m: Machine, o: Operand, v: byte): Machine {
    match o
    case B => m.(regs := m.regs.(b := v))
    case C => m.(regs := m.regs.(c := v))
    case D => m.(regs := m.regs.(d := v))
    case E => m.(regs := m.regs.(e := v))
    case H => m.(regs := m.regs.(h := v))
    case L => m.(regs := m.regs.(l := v))
    case HLInd => m.(mem := Write(m.mem, m.regs.HL(), v))
    case A => m.(regs := m.regs.(a := v))
  }

  /** memory.readByte(reg.incPC()) */
  function NextByte(m: Machine): (Machine, byte) {
    (m.(regs := m.regs.(pc := Wrap16(m.regs.pc + 1))), Read(m.mem, m.regs.pc))
  }

  /** The source's 16-bit immediate, `(upper << 3) + lower`, kept as written. */
  function ComposeImm16(upper: byte, lower: byte): word {
    upper * 8 + lower
  }

  /** Two successive immediate bytes, lower first, composed as above. */
  function NextImm16(m: Machine): (Machine, word) {
    var (m1, lower) := NextByte(m);
    var (m2, upper) := NextByte(m1);
    (m2, ComposeImm16(upper, lower))
  }

  /** Two increments of PC by one are one increment by two, also across
      the wrap at 0xFFFF. */
  lemma Wrap16Twice(x: word)
    ensures Wrap16(Wrap16(x + 1) + 1) == Wrap16(x + 2)
  {
    if x + 1 < 0x1_0000 {
      assert Wrap16(x + 1) == x + 1;
    }
  }

  /** Reading an immediate word moves PC two bytes on and changes nothing else. */
  lemma Imm16Advances(m: Machine)
    ensures NextImm16(m).0 == m.(regs := m.regs.(pc := Wrap16(m.regs.pc + 2)))
  {
    Wrap16Twice(m.regs.pc);
  }

  function SetHL(r: RegFile, v: word): RegFile {
    r.(h := High(v), l := Low(v))
  }

  /** reg[label16[p]] = v: the pair setters, or SP directly. */
  function SetPair(r: RegFile, p: Pair16, v: word): RegFile {
    match p
    case PairBC => r.(b := High(v), c := Low(v))
    case PairDE => r.(d := High(v), e := Low(v))
    case PairHL => SetHL(r, v)
    case PairSP => r.(sp := v)
  }

  /** The address of an indirect load or store, with the side effects of
      computing it (HL+/HL- and the immediate bytes). */
  function Address(m: Machine, ind: Indirect): (Machine, word) {
    match ind
    case AtBC => (m, m.regs.BC())
    case AtDE => (m, m.regs.DE())
    case AtHLInc => (m.(regs := SetHL(m.regs, Wrap16(m.regs.HL() + 1))), m.regs.HL())
    case AtHLDec => (m.(regs := SetHL(m.regs, Wrap16(m.regs.HL() - 1))), m.regs.HL())
    case AtHighC => (m, 0xFF00 + m.regs.c)
    case AtHighImm => var (m1, n) := NextByte(m); (m1, 0xFF00 + n)
    case AtImm16 => NextImm16(m)
  }

  /** `reg.A = op8(reg.A, y, reg)`; CP keeps A. */
  function AluRegs(r: RegFile, k: AluOp, y: byte): RegFile {
    var o := Compute(k, r.a, y, r.FlagC());
    var r' := WithAluFlags(r, o);
    if k == CpA then r' else r'.(a := o.result)
  }

  /** What the handler of a micro-op does. */
  function Exec(op: MicroOp, m: Machine): Machine {
    match op
    case Ld(d, s) => WriteOperand(m, d, ReadOperand(m, s))
    case LdImm(d) => var (m1, n) := NextByte(m); WriteOperand(m1, d, n)
    case LoadA(s) => var (m1, addr) := Address(m, s); m1.(regs := m1.regs.(a := Read(m1.mem, addr)))
    case StoreA(d) => var (m1, addr) := Address(m, d); m1.(mem := Write(m1.mem, addr, m1.regs.a))
    case LdPairImm(p) => var (m1, n) := NextImm16(m); m1.(regs := SetPair(m1.regs, p, n))
    case StoreSP =>
      // both bytes of SP go to the same address
      var (m1, addr) := NextImm16(m);
      m1.(mem := Write(Write(m1.mem, addr, Low(m1.regs.sp)), addr, High(m1.regs.sp)))
    case LdSPHL => m.(regs := m.regs.(sp := m.regs.HL()))
    case Push(_) =>
      // always B and C, whatever the pair
      var s1 := Wrap16(m.regs.sp - 1);
      var s2 := Wrap16(s1 - 1);
      Machine(m.regs.(sp := s2), Write(Write(m.mem, s1, m.regs.b), s2, m.regs.c))
    case Pop(_) =>
      var s1 := Wrap16(m.regs.sp + 1);
      m.(regs := m.regs.(c := Read(m.mem, m.regs.sp), b := Read(m.mem, s1), sp := Wrap16(s1 + 1)))
    case AluReg(k, s) => m.(regs := AluRegs(m.regs, k, ReadOperand(m, s)))
    case AluImm(k) => var (m1, n) := NextByte(m); m1.(regs := AluRegs(m1.regs, k, n))
  }

  /** The ALU handlers: A and F through AluRegs, on an operand or on the
      byte at PC. */
  lemma ExecAluReg(k: AluOp, s: Operand, m: Machine)
    ensures Exec(AluReg(k, s), m) == m.(regs := AluRegs(m.regs, k, ReadOperand(m, s)))
  {
  }

  lemma ExecAluImm(k: AluOp, m: Machine)
    ensures Exec(AluImm(k), m) == NextByte(m).0.(regs := AluRegs(NextByte(m).0.regs, k, NextByte(m).1))
  {
  }

  /** The number of immediate bytes a handler reads after its opcode. */
  function ImmBytes(op: MicroOp): nat {
    match op
    case LdImm(_) => 1
    case AluImm(_) => 1
    case LoadA(s) => if s == AtHighImm then 1 else if s == AtImm16 then 2 else 0
    case StoreA(d) => if d == AtHighImm then 1 else if d == AtImm16 then 2 else 0
    case LdPairImm(_) => 2
    case StoreSP => 2
    case _ => 0
  }

  /** An address the address space backs with plain storage. */
  predicate Plain(addr: word) {
    !IsIORegister(addr) && addr != SerialAddr
  }

  // ---------------------------------------------------------------------
  // Properties of the handlers

  /** The source's immediate agrees with the usual (upper << 8) | lower only
      when the upper byte is zero, and never exceeds 0x8F7. */
  lemma ComposeImm16Deviation(upper: byte, lower: byte)
    ensures ComposeImm16(upper, lower) == Combine(upper, lower) <==> upper == 0
    ensures ComposeImm16(upper, lower) <= 0x8F7
  {
  }

  /** A handler advances PC by exactly the immediate bytes it reads. */
  lemma PcAdvance(op: MicroOp, m: Machine)
    ensures Exec(op, m).regs.pc == Wrap16(m.regs.pc + ImmBytes(op))
  {
    if op.Ld? || op.LdImm? {
      PcAdvanceLoad(op, m);
    } else if op.AluReg? || op.AluImm? {
      PcAdvanceAlu(op, m);
    } else if op.LoadA? || op.StoreA? {
      var ind := if op.LoadA? then op.from else op.to;
      AddressAdvance(m, ind);
      PcAdvanceIndirect(op, m);
    } else {
      Imm16Advances(m);
      PcAdvance16(op, m);
    }
  }

  lemma PcAdvanceLoad(op: MicroOp, m: Machine)
    requires op.Ld? || op.LdImm?
    ensures Exec(op, m).regs.pc == Wrap16(m.regs.pc + ImmBytes(op))
  {
  }

  lemma PcAdvanceAlu(op: MicroOp, m: Machine)
    requires op.AluReg? || op.AluImm?
    ensures Exec(op, m).regs.pc == Wrap16(m.regs.pc + ImmBytes(op))
  {
  }

  /** Computing an indirect address moves PC over the immediate bytes it reads. */
  lemma AddressAdvance(m: Machine, ind: Indirect)
    ensures Address(m, ind).0.regs.pc ==
      Wrap16(m.regs.pc + if ind == AtHighImm then 1 else if ind == AtImm16 then 2 else 0)
  {
    if ind == AtImm16 {
      Imm16Advances(m);
    }
  }

  lemma PcAdvanceIndirect(op: MicroOp, m: Machine)
    requires op.LoadA? || op.StoreA?
    requires var ind := if op.LoadA? then op.from else op.to;
      Address(m, ind).0.regs.pc == Wrap16(m.regs.pc + ImmBytes(op))
    ensures Exec(op, m).regs.pc == Wrap16(m.regs.pc + ImmBytes(op))
  {
  }

  lemma PcAdvance16(op: MicroOp, m: Machine)
    requires op.LdPairImm? || op.StoreSP? || op.LdSPHL? || op.Push? || op.Pop?
    requires NextImm16(m).0 == m.(regs := m.regs.(pc := Wrap16(m.regs.pc + 2)))
    ensures Exec(op, m).regs.pc == Wrap16(m.regs.pc + ImmBytes(op))
  {
  }

  /** LD d, s: afterwards d holds what s held (unless d is (HL) at the serial
      port), and PC has not moved. */
  lemma LdCopies(d: Operand, s: Operand, m: Machine)
    requires d == HLInd ==> m.regs.HL() != SerialAddr
    ensures ReadOperand(Exec(Ld(d, s), m), d) == ReadOperand(m, s)
    ensures Exec(Ld(d, s), m).regs.pc == m.regs.pc
  {
    if d == HLInd {
      ReadAfterWrite(m.mem, m.regs.HL(), ReadOperand(m, s));
    }
  }

  /** LD d, n: afterwards d holds the byte at PC. */
  lemma LdImmLoads(d: Operand, m: Machine)
    requires d == HLInd ==> m.regs.HL() != SerialAddr
    ensures ReadOperand(Exec(LdImm(d), m), d) == Read(m.mem, m.regs.pc)
  {
    if d == HLInd {
      ReadAfterWrite(m.mem, m.regs.HL(), Read(m.mem, m.regs.pc));
    }
  }

  /** PUSH writes B at SP - 1 and C at SP - 2 and leaves SP two lower,
      whatever pair the opcode names; a POP of any pair right after it
      restores every register, SP included. */
  lemma PushThenPop(p: Pair16, q: Pair16, m: Machine)
    requires Plain(Wrap16(m.regs.sp - 1)) && Plain(Wrap16(m.regs.sp - 2))
    ensures var s1, s2 := Wrap16(m.regs.sp - 1), Wrap16(m.regs.sp - 2);
      var pushed := Exec(Push(p), m);
      Read(pushed.mem, s1) == m.regs.b && Read(pushed.mem, s2) == m.regs.c &&
      pushed.regs == m.regs.(sp := s2) && pushed == Exec(Push(PairBC), m)
    ensures Exec(Pop(q), Exec(Push(p), m)).regs == m.regs
  {
    var s1 := Wrap16(m.regs.sp - 1);
    var s2 := Wrap16(s1 - 1);
    assert s2 == Wrap16(m.regs.sp - 2);
    var m1 := Write(m.mem, s1, m.regs.b);
    ReadAfterWrite(m.mem, s1, m.regs.b);
    ReadAfterWrite(m1, s2, m.regs.c);
    WriteFrame(m1, s2, s1, m.regs.c);
    assert Wrap16(s2 + 1) == s1;
    assert Wrap16(s1 + 1) == m.regs.sp;
  }

  /** CP sets exactly the flags SUB sets and leaves A and memory alone. */
  lemma CpIsSubWithoutResult(s: Operand, m: Machine)
    ensures Exec(AluReg(CpA, s), m).regs == Exec(AluReg(SubA, s), m).regs.(a := m.regs.a)
    ensures Exec(AluReg(CpA, s), m).mem == m.mem
    ensures Exec(AluReg(SubA, s), m).regs.a == Sub8(m.regs.a, ReadOperand(m, s)).result
  {
  }

  /** An ALU handler other than CP puts the helper's result in A, makes the
      flag getters read the helper's flags, and changes no other register
      and no memory. */
  lemma AluUpdatesAAndF(k: AluOp, s: Operand, m: Machine)
    requires k != CpA
    ensures var o := Compute(k, m.regs.a, ReadOperand(m, s), m.regs.FlagC());
      var r := Exec(AluReg(k, s), m).regs;
      r.a == o.result && r.FlagZ() == o.z && r.FlagN() == o.n && r.FlagH() == o.h && r.FlagC() == o.c &&
      r == m.regs.(a := r.a, f := r.f) && Exec(AluReg(k, s), m).mem == m.mem
  {
    AluFlagsReadBack(m.regs, Compute(k, m.regs.a, ReadOperand(m, s), m.regs.FlagC()));
  }

  /** LD (nn), SP leaves only the high byte of SP at nn, because both bytes
      are written there, low byte first. */
  lemma StoreSPKeepsHighByte(m: Machine)
    requires ComposeImm16(Read(m.mem, Wrap16(m.regs.pc + 1)), Read(m.mem, m.regs.pc)) != SerialAddr
    ensures var addr := ComposeImm16(Read(m.mem, Wrap16(m.regs.pc + 1)), Read(m.mem, m.regs.pc));
      Read(Exec(StoreSP, m).mem, addr) == High(m.regs.sp)
  {
    var (m1, addr) := NextImm16(m);
    ReadAfterWrite(Write(m1.mem, addr, Low(m1.regs.sp)), addr, High(m1.regs.sp));
  }

  /** LD (HL+), A stores A at HL and moves HL one up; LD (HL-), A one down. */
  lemma StoreHLMoves(m: Machine)
    requires m.regs.HL() != SerialAddr
    ensures var up := Exec(StoreA(AtHLInc), m);
      Read(up.mem, m.regs.HL()) == m.regs.a && up.regs.HL() == Wrap16(m.regs.HL() + 1)
    ensures var down := Exec(StoreA(AtHLDec), m);
      Read(down.mem, m.regs.HL()) == m.regs.a && down.regs.HL() == Wrap16(m.regs.HL() - 1)
  {
    ReadAfterWrite(m.mem, m.regs.HL(), m.regs.a);
    PairRoundTrip(Wrap16(m.regs.HL() + 1));
    PairRoundTrip(Wrap16(m.regs.HL() - 1));
  }

  // ---------------------------------------------------------------------
  // The fetch/tick cycle

  /** The CPU object as a value: `pending` is funcToExecute, None for the
      empty closure the constructor installs. */
  datatype CpuState = CpuState(m: Machine, clocks: int, pending: Option<MicroOp>)

  datatype Outcome = Running(state: CpuState) | IllegalOpcode(state: CpuState, opcode: byte)

  /** fetch(): read the opcode at PC, advance PC, and load the entry's cost
      and handler. */
  function FetchSpec(s: CpuState): Outcome {
    var pc := s.m.regs.pc;
    var opcode := Read(s.m.mem, pc);
    var m1 := s.m.(regs := s.m.regs.(pc := Wrap16(pc + 1)));
    match Decode(opcode)
    case None => IllegalOpcode(s.(m := m1), opcode)
    case Some(inst) => Running(CpuState(m1, inst.clocks, Some(inst.op)))
  }

  /** tick(): count down; at zero or below run the handler and fetch. */
  function TickSpec(s: CpuState): Outcome {
    var c := s.clocks - 1;
    if c <= 0 then FetchSpec(CpuState(AfterHandler(s), c, s.pending))
    else Running(s.(clocks := c))
  }

  /** The machine once the pending handler, if any, has run. */
  function AfterHandler(s: CpuState): Machine {
    if s.pending.Some? then Exec(s.pending.value, s.m) else s.m
  }

  /** n ticks, stopping at an illegal opcode. */
  function Ticks(s: CpuState, n: nat): Outcome
    decreases n
  {
    if n == 0 then Running(s)
    else
      match TickSpec(s)
      case IllegalOpcode(_, _) => TickSpec(s)
      case Running(s') => Ticks(s', n - 1)
  }

  /** A fetch advances PC by exactly one and fails exactly on an empty slot;
      a successful fetch loads the entry's cost and handler and nothing else
      changes. */
  lemma FetchReadsPC(s: CpuState)
    ensures FetchSpec(s).state.m == s.m.(regs := s.m.regs.(pc := Wrap16(s.m.regs.pc + 1)))
    ensures FetchSpec(s).IllegalOpcode? <==> Decode(Read(s.m.mem, s.m.regs.pc)).None?
    ensures FetchSpec(s).IllegalOpcode? ==>
      FetchSpec(s).state == s.(m := FetchSpec(s).state.m) && FetchSpec(s).opcode == Read(s.m.mem, s.m.regs.pc)
    ensures FetchSpec(s).Running? ==>
      var inst := Decode(Read(s.m.mem, s.m.regs.pc)).value;
      FetchSpec(s).state.clocks == inst.clocks && FetchSpec(s).state.pending == Some(inst.op)
  {
  }

  /** Before the counter runs out a tick only decrements it: j < k ticks
      from a counter of k leave k - j and change nothing else. */
  lemma {:induction false} CountDown(s: CpuState, j: nat)
    requires j < s.clocks
    ensures Ticks(s, j) == Running(s.(clocks := s.clocks - j))
    decreases j
  {
    if j > 0 {
      assert TickSpec(s) == Running(s.(clocks := s.clocks - 1));
      CountDown(s.(clocks := s.clocks - 1), j - 1);
    }
  }

  /** On the k-th tick from a counter of k the pending handler runs and is
      followed at once by the next fetch. */
  lemma CompletesOnTime(s: CpuState, k: nat)
    requires s.clocks == k >= 1
    ensures Ticks(s, k) == FetchSpec(CpuState(AfterHandler(s), 0, s.pending))
  {
    var last := s.(clocks := 1);
    CountDown(s, k - 1);
    assert Ticks(s, k - 1) == Running(last);
    TicksSplit(s, k - 1);
    assert Ticks(s, k) == TickSpec(last);
    assert AfterHandler(last) == AfterHandler(s);
  }

  lemma {:induction false} TicksSplit(s: CpuState, j: nat)
    requires Ticks(s, j).Running?
    ensures Ticks(s, j + 1) == TickSpec(Ticks(s, j).state)
    decreases j
  {
    if j > 0 {
      TicksSplit(TickSpec(s).state, j - 1);
    }
  }

  /** After a successful fetch of an entry costing k clocks, k ticks later
      its handler has run exactly once and the next fetch has happened. */
  lemma InstructionCycle(s: CpuState)
    requires FetchSpec(s).Running?
    ensures var s1 := FetchSpec(s).state;
      var inst := Decode(Read(s.m.mem, s.m.regs.pc)).value;
      Ticks(s1, inst.clocks) == FetchSpec(CpuState(Exec(inst.op, s1.m), 0, Some(inst.op)))
  {
    var s1 := FetchSpec(s).state;
    var inst := Decode(Read(s.m.mem, s.m.regs.pc)).value;
    DecodeWellFormed(Read(s.m.mem, s.m.regs.pc));
    assert s1.clocks == inst.clocks >= 1;
    CompletesOnTime(s1, inst.clocks);
    assert AfterHandler(s1) == Exec(inst.op, s1.m);
  }

  /** From the constructor's state (counter 0, empty closure) the first tick
      fetches at once and runs nothing. */
  lemma FirstTickFetches(m: Machine)
    ensures TickSpec(CpuState(m, 0, None)) == FetchSpec(CpuState(m, -1, None))
  {
  }

  // ---------------------------------------------------------------------
  // The CPU object

  function AsOutcome(s: CpuState, fault: Option<byte>): Outcome {
    if fault.Some? then IllegalOpcode(s, fault.value) else Running(s)
  }

  class CPU {
    const reg: Registers
    const memory: Memory
    var clocksToComplete: int
    var funcToExecute: Option<MicroOp>
    const opcodeTable: array<Option<Instr>>

    predicate Valid()
      reads this, memory, opcodeTable
    {
      memory.Valid() && opcodeTable.Length == 256 &&
      forall i :: 0 <= i < 256 ==> opcodeTable[i] == Decode(i)
    }

    function MachineState(): Machine
      reads reg, memory, memory.data
      requires memory.Valid()
    {
      Machine(reg.Abs(), memory.Abs())
    }

    function State(): CpuState
      reads this, reg, memory, memory.data
      requires memory.Valid()
    {
      CpuState(MachineState(), clocksToComplete, funcToExecute)
    }

    constructor(memory: Memory)
      requires memory.Valid()
      ensures Valid() && this.memory == memory && fresh(reg) && fresh(opcodeTable)
      ensures State() == CpuState(Machine(RegFile(0, 0, 0, 0, 0, 0, 0, 0, 0, 0), memory.Abs()), 0, None)
    {
      var table := CreateOpcodeTable();
      reg := new Registers();
      this.memory := memory;
      clocksToComplete := 0;
      funcToExecute := None;
      opcodeTable := table;
    }

    function ReadOp(o: Operand): byte
      reads reg, memory, memory.data
      requires memory.Valid()
    {
      match o
      case B => reg.B
      case C => reg.C
      case D => reg.D
      case E => reg.E
      case H => reg.H
      case L => reg.L
      case HLInd => memory.ReadByte(reg.HL())
      case A => reg.A
    }

    method WriteOp(o: Operand, v: byte)
      requires memory.Valid()
      modifies reg, memory, memory.data
      ensures memory.Valid()
      ensures MachineState() == WriteOperand(old(MachineState()), o, v)
    {
      match o
      case B => reg.B := v;
      case C => reg.C := v;
      case D => reg.D := v;
      case E => reg.E := v;
      case H => reg.H := v;
      case L => reg.L := v;
      case HLInd => memory.WriteByte(reg.HL(), v);
      case A => reg.A := v;
    }

    /** memory.readByte(reg.incPC()) */
    method ReadImm8() returns (n: byte)
      requires memory.Valid()
      modifies reg
      ensures (MachineState(), n) == NextByte(old(MachineState()))
    {
      var pc := reg.IncPC();
      n := memory.ReadByte(pc);
    }

    method ReadImm16() returns (n: word)
      requires memory.Valid()
      modifies reg
      ensures (MachineState(), n) == NextImm16(old(MachineState()))
    {
      var lower := ReadImm8();
      var upper := ReadImm8();
      n := ComposeImm16(upper, lower);
    }

    method AddressOf(ind: Indirect) returns (addr: word)
      requires memory.Valid()
      modifies reg
      ensures (MachineState(), addr) == Address(old(MachineState()), ind)
    {
      match ind
      case AtBC => addr := reg.BC();
      case AtDE => addr := reg.DE();
      case AtHLInc => addr := reg.IncHL();
      case AtHLDec => addr := reg.DecHL();
      case AtHighC => addr := 0xFF00 + reg.C;
      case AtHighImm =>
        var n := ReadImm8();
        addr := 0xFF00 + n as int;
      case AtImm16 => addr := ReadImm16();
    }

    method RunAlu(k: AluOp, y: byte)
      modifies reg
      ensures reg.Abs() == AluRegs(old(reg.Abs()), k, y)
    {
      var a := reg.A;
      var r: byte;
      match k {
        case AddA => r := RunAdd8(a, y, reg);
        case AdcA => r := RunAdc8(a, y, reg);
        case SubA => r := RunSub8(a, y, reg);
        case SbcA => r := RunSbc8(a, y, reg);
        case AndA => r := RunAnd8(a, y, reg);
        case XorA => r := RunXor8(a, y, reg);
        case OrA => r := RunOr8(a, y, reg);
        case CpA => r := RunSub8(a, y, reg);
      }
      if k != CpA {
        reg.A := r;
      }
    }

    /** Runs the handler of a micro-op. */
    method Execute(op: MicroOp)
      requires memory.Valid()
      modifies reg, memory, memory.data
      ensures memory.Valid()
      ensures MachineState() == Exec(op, old(MachineState()))
    {
      if op.Ld? || op.LdImm? || op.LoadA? || op.StoreA? {
        ExecuteLoad8(op);
      } else if op.LdPairImm? || op.StoreSP? || op.LdSPHL? {
        ExecuteLoad16(op);
      } else if op.Push? || op.Pop? {
        ExecuteStack(op);
      } else {
        ExecuteAlu(op);
      }
    }

    /** The 8-bit load handlers. */
    method ExecuteLoad8(op: MicroOp)
      requires memory.Valid()
      requires op.Ld? || op.LdImm? || op.LoadA? || op.StoreA?
      modifies reg, memory, memory.data
      ensures memory.Valid()
      ensures MachineState() == Exec(op, old(MachineState()))
    {
      match op
      case Ld(d, s) =>
        var v := ReadOp(s);
        WriteOp(d, v);
      case LdImm(d) =>
        var n := ReadImm8();
        WriteOp(d, n);
      case LoadA(s) =>
        var addr := AddressOf(s);
        reg.A := memory.ReadByte(addr);
      case StoreA(d) =>
        var addr := AddressOf(d);
        memory.WriteByte(addr, reg.A);
    }

    /** The 16-bit load handlers. */
    method ExecuteLoad16(op: MicroOp)
      requires memory.Valid()
      requires op.LdPairImm? || op.StoreSP? || op.LdSPHL?
      modifies reg, memory, memory.data
      ensures memory.Valid()
      ensures MachineState() == Exec(op, old(MachineState()))
    {
      match op
      case LdPairImm(p) =>
        var n := ReadImm16();
        match p {
          case PairBC => reg.SetBC(n);
          case PairDE => reg.SetDE(n);
          case PairHL => reg.SetHL(n);
          case PairSP => reg.SP := n;
        }
      case StoreSP =>
        var addr := ReadImm16();
        var lowerSP := Low(reg.SP);
        var upperSP := High(reg.SP);
        memory.WriteByte(addr, lowerSP);
        memory.WriteByte(addr, upperSP);
      case LdSPHL =>
        reg.SP := reg.HL();
    }

    /** PUSH and POP, always through B and C. */
    method ExecuteStack(op: MicroOp)
      requires memory.Valid()
      requires op.Push? || op.Pop?
      modifies reg, memory, memory.data
      ensures memory.Valid()
      ensures MachineState() == Exec(op, old(MachineState()))
    {
      match op
      case Push(_) =>
        var _ := reg.DecSP();
        var s1 := reg.DecSP();
        memory.WriteByte(s1, reg.B);
        memory.WriteByte(reg.SP, reg.C);
      case Pop(_) =>
        var s0 := reg.IncSP();
        reg.C := memory.ReadByte(s0);
        var s1 := reg.IncSP();
        reg.B := memory.ReadByte(s1);
    }

    /** The ALU handlers, on a register or (HL) and on an immediate. */
    method ExecuteAlu(op: MicroOp)
      requires memory.Valid()
      requires op.AluReg? || op.AluImm?
      modifies reg, memory, memory.data
      ensures memory.Valid()
      ensures MachineState() == Exec(op, old(MachineState()))
    {
      ghost var m := MachineState();
      match op
      case AluReg(k, s) =>
        var b := ReadOp(s);
        assert b == ReadOperand(m, s);
        RunAlu(k, b);
        ExecAluReg(k, s, m);
      case AluImm(k) =>
        var b := ReadImm8();
        ghost var m1 := MachineState();
        assert (m1, b) == NextByte(m);
        RunAlu(k, b);
        ExecAluImm(k, m);
    }

    method Fetch() returns (fault: Option<byte>)
      requires Valid()
      modifies this, reg
      ensures Valid()
      ensures AsOutcome(State(), fault) == FetchSpec(old(State()))
    {
      var pc := reg.IncPC();
      var opcode := memory.ReadByte(pc);
      var inst := opcodeTable[opcode];
      match inst
      case None =>
        // the source throws on `inst.clocks`
        fault := Some(opcode);
      case Some(i) =>
        clocksToComplete := i.clocks;
        funcToExecute := Some(i.op);
        fault := None;
    }

    method Tick() returns (fault: Option<byte>)
      requires Valid()
      modifies this, reg, memory, memory.data
      ensures Valid()
      ensures AsOutcome(State(), fault) == TickSpec(old(State()))
    {
      clocksToComplete := clocksToComplete - 1;
      if clocksToComplete <= 0 {
        if funcToExecute.Some? {
          Execute(funcToExecute.value);
        }
        fault := Fetch();
      } else {
        fault := None;
      }
    }
  }
}
