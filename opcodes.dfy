// The opcode table of src/CPU.tsx (createOpcodeTable). Each handler closure
// of the source is a MicroOp value here, interpreted by the CPU module; the
// table maps an opcode to an Instr or to nothing.
//
// Decode is an independent reference definition of the table, reading the
// opcode as the bit fields hi = op >> 6, y = (op >> 3) & 7 and z = op & 7.
// CreateOpcodeTable fills an array in the source's loops and is proved to
// agree with Decode at every slot.
module Opcodes {
  import opened Bits
  import opened Alu

  /** The operand order of the source's label8 list. */
  datatype Operand = B | C | D | E | H | L | HLInd | A

  /** The pair order of the source's label16 list. */
  datatype Pair16 = PairBC | PairDE | PairHL | PairSP

  /** The address forms of the loads to and from A. */
  datatype Indirect =
    | AtBC        // (BC)
    | AtDE        // (DE)
    | AtHLInc     // (HL+)
    | AtHLDec     // (HL-)
    | AtHighC     // (0xFF00 + C)
    | AtHighImm   // (0xFF00 + n)
    | AtImm16     // (nn)

  /** What a handler does. */
  datatype MicroOp =
    | Ld(dst: Operand, src: Operand)      // LD r, r' / LD r, (HL) / LD (HL), r
    | LdImm(dst: Operand)                 // LD r, n / LD (HL), n
    | LoadA(from: Indirect)               // LD A, (..)
    | StoreA(to: Indirect)                // LD (..), A
    | LdPairImm(pair: Pair16)             // LD rr, nn
    | StoreSP                             // LD (nn), SP
    | LdSPHL                              // LD SP, HL
    | Push(pair: Pair16)                  // PUSH rr
    | Pop(pair: Pair16)                   // POP rr
    | AluReg(kind: AluOp, src: Operand)   // ADD A, r ... CP A, r
    | AluImm(kind: AluOp)                 // ADD A, n ... SBC A, n

  /** An entry of the table; the mnemonic label is left out. */
  datatype Instr = Instr(opcode: byte, clocks: nat, length: nat, op: MicroOp)

  datatype Option<T> = None | Some(value: T)

  function OperandOf(i: nat): Operand
    requires i < 8
  {
    if i == 0 then B else if i == 1 then C else if i == 2 then D else if i == 3 then E
    else if i == 4 then H else if i == 5 then L else if i == 6 then HLInd else A
  }

  function OperandIndex(o: Operand): (i: nat)
    ensures i < 8 && OperandOf(i) == o
  {
    match o
    case B => 0 case C => 1 case D => 2 case E => 3
    case H => 4 case L => 5 case HLInd => 6 case A => 7
  }

  function PairOf(i: nat): Pair16
    requires i < 4
  {
    if i == 0 then PairBC else if i == 1 then PairDE else if i == 2 then PairHL else PairSP
  }

  function PairIndex(p: Pair16): (i: nat)
    ensures i < 4 && PairOf(i) == p
  {
    match p
    case PairBC => 0 case PairDE => 1 case PairHL => 2 case PairSP => 3
  }

  function AluOf(i: nat): AluOp
    requires i < 8
  {
    if i == 0 then AddA else if i == 1 then AdcA else if i == 2 then SubA else if i == 3 then SbcA
    else if i == 4 then AndA else if i == 5 then XorA else if i == 6 then OrA else CpA
  }

  function AluIndex(k: AluOp): (i: nat)
    ensures i < 8 && AluOf(i) == k
  {
    match k
    case AddA => 0 case AdcA => 1 case SubA => 2 case SbcA => 3
    case AndA => 4 case XorA => 5 case OrA => 6 case CpA => 7
  }

  /** The opcode with bit fields hi (bits 7-6), y (bits 5-3) and z (bits 2-0). */
  function Op(hi: nat, y: nat, z: nat): (op: byte)
    requires hi < 4 && y < 8 && z < 8
    ensures op / 64 == hi && (op / 8) % 8 == y && op % 8 == z
  {
    var op := 64 * hi + 8 * y + z;
    DivMod8(op, 8 * hi + y, z);
    DivMod8(8 * hi + y, hi, y);
    DivMod64(op, hi, 8 * y + z);
    op
  }

  lemma DivMod8(a: int, q: int, r: int)
    requires a == 8 * q + r && 0 <= r < 8
    ensures a / 8 == q && a % 8 == r
  {
  }

  lemma DivMod64(a: int, q: int, r: int)
    requires a == 64 * q + r && 0 <= r < 64
    ensures a / 64 == q && a % 64 == r
  {
  }

  /** Every byte is the opcode of its own bit fields. */
  lemma Recompose(op: byte)
    ensures Op(op / 64, (op / 8) % 8, op % 8) == op
  {
    var q, z := op / 8, op % 8;
    var hi, y := q / 8, q % 8;
    assert op == 8 * q + z;
    assert q == 8 * hi + y;
    DivMod64(op, hi, 8 * y + z);
  }

  /** The table entry for an opcode, or None for an empty slot. */
  function Decode(op: byte): Option<Instr> {
    DecodeFields(op / 64, (op / 8) % 8, op % 8)
  }

  function DecodeFields(hi: nat, y: nat, z: nat): Option<Instr>
    requires hi < 4 && y < 8 && z < 8
  {
    var op := Op(hi, y, z);
    if hi == 1 then
      if y == 6 && z == 6 then None   // 0x76 is HALT, not in the table
      else Some(Instr(op, if y == 6 || z == 6 then 8 else 4, 1, Ld(OperandOf(y), OperandOf(z))))
    else if hi == 2 then
      Some(Instr(op, if z == 6 then 8 else 4, 1, AluReg(AluOf(y), OperandOf(z))))
    else if hi == 0 then
      if z == 6 then Some(Instr(op, if y == 6 then 12 else 8, 2, LdImm(OperandOf(y))))
      else if z == 1 && y % 2 == 0 then Some(Instr(op, 12, 3, LdPairImm(PairOf(y / 2))))
      else if z == 2 then
        var ind := if y < 2 then AtBC else if y < 4 then AtDE else if y < 6 then AtHLInc else AtHLDec;
        Some(Instr(op, 8, 1, if y % 2 == 0 then StoreA(ind) else LoadA(ind)))
      else if y == 1 && z == 0 then Some(Instr(op, 20, 3, StoreSP))             // 0x08
      else None
    else
      if z == 5 && y % 2 == 0 then Some(Instr(op, 16, 1, Push(PairOf(y / 2))))
      else if z == 1 && y % 2 == 0 then Some(Instr(op, 12, 1, Pop(PairOf(y / 2))))
      else if z == 6 && y < 4 then Some(Instr(op, 8, 2, AluImm(AluOf(y))))
      else if y == 7 && z == 1 then Some(Instr(op, 8, 1, LdSPHL))                // 0xF9
      else if y == 4 && z == 0 then Some(Instr(op, 12, 2, StoreA(AtHighImm)))    // 0xE0
      else if y == 6 && z == 0 then Some(Instr(op, 12, 1, LoadA(AtHighImm)))     // 0xF0, length 1
      else if y == 4 && z == 2 then Some(Instr(op, 8, 1, StoreA(AtHighC)))       // 0xE2
      else if y == 6 && z == 2 then Some(Instr(op, 8, 1, LoadA(AtHighC)))        // 0xF2
      else if y == 5 && z == 2 then Some(Instr(op, 16, 3, StoreA(AtImm16)))      // 0xEA
      else if y == 7 && z == 2 then Some(Instr(op, 16, 3, LoadA(AtImm16)))       // 0xFA
      else None
  }

  /** The opcode that carries a micro-op, where there is one. */
  function Encode(m: MicroOp): Option<byte> {
    match m
    case Ld(d, s) =>
      if d == HLInd && s == HLInd then None else Some(Op(1, OperandIndex(d), OperandIndex(s)))
    case LdImm(d) => Some(Op(0, OperandIndex(d), 6))
    case LoadA(s) => Some(IndirectCode(s, true))
    case StoreA(d) => Some(IndirectCode(d, false))
    case LdPairImm(p) => Some(Op(0, 2 * PairIndex(p), 1))
    case StoreSP => Some(Op(0, 1, 0))
    case LdSPHL => Some(Op(3, 7, 1))
    case Push(p) => Some(Op(3, 2 * PairIndex(p), 5))
    case Pop(p) => Some(Op(3, 2 * PairIndex(p), 1))
    case AluReg(k, s) => Some(Op(2, AluIndex(k), OperandIndex(s)))
    case AluImm(k) => if AluIndex(k) < 4 then Some(Op(3, AluIndex(k), 6)) else None
  }

  function IndirectCode(i: Indirect, load: bool): byte {
    var l := if load then 1 else 0;
    match i
    case AtBC => Op(0, l, 2)
    case AtDE => Op(0, 2 + l, 2)
    case AtHLInc => Op(0, 4 + l, 2)
    case AtHLDec => Op(0, 6 + l, 2)
    case AtHighC => Op(3, 4 + 2 * l, 2)
    case AtHighImm => Op(3, 4 + 2 * l, 0)
    case AtImm16 => Op(3, 5 + 2 * l, 2)
  }

  // ---------------------------------------------------------------------
  // Properties of the table

  /** Every entry records its own opcode, and every cost is a positive
      multiple of four machine clocks. */
  lemma DecodeWellFormed(op: byte)
    ensures Decode(op).Some? ==> Decode(op).value.opcode == op
    ensures Decode(op).Some? ==> Decode(op).value.clocks >= 4 && Decode(op).value.clocks % 4 == 0
  {
    Recompose(op);
  }

  /** NOP, HALT, the 0xCB prefix and the logic and compare immediates have no
      entry. */
  lemma DecodeHoles()
    ensures Decode(0x00).None? && Decode(0x76).None? && Decode(0xCB).None?
    ensures Decode(0xE6).None? && Decode(0xEE).None? && Decode(0xF6).None? && Decode(0xFE).None?
  {
  }

  /** The 8-bit load block: opcode 0x40 + (x << 3) + y loads operand y into
      operand x, for 8 clocks when either side is (HL) and 4 otherwise,
      except that 0x76 is empty. */
  lemma LoadBlock(x: nat, y: nat)
    requires x < 8 && y < 8
    ensures var op := 0x40 + 8 * x + y;
      Decode(op) == if x == 6 && y == 6 then None
        else Some(Instr(op, if x == 6 || y == 6 then 8 else 4, 1, Ld(OperandOf(x), OperandOf(y))))
  {
    assert 0x40 + 8 * x + y == Op(1, x, y);
  }

  /** The ALU block: opcode 0x80 + (k << 3) + x applies operation k to A and
      operand x, for 8 clocks when x is (HL) and 4 otherwise. */
  lemma AluBlock(k: nat, x: nat)
    requires k < 8 && x < 8
    ensures var op := 0x80 + 8 * k + x;
      Decode(op) == Some(Instr(op, if x == 6 then 8 else 4, 1, AluReg(AluOf(k), OperandOf(x))))
  {
    assert 0x80 + 8 * k + x == Op(2, k, x);
  }

  /** The four PUSH and four POP opcodes name each pair once. */
  lemma PushPopBlock(x: nat)
    requires x < 4
    ensures Decode(0xC5 + 16 * x) == Some(Instr(0xC5 + 16 * x, 16, 1, Push(PairOf(x))))
    ensures Decode(0xC1 + 16 * x) == Some(Instr(0xC1 + 16 * x, 12, 1, Pop(PairOf(x))))
  {
    assert 0xC5 + 16 * x == Op(3, 2 * x, 5);
    assert 0xC1 + 16 * x == Op(3, 2 * x, 1);
  }

  /** The index maps invert the list lookups. */
  lemma IndexOf(i: nat)
    requires i < 8
    ensures OperandIndex(OperandOf(i)) == i && AluIndex(AluOf(i)) == i
    ensures i < 4 ==> PairIndex(PairOf(i)) == i
  {
  }

  /** Encode inverts Decode: each entry's micro-op is encoded by the entry's
      own opcode, so no micro-op sits at two opcodes. */
  lemma EncodeDecode(op: byte)
    ensures Decode(op).Some? ==> Encode(Decode(op).value.op) == Some(op)
  {
    Recompose(op);
    EncodeDecodeFields(op / 64, (op / 8) % 8, op % 8);
  }

  lemma EncodeDecodeFields(hi: nat, y: nat, z: nat)
    requires hi < 4 && y < 8 && z < 8
    ensures DecodeFields(hi, y, z).Some? ==> Encode(DecodeFields(hi, y, z).value.op) == Some(Op(hi, y, z))
  {
    IndexOf(y);
    IndexOf(z);
    if hi == 0 {
      EncodeDecodeLow(y, z);
    } else if hi == 3 {
      EncodeDecodeHigh(y, z);
    }
  }

  lemma EncodeDecodeLow(y: nat, z: nat)
    requires y < 8 && z < 8
    ensures DecodeFields(0, y, z).Some? ==> Encode(DecodeFields(0, y, z).value.op) == Some(Op(0, y, z))
  {
    if z == 6 {
      IndexOf(y);
    } else if z == 1 && y % 2 == 0 {
      IndexOf(y / 2);
      assert 2 * (y / 2) == y;
    } else if z == 2 {
      if y == 0 {} else if y == 1 {} else if y == 2 {} else if y == 3 {}
      else if y == 4 {} else if y == 5 {} else if y == 6 {} else {}
    }
  }

  lemma EncodeDecodeHigh(y: nat, z: nat)
    requires y < 8 && z < 8
    ensures DecodeFields(3, y, z).Some? ==> Encode(DecodeFields(3, y, z).value.op) == Some(Op(3, y, z))
  {
    if (z == 5 || z == 1) && y % 2 == 0 {
      IndexOf(y / 2);
      assert 2 * (y / 2) == y;
    } else if z == 6 && y < 4 {
      IndexOf(y);
    } else if z == 0 || z == 2 {
      if y == 4 {} else if y == 5 {} else if y == 6 {} else if y == 7 {}
    }
  }

  /** Decode inverts Encode: each encoded micro-op decodes back to itself. */
  lemma DecodeEncode(m: MicroOp)
    ensures Encode(m).Some? ==> Decode(Encode(m).value).Some? && Decode(Encode(m).value).value.op == m
  {
    match m
    case LoadA(s) => DecodeIndirect(s, true);
    case StoreA(d) => DecodeIndirect(d, false);
    case Push(_) => DecodeEncodeStack(m);
    case Pop(_) => DecodeEncodeStack(m);
    case AluReg(_, _) => DecodeEncodeAlu(m);
    case AluImm(_) => DecodeEncodeAlu(m);
    case _ => DecodeEncodeLoads(m);
  }

  lemma DecodeEncodeLoads(m: MicroOp)
    requires m.Ld? || m.LdImm? || m.LdPairImm? || m.StoreSP? || m.LdSPHL?
    ensures Encode(m).Some? ==> Decode(Encode(m).value).Some? && Decode(Encode(m).value).value.op == m
  {
    match m
    case Ld(d, s) => DecodeOp(1, OperandIndex(d), OperandIndex(s));
    case LdImm(d) => DecodeOp(0, OperandIndex(d), 6);
    case LdPairImm(p) => DecodeOp(0, 2 * PairIndex(p), 1);
    case StoreSP => DecodeOp(0, 1, 0);
    case LdSPHL => DecodeOp(3, 7, 1);
  }

  lemma DecodeEncodeStack(m: MicroOp)
    requires m.Push? || m.Pop?
    ensures Encode(m).Some? ==> Decode(Encode(m).value).Some? && Decode(Encode(m).value).value.op == m
  {
    match m
    case Push(p) => DecodeOp(3, 2 * PairIndex(p), 5); StackPairs(p);
    case Pop(p) => DecodeOp(3, 2 * PairIndex(p), 1); StackPairs(p);
  }

  lemma StackPairs(p: Pair16)
    ensures var y := 2 * PairIndex(p); y % 2 == 0 && y / 2 == PairIndex(p)
  {
  }

  lemma DecodeEncodeAlu(m: MicroOp)
    requires m.AluReg? || m.AluImm?
    ensures Encode(m).Some? ==> Decode(Encode(m).value).Some? && Decode(Encode(m).value).value.op == m
  {
    match m
    case AluReg(k, s) => DecodeOp(2, AluIndex(k), OperandIndex(s));
    case AluImm(k) =>
      if AluIndex(k) < 4 {
        DecodeOp(3, AluIndex(k), 6);
      }
  }

  lemma DecodeOp(hi: nat, y: nat, z: nat)
    requires hi < 4 && y < 8 && z < 8
    ensures Decode(Op(hi, y, z)) == DecodeFields(hi, y, z)
  {
  }

  lemma DecodeIndirect(i: Indirect, load: bool)
    ensures var op := IndirectCode(i, load);
      Decode(op).Some? && Decode(op).value.op == if load then LoadA(i) else StoreA(i)
  {
    var l := if load then 1 else 0;
    match i
    case AtBC => DecodeOp(0, l, 2);
    case AtDE => DecodeOp(0, 2 + l, 2);
    case AtHLInc => DecodeOp(0, 4 + l, 2);
    case AtHLDec => DecodeOp(0, 6 + l, 2);
    case AtHighC => DecodeOp(3, 4 + 2 * l, 2);
    case AtHighImm => DecodeOp(3, 4 + 2 * l, 0);
    case AtImm16 => DecodeOp(3, 5 + 2 * l, 2);
  }

  // ---------------------------------------------------------------------
  // Building the table

  /** The slots of the fourteen loads between A and memory. */
  predicate IndirectSlot(hi: nat, y: nat, z: nat) {
    IndirectPart(3, hi, y, z)
  }

  /** The source writes them in three runs: (BC) and (DE), then the high
      page and (nn), then (HL-) and (HL+). */
  predicate IndirectPart(part: nat, hi: nat, y: nat, z: nat) {
    (part >= 1 && hi == 0 && z == 2 && y < 4) ||
    (part >= 2 && hi == 3 && (y == 4 || y == 6) && (z == 0 || z == 2)) ||
    (part >= 2 && hi == 3 && (y == 5 || y == 7) && z == 2) ||
    (part >= 3 && hi == 0 && z == 2 && y >= 4)
  }

  /** The slots of the first k ALU rows and of the immediates that follow them. */
  predicate AluSlot(k: nat, hi: nat, y: nat, z: nat) {
    y < k && (hi == 2 || (hi == 3 && z == 6 && y < 4))
  }

  /** The slots the source has filled after `stage` of its steps: the load
      groups one by one (stages 1 to 7), then the ALU rows (stages 8 to 15). */
  predicate Filled(stage: nat, hi: nat, y: nat, z: nat) {
    (stage >= 1 && hi == 1 && !(y == 6 && z == 6)) ||
    (stage >= 2 && hi == 0 && z == 6) ||
    (stage >= 3 && IndirectSlot(hi, y, z)) ||
    (stage >= 4 && hi == 0 && z == 1 && y % 2 == 0) ||
    (stage >= 5 && ((hi == 0 && y == 1 && z == 0) || (hi == 3 && y == 7 && z == 1))) ||
    (stage >= 6 && hi == 3 && z == 5 && y % 2 == 0) ||
    (stage >= 7 && hi == 3 && z == 1 && y % 2 == 0) ||
    (stage >= 8 && AluSlot(stage - 7, hi, y, z))
  }

  /** The table agrees with Decode on the filled slots and is empty elsewhere. */
  predicate Stage(t: array<Option<Instr>>, stage: nat)
    reads t
  {
    t.Length == 256 &&
    forall hi: nat, y: nat, z: nat | hi < 4 && y < 8 && z < 8 ::
      t[Op(hi, y, z)] == if Filled(stage, hi, y, z) then DecodeFields(hi, y, z) else None
  }

  /** After the last step the filled slots are exactly Decode's entries. */
  lemma FilledAll(hi: nat, y: nat, z: nat)
    requires hi < 4 && y < 8 && z < 8
    ensures Filled(15, hi, y, z) <==> DecodeFields(hi, y, z).Some?
  {
  }

  method CreateOpcodeTable() returns (t: array<Option<Instr>>)
    ensures fresh(t) && t.Length == 256
    ensures forall i :: 0 <= i < 256 ==> t[i] == Decode(i)
  {
    t := new Option<Instr>[256](_ => None);
    // 8-bit load instructions
    FillLoadBlock(t);
    FillLoadImm8(t);
    FillLoadIndirect(t);
    // 16-bit load instructions
    FillLoad16(t);
    FillLoadSP(t);
    FillPush(t);
    FillPop(t);
    // 8-bit arithmetic/logic instructions
    FillAluRow(t, AddA, 7);
    FillAluImm(t, AddA, 0xC6, 8);
    FillAluRow(t, AdcA, 8);
    FillAluImm(t, AdcA, 0xCE, 9);
    FillAluRow(t, SubA, 9);
    FillAluImm(t, SubA, 0xD6, 10);
    FillAluRow(t, SbcA, 10);
    FillAluImm(t, SbcA, 0xDE, 11);
    FillAluRow(t, AndA, 11);
    RowOnly(t, 4, 12);
    FillAluRow(t, XorA, 12);
    RowOnly(t, 5, 13);
    FillAluRow(t, OrA, 13);
    RowOnly(t, 6, 14);
    FillAluRow(t, CpA, 14);
    RowOnly(t, 7, 15);
    forall i | 0 <= i < 256
      ensures t[i] == Decode(i)
    {
      Recompose(i);
      FilledAll(i / 64, (i / 8) % 8, i % 8);
    }
  }

  /** LD r, r' over x, y < 8 at 0x40 + (x << 3) + y, skipping HALT. */
  method FillLoadBlock(t: array<Option<Instr>>)
    requires Stage(t, 0)
    modifies t
    ensures Stage(t, 1)
  {
    for x := 0 to 8
      invariant forall hi: nat, fy: nat, fz: nat | hi < 4 && fy < 8 && fz < 8 ::
        t[Op(hi, fy, fz)] == if Filled(1, hi, fy, fz) && fy < x then DecodeFields(hi, fy, fz) else None
    {
      for y := 0 to 8
        invariant forall hi: nat, fy: nat, fz: nat | hi < 4 && fy < 8 && fz < 8 ::
          t[Op(hi, fy, fz)] ==
            if Filled(1, hi, fy, fz) && (fy < x || (fy == x && fz < y)) then DecodeFields(hi, fy, fz) else None
      {
        var opcode := 0x40 + 8 * x + y;
        assert opcode == Op(1, x, y);
        if x == 6 && y == 6 {
          continue;   // HALT
        }
        if x == 6 {
          t[opcode] := Some(Instr(opcode, 8, 1, Ld(HLInd, OperandOf(y))));
        } else if y == 6 {
          t[opcode] := Some(Instr(opcode, 8, 1, Ld(OperandOf(x), HLInd)));
        } else {
          t[opcode] := Some(Instr(opcode, 4, 1, Ld(OperandOf(x), OperandOf(y))));
        }
      }
    }
  }

  /** LD r, n at 0x06 + (x << 3). */
  method FillLoadImm8(t: array<Option<Instr>>)
    requires Stage(t, 1)
    modifies t
    ensures Stage(t, 2)
  {
    for x := 0 to 8
      invariant forall hi: nat, fy: nat, fz: nat | hi < 4 && fy < 8 && fz < 8 ::
        t[Op(hi, fy, fz)] ==
          if Filled(1, hi, fy, fz) || (hi == 0 && fz == 6 && fy < x) then DecodeFields(hi, fy, fz) else None
    {
      var opcode := 0x06 + 8 * x;
      assert opcode == Op(0, x, 6);
      if x == 6 {
        t[opcode] := Some(Instr(opcode, 12, 2, LdImm(HLInd)));
      } else {
        t[opcode] := Some(Instr(opcode, 8, 2, LdImm(OperandOf(x))));
      }
    }
  }

  /** The table with the load groups before this one and the first `part`
      runs of the loads between A and memory. */
  predicate IndirectStage(t: array<Option<Instr>>, part: nat)
    reads t
  {
    t.Length == 256 &&
    forall hi: nat, y: nat, z: nat | hi < 4 && y < 8 && z < 8 ::
      t[Op(hi, y, z)] == if Filled(2, hi, y, z) || IndirectPart(part, hi, y, z) then DecodeFields(hi, y, z) else None
  }

  /** The fourteen single loads between A and memory. */
  method FillLoadIndirect(t: array<Option<Instr>>)
    requires Stage(t, 2)
    modifies t
    ensures Stage(t, 3)
  {
    assert IndirectStage(t, 0) by {
      forall hi: nat, y: nat, z: nat | hi < 4 && y < 8 && z < 8 ensures !IndirectPart(0, hi, y, z) { }
    }
    FillIndirectBCDE(t);
    FillIndirectHigh(t);
    FillIndirectHL(t);
    forall hi: nat, y: nat, z: nat | hi < 4 && y < 8 && z < 8
      ensures Filled(3, hi, y, z) <==> Filled(2, hi, y, z) || IndirectPart(3, hi, y, z)
    {
    }
  }

  method FillIndirectBCDE(t: array<Option<Instr>>)
    requires IndirectStage(t, 0)
    modifies t
    ensures IndirectStage(t, 1)
  {
    t[0x0A] := Some(Instr(0x0A, 8, 1, LoadA(AtBC)));
    t[0x1A] := Some(Instr(0x1A, 8, 1, LoadA(AtDE)));
    t[0x02] := Some(Instr(0x02, 8, 1, StoreA(AtBC)));
    t[0x12] := Some(Instr(0x12, 8, 1, StoreA(AtDE)));
    forall hi: nat, y: nat, z: nat | hi < 4 && y < 8 && z < 8
      ensures t[Op(hi, y, z)] == if Filled(2, hi, y, z) || IndirectPart(1, hi, y, z) then DecodeFields(hi, y, z) else None
    {
      if !IndirectPart(1, hi, y, z) {
        assert t[Op(hi, y, z)] == old(t[Op(hi, y, z)]);
      } else if y == 0 {} else if y == 1 {} else if y == 2 {} else {}
    }
  }

  method FillIndirectHigh(t: array<Option<Instr>>)
    requires IndirectStage(t, 1)
    modifies t
    ensures IndirectStage(t, 2)
  {
    t[0xFA] := Some(Instr(0xFA, 16, 3, LoadA(AtImm16)));
    t[0xEA] := Some(Instr(0xEA, 16, 3, StoreA(AtImm16)));
    t[0xF2] := Some(Instr(0xF2, 8, 1, LoadA(AtHighC)));
    t[0xE2] := Some(Instr(0xE2, 8, 1, StoreA(AtHighC)));
    t[0xF0] := Some(Instr(0xF0, 12, 1, LoadA(AtHighImm)));
    t[0xE0] := Some(Instr(0xE0, 12, 2, StoreA(AtHighImm)));
    forall hi: nat, y: nat, z: nat | hi < 4 && y < 8 && z < 8
      ensures t[Op(hi, y, z)] == if Filled(2, hi, y, z) || IndirectPart(2, hi, y, z) then DecodeFields(hi, y, z) else None
    {
      if !IndirectPart(2, hi, y, z) || hi == 0 {
        assert t[Op(hi, y, z)] == old(t[Op(hi, y, z)]);
      } else if z == 0 {
        if y == 4 {} else {}
      } else {
        if y == 4 {} else if y == 5 {} else if y == 6 {} else {}
      }
    }
  }

  method FillIndirectHL(t: array<Option<Instr>>)
    requires IndirectStage(t, 2)
    modifies t
    ensures IndirectStage(t, 3)
  {
    t[0x3A] := Some(Instr(0x3A, 8, 1, LoadA(AtHLDec)));
    t[0x32] := Some(Instr(0x32, 8, 1, StoreA(AtHLDec)));
    t[0x2A] := Some(Instr(0x2A, 8, 1, LoadA(AtHLInc)));
    t[0x22] := Some(Instr(0x22, 8, 1, StoreA(AtHLInc)));
    forall hi: nat, y: nat, z: nat | hi < 4 && y < 8 && z < 8
      ensures t[Op(hi, y, z)] == if Filled(2, hi, y, z) || IndirectPart(3, hi, y, z) then DecodeFields(hi, y, z) else None
    {
      if !IndirectPart(3, hi, y, z) || !(hi == 0 && y >= 4) {
        assert t[Op(hi, y, z)] == old(t[Op(hi, y, z)]);
      } else if y == 4 {} else if y == 5 {} else if y == 6 {} else {}
    }
  }

  /** LD rr, nn at 0x01 + (x << 4). */
  method FillLoad16(t: array<Option<Instr>>)
    requires Stage(t, 3)
    modifies t
    ensures Stage(t, 4)
  {
    for x := 0 to 4
      invariant forall hi: nat, fy: nat, fz: nat | hi < 4 && fy < 8 && fz < 8 ::
        t[Op(hi, fy, fz)] ==
          if Filled(3, hi, fy, fz) || (hi == 0 && fz == 1 && fy % 2 == 0 && fy < 2 * x)
          then DecodeFields(hi, fy, fz) else None
    {
      var opcode := 0x01 + 16 * x;
      assert opcode == Op(0, 2 * x, 1);
      t[opcode] := Some(Instr(opcode, 12, 3, LdPairImm(PairOf(x))));
    }
  }

  /** LD (nn), SP and LD SP, HL. */
  method FillLoadSP(t: array<Option<Instr>>)
    requires Stage(t, 4)
    modifies t
    ensures Stage(t, 5)
  {
    t[0x08] := Some(Instr(0x08, 20, 3, StoreSP));
    t[0xF9] := Some(Instr(0xF9, 8, 1, LdSPHL));
  }

  /** PUSH rr at 0xC5 + (x << 4). */
  method FillPush(t: array<Option<Instr>>)
    requires Stage(t, 5)
    modifies t
    ensures Stage(t, 6)
  {
    for x := 0 to 4
      invariant forall hi: nat, fy: nat, fz: nat | hi < 4 && fy < 8 && fz < 8 ::
        t[Op(hi, fy, fz)] ==
          if Filled(5, hi, fy, fz) || (hi == 3 && fz == 5 && fy % 2 == 0 && fy < 2 * x)
          then DecodeFields(hi, fy, fz) else None
    {
      var opcode := 0xC5 + 16 * x;
      assert opcode == Op(3, 2 * x, 5);
      t[opcode] := Some(Instr(opcode, 16, 1, Push(PairOf(x))));
    }
  }

  /** POP rr at 0xC1 + (x << 4). */
  method FillPop(t: array<Option<Instr>>)
    requires Stage(t, 6)
    modifies t
    ensures Stage(t, 7)
  {
    for x := 0 to 4
      invariant forall hi: nat, fy: nat, fz: nat | hi < 4 && fy < 8 && fz < 8 ::
        t[Op(hi, fy, fz)] ==
          if Filled(6, hi, fy, fz) || (hi == 3 && fz == 1 && fy % 2 == 0 && fy < 2 * x)
          then DecodeFields(hi, fy, fz) else None
    {
      var opcode := 0xC1 + 16 * x;
      assert opcode == Op(3, 2 * x, 1);
      t[opcode] := Some(Instr(opcode, 12, 1, Pop(PairOf(x))));
    }
  }

  /** The slots of ALU row k: opcodes 0x80 + (k << 3) + x. */
  predicate RowSlot(k: nat, hi: nat, y: nat) {
    hi == 2 && y == k
  }

  /** Stage 7 + k with ALU row k filled as well. */
  predicate StageRow(t: array<Option<Instr>>, k: nat)
    reads t
  {
    t.Length == 256 &&
    forall hi: nat, y: nat, z: nat | hi < 4 && y < 8 && z < 8 ::
      t[Op(hi, y, z)] == if Filled(7 + k, hi, y, z) || RowSlot(k, hi, y) then DecodeFields(hi, y, z) else None
  }

  /** Filling row k and then, for the first four rows, the immediate form
      is one more stage. */
  lemma FilledNextRow(k: nat, hi: nat, y: nat, z: nat)
    requires k < 8
    ensures Filled(8 + k, hi, y, z) <==>
      Filled(7 + k, hi, y, z) || RowSlot(k, hi, y) || (k < 4 && hi == 3 && z == 6 && y == k)
  {
  }

  /** One of the source's eight ALU loops. */
  method FillAluRow(t: array<Option<Instr>>, kind: AluOp, stage: nat)
    requires stage == 7 + AluIndex(kind) && Stage(t, stage)
    modifies t
    ensures StageRow(t, AluIndex(kind))
  {
    var k := AluIndex(kind);
    for x := 0 to 8
      invariant forall hi: nat, fy: nat, fz: nat | hi < 4 && fy < 8 && fz < 8 ::
        t[Op(hi, fy, fz)] ==
          if Filled(7 + k, hi, fy, fz) || (RowSlot(k, hi, fy) && fz < x) then DecodeFields(hi, fy, fz) else None
    {
      var opcode := 0x80 + 8 * k + x;
      assert opcode == Op(2, k, x);
      if x == 6 {
        t[opcode] := Some(Instr(opcode, 8, 1, AluReg(kind, HLInd)));
      } else {
        t[opcode] := Some(Instr(opcode, 4, 1, AluReg(kind, OperandOf(x))));
      }
    }
  }

  /** The rows without an immediate form: AND, XOR, OR and CP. */
  lemma RowOnly(t: array<Option<Instr>>, k: nat, stage: nat)
    requires 4 <= k < 8 && stage == 8 + k && StageRow(t, k)
    ensures Stage(t, stage)
  {
    forall hi: nat, y: nat, z: nat | hi < 4 && y < 8 && z < 8
      ensures t[Op(hi, y, z)] == if Filled(8 + k, hi, y, z) then DecodeFields(hi, y, z) else None
    {
      FilledNextRow(k, hi, y, z);
    }
  }

  /** ADD, ADC, SUB and SBC A, n at 0xC6 + (k << 3), after their row. */
  method FillAluImm(t: array<Option<Instr>>, kind: AluOp, opcode: byte, stage: nat)
    requires AluIndex(kind) < 4 && opcode == 0xC6 + 8 * AluIndex(kind) && stage == 8 + AluIndex(kind)
    requires StageRow(t, AluIndex(kind))
    modifies t
    ensures Stage(t, stage)
  {
    var k := AluIndex(kind);
    assert opcode == Op(3, k, 6);
    t[opcode] := Some(Instr(opcode, 8, 2, AluImm(kind)));
    forall hi: nat, y: nat, z: nat | hi < 4 && y < 8 && z < 8
      ensures t[Op(hi, y, z)] == if Filled(8 + k, hi, y, z) then DecodeFields(hi, y, z) else None
    {
      FilledNextRow(k, hi, y, z);
    }
  }
}
