// The 8-bit ALU helpers of src/CPU.tsx: add8, adc8, sub8, sbc8, and8, xor8
// and or8. Each computes a byte and assigns the four flags of the register
// file; here the result and the flags are one value (AluOut), and a method
// per helper applies them to a Registers object.
module Alu {
  import opened Bits
  import opened RegisterFile

  /** A result byte and the flag values the helper assigns. */
  datatype AluOut = AluOut(result: byte, z: bool, n: bool, h: bool, c: bool)

  /** The eight operations of the ALU opcode rows 0x80-0xBF, in row order
      (ADD A, ADC A, SUB A, SBC A, AND A, XOR A, OR A, CP A). */
  datatype AluOp = AddA | AdcA | SubA | SbcA | AndA | XorA | OrA | CpA

  function Add8(x: byte, y: byte): (o: AluOut)
    ensures o.result + (if o.c then 256 else 0) == x + y
    ensures o.z <==> o.result == 0
    ensures !o.n
    ensures o.h <==> o.result % 16 < x % 16
  {
    var result := (x + y) % 256;
    AluOut(result, result == 0, false, x % 16 + y % 16 > 0xF, x + y > 0xFF)
  }

  function Adc8(x: byte, y: byte, carry: bool): (o: AluOut)
    ensures o.result + (if o.c then 256 else 0) == x + y + (if carry then 1 else 0)
    ensures o.z <==> o.result == 0
    ensures !o.n
  {
    var c := if carry then 1 else 0;
    var result := (x + y + c) % 256;
    AluOut(result, result == 0, false, x % 16 + y % 16 + c > 0xF, x + y + c > 0xFF)
  }

  function Sub8(x: byte, y: byte): (o: AluOut)
    ensures o.result == x - y + (if o.c then 256 else 0)
    ensures o.z <==> x == y
    ensures o.n
    ensures o.h <==> x % 16 < y % 16
  {
    var result := (x - y) % 256;
    AluOut(result, result == 0, true, x % 16 < y % 16, x < y)
  }

  /** The carry-in taken from F is 0xFF, not 1, when the carry flag is set. */
  function Sbc8(x: byte, y: byte, carry: bool): (o: AluOut)
    ensures o.z <==> o.result == 0
    ensures o.n
  {
    var c := if carry then 0xFF else 0;
    var result := (x - y - c) % 256;
    AluOut(result, result == 0, true, x % 16 < y % 16 + c, x < y + c)
  }

  function And8(x: byte, y: byte): (o: AluOut)
    ensures forall i: nat :: Bit(o.result, i) == Bit(x, i) * Bit(y, i)
    ensures o.z <==> o.result == 0
    ensures !o.n && o.h && !o.c
  {
    forall i: nat ensures Bit(And(x, y), i) == Bit(x, i) * Bit(y, i) {
      BitAnd(x, y, i);
    }
    var result := And(x, y);
    AluOut(result, result == 0, false, true, false)
  }

  function Xor8(x: byte, y: byte): (o: AluOut)
    ensures forall i: nat :: Bit(o.result, i) == if Bit(x, i) != Bit(y, i) then 1 else 0
    ensures o.z <==> o.result == 0
    ensures !o.n && !o.h && !o.c
  {
    assert Pow2(8) == 256;
    XorBound(x, y, 8);
    forall i: nat ensures Bit(Xor(x, y), i) == if Bit(x, i) != Bit(y, i) then 1 else 0 {
      BitXor(x, y, i);
    }
    var result := Xor(x, y);
    AluOut(result, result == 0, false, false, false)
  }

  function Or8(x: byte, y: byte): (o: AluOut)
    ensures forall i: nat :: Bit(o.result, i) == if Bit(x, i) == 1 || Bit(y, i) == 1 then 1 else 0
    ensures o.z <==> o.result == 0
    ensures !o.n && !o.h && !o.c
  {
    assert Pow2(8) == 256;
    OrBound(x, y, 8);
    forall i: nat ensures Bit(Or(x, y), i) == if Bit(x, i) == 1 || Bit(y, i) == 1 then 1 else 0 {
      BitOr(x, y, i);
    }
    var result := Or(x, y);
    AluOut(result, result == 0, false, false, false)
  }

  /** The helper an opcode row calls; CP calls sub8 and discards its result. */
  function Compute(kind: AluOp, x: byte, y: byte, carry: bool): AluOut {
    match kind
    case AddA => Add8(x, y)
    case AdcA => Adc8(x, y, carry)
    case SubA => Sub8(x, y)
    case SbcA => Sbc8(x, y, carry)
    case AndA => And8(x, y)
    case XorA => Xor8(x, y)
    case OrA => Or8(x, y)
    case CpA => Sub8(x, y)
  }

  /** The register file after the helper's four flag assignments. */
  function WithAluFlags(r: RegFile, o: AluOut): RegFile {
    r.WithFlags(o.z, o.n, o.h, o.c)
  }

  // ---------------------------------------------------------------------
  // Properties of the helpers

  /** The carry flag of an addition is set exactly when the result wrapped
      below the first operand. */
  lemma AddCarryIsWrap(x: byte, y: byte)
    ensures Add8(x, y).c <==> Add8(x, y).result < x
  {
  }

  /** With the carry flag clear adc8 is add8. */
  lemma AdcNoCarry(x: byte, y: byte)
    ensures Adc8(x, y, false) == Add8(x, y)
  {
  }

  /** With the carry flag set adc8 adds one more: its result is add8's result
      plus one, and the half-carry sees the extra one in the low nibble. */
  lemma AdcWithCarry(x: byte, y: byte)
    ensures Adc8(x, y, true).result == Add8(Add8(x, y).result, 1).result
    ensures Adc8(x, y, true).h <==> Adc8(x, y, true).result % 16 <= x % 16
    ensures Adc8(x, y, true).c <==> Adc8(x, y, true).result <= x
  {
    var r := Adc8(x, y, true).result;
    if x + y + 1 < 256 {
      assert r == x + y + 1;
    } else {
      assert r == x + y + 1 - 256;
    }
    LowNibbleOfSum(x, y, r);
  }

  /** The low nibble of (x + y + 1) % 256 is that of the nibbles' sum. */
  lemma LowNibbleOfSum(x: byte, y: byte, r: int)
    requires r == (x + y + 1) % 256
    ensures r % 16 == (x % 16 + y % 16 + 1) % 16
    ensures x % 16 + y % 16 + 1 > 0xF <==> r % 16 <= x % 16
  {
    var n := x % 16 + y % 16 + 1;
    assert x + y + 1 == 16 * (x / 16 + y / 16) + n;
    assert x + y + 1 == 256 * ((x + y + 1) / 256) + r;
    assert r % 16 == n % 16;
    if n > 0xF {
      assert r % 16 == n - 16;
    } else {
      assert r % 16 == n;
    }
  }

  /** sub8 undoes add8: adding y back to x - y gives x, and the carry and
      half-carry of that addition are exactly sub8's borrow flags. */
  lemma SubUndoesAdd(x: byte, y: byte)
    ensures Add8(Sub8(x, y).result, y) == AluOut(x, x == 0, false, Sub8(x, y).h, Sub8(x, y).c)
  {
    var r := Sub8(x, y).result;
    assert r % 16 + y % 16 > 0xF <==> x % 16 < y % 16 by {
      if x < y {
        assert r == x - y + 256;
      } else {
        assert r == x - y;
      }
    }
  }

  /** With the carry flag clear sbc8 is sub8. */
  lemma SbcNoCarry(x: byte, y: byte)
    ensures Sbc8(x, y, false) == Sub8(x, y)
  {
  }

  /** With the carry flag set, the 0xFF carry-in makes sbc8 compute x - y + 1
      (mod 256), sets the half-carry always, and sets the carry unless
      x = 0xFF and y = 0. */
  lemma SbcWithCarry(x: byte, y: byte)
    ensures Sbc8(x, y, true).result == Add8(Sub8(x, y).result, 1).result
    ensures Sbc8(x, y, true).h
    ensures Sbc8(x, y, true).c <==> !(x == 0xFF && y == 0)
  {
  }

  /** The result of sbc8 with the carry set differs from one where the carry
      borrows one: 0x10 - 0x01 - carry gives 0x10, and not 0x0E. */
  lemma SbcCarryExample()
    ensures Sbc8(0x10, 0x01, true).result == 0x10
  {
  }

  /** 0x0F + 0x01 carries out of the low nibble only. */
  lemma AddHalfCarryExample()
    ensures Add8(0x0F, 0x01) == AluOut(0x10, false, false, true, false)
  {
  }

  /** 0xFF + 0x01 wraps to zero and sets Z, H and C. */
  lemma AddWrapExample()
    ensures Add8(0xFF, 0x01) == AluOut(0, true, false, true, true)
  {
  }

  /** XOR of a byte with itself is zero and sets Z; OR and AND of a byte with
      itself give the byte back. */
  lemma {:induction false} LogicSelf(x: byte)
    ensures Xor8(x, x) == AluOut(0, true, false, false, false)
    ensures Or8(x, x).result == x && And8(x, x).result == x
  {
    forall i: nat ensures Bit(Xor8(x, x).result, i) == Bit(0, i) {
      BitZero(i);
    }
    BitsEqual(Xor8(x, x).result, 0);
    forall i: nat ensures Bit(Or8(x, x).result, i) == Bit(x, i) {
    }
    BitsEqual(Or8(x, x).result, x);
    forall i: nat ensures Bit(And8(x, x).result, i) == Bit(x, i) {
    }
    BitsEqual(And8(x, x).result, x);
  }

  /** Every helper's Z flag says whether its result byte is zero: the Z
      clauses of the seven helpers' own contracts, gathered through Compute
      so that callers can use them whatever the operation. */
  lemma ZeroFlag(kind: AluOp, x: byte, y: byte, carry: bool)
    ensures Compute(kind, x, y, carry).z <==> Compute(kind, x, y, carry).result == 0
  {
  }

  /** Whatever the operation, the flag assignments change only F, and the
      four flag getters then read the AluOut flags. */
  lemma AluFlagsReadBack(r: RegFile, o: AluOut)
    ensures var r' := WithAluFlags(r, o);
      r' == r.(f := r'.f) &&
      r'.FlagZ() == o.z && r'.FlagN() == o.n && r'.FlagH() == o.h && r'.FlagC() == o.c
  {
    WithFlagsReadBack(r, o.z, o.n, o.h, o.c);
  }

  // ---------------------------------------------------------------------
  // The helpers as they run on a Registers object

  method RunAdd8(x: byte, y: byte, reg: Registers) returns (r: byte)
    modifies reg
    ensures r == Add8(x, y).result
    ensures reg.Abs() == WithAluFlags(old(reg.Abs()), Add8(x, y))
  {
    var o := Add8(x, y);
    reg.SetFlags(o.z, o.n, o.h, o.c);
    r := o.result;
  }

  method RunAdc8(x: byte, y: byte, reg: Registers) returns (r: byte)
    modifies reg
    ensures r == Adc8(x, y, old(reg.FlagC())).result
    ensures reg.Abs() == WithAluFlags(old(reg.Abs()), Adc8(x, y, old(reg.FlagC())))
  {
    var o := Adc8(x, y, reg.FlagC());
    reg.SetFlags(o.z, o.n, o.h, o.c);
    r := o.result;
  }

  method RunSub8(x: byte, y: byte, reg: Registers) returns (r: byte)
    modifies reg
    ensures r == Sub8(x, y).result
    ensures reg.Abs() == WithAluFlags(old(reg.Abs()), Sub8(x, y))
  {
    var o := Sub8(x, y);
    reg.SetFlags(o.z, o.n, o.h, o.c);
    r := o.result;
  }

  method RunSbc8(x: byte, y: byte, reg: Registers) returns (r: byte)
    modifies reg
    ensures r == Sbc8(x, y, old(reg.FlagC())).result
    ensures reg.Abs() == WithAluFlags(old(reg.Abs()), Sbc8(x, y, old(reg.FlagC())))
  {
    var o := Sbc8(x, y, reg.FlagC());
    reg.SetFlags(o.z, o.n, o.h, o.c);
    r := o.result;
  }

  method RunAnd8(x: byte, y: byte, reg: Registers) returns (r: byte)
    modifies reg
    ensures r == And8(x, y).result
    ensures reg.Abs() == WithAluFlags(old(reg.Abs()), And8(x, y))
  {
    var o := And8(x, y);
    reg.SetFlags(o.z, o.n, o.h, o.c);
    r := o.result;
  }

  method RunXor8(x: byte, y: byte, reg: Registers) returns (r: byte)
    modifies reg
    ensures r == Xor8(x, y).result
    ensures reg.Abs() == WithAluFlags(old(reg.Abs()), Xor8(x, y))
  {
    var o := Xor8(x, y);
    reg.SetFlags(o.z, o.n, o.h, o.c);
    r := o.result;
  }

  method RunOr8(x: byte, y: byte, reg: Registers) returns (r: byte)
    modifies reg
    ensures r == Or8(x, y).result
    ensures reg.Abs() == WithAluFlags(old(reg.Abs()), Or8(x, y))
  {
    var o := Or8(x, y);
    reg.SetFlags(o.z, o.n, o.h, o.c);
    r := o.result;
  }
}
