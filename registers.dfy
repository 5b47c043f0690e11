// The register file of src/CPU.tsx (class Registers): eight byte registers,
// PC and SP, the AF/BC/DE/HL pair views, the four flags kept in F and the
// wrap-around increment and decrement helpers.
module RegisterFile {
  import opened Bits

  /** Flag positions in F. */
  const ZBit: nat := 7
  const NBit: nat := 6
  const HBit: nat := 5
  const CBit: nat := 4

  /** x & 0xffff: the source's 16-bit wrap-around, also for x = -1. */
  function Wrap16(x: int): word {
    x % 0x1_0000
  }

  /** (v >> 8) & 0xff */
  function High(v: word): byte {
    (v / 256) % 256
  }

  /** v & 0xff */
  function Low(v: word): byte {
    v % 256
  }

  /** (hi << 8) | lo: the two bytes do not overlap, so this is hi * 256 + lo. */
  function Combine(hi: byte, lo: byte): (r: word)
    ensures r == hi * 256 + lo
  {
    assert Pow2(8) == 256;
    OrDisjoint(hi, lo, 8);
    Or(hi * 256, lo)
  }

  /** The flag setter at bit n: `f |= 1 << n` for true, `f &= 0xff - (1 << n)`
      for false. The getter `(f & (1 << n)) !== 0` is TestBit. */
  function WithFlag(f: byte, n: nat, v: bool): (r: byte)
    requires n < 8
    ensures TestBit(r, n) == v
    ensures forall i: nat :: i != n ==> Bit(r, i) == Bit(f, i)
  {
    if v then SetBit(f, n) else ClearBit(f, n)
  }

  /** The register file as a value. */
  datatype RegFile = RegFile(
    a: byte, b: byte, c: byte, d: byte, e: byte, f: byte, h: byte, l: byte,
    pc: word, sp: word)
  {
    function AF(): word { Combine(a, f) }
    function BC(): word { Combine(b, c) }
    function DE(): word { Combine(d, e) }
    function HL(): word { Combine(h, l) }

    function FlagZ(): bool { TestBit(f, ZBit) }
    function FlagN(): bool { TestBit(f, NBit) }
    function FlagH(): bool { TestBit(f, HBit) }
    function FlagC(): bool { TestBit(f, CBit) }

    /** The four flag setters in the order the ALU helpers call them, with F
        in the closed form FlagSettersClosedForm proves. */
    function WithFlags(z: bool, n: bool, hf: bool, cf: bool): RegFile {
      this.(f := FlagByte(f, z, n, hf, cf))
    }
  }

  /** F after `FlagZ = z; FlagN = n; FlagH = h; FlagC = c`, setter by setter. */
  function FlagSetters(f: byte, z: bool, n: bool, hf: bool, cf: bool): byte {
    WithFlag(WithFlag(WithFlag(WithFlag(f, ZBit, z), NBit, n), HBit, hf), CBit, cf)
  }

  function FlagBit(v: bool): nat {
    if v then 1 else 0
  }

  /** The four flags in bits 7 to 4 above the low nibble of f. */
  function FlagByte(f: byte, z: bool, n: bool, hf: bool, cf: bool): byte {
    16 * (8 * FlagBit(z) + 4 * FlagBit(n) + 2 * FlagBit(hf) + FlagBit(cf)) + f % 16
  }

  // ---------------------------------------------------------------------
  // Properties of the pair views and flags

  /** Setting a pair view to v stores v / 256 and v % 256, and reading the
      view back gives v. */
  lemma PairRoundTrip(v: word)
    ensures High(v) == v / 256 && Low(v) == v % 256
    ensures Combine(High(v), Low(v)) == v
  {
  }

  /** Reading the two halves of a combined pair gives the bytes it was built from. */
  lemma SplitCombine(hi: byte, lo: byte)
    ensures High(Combine(hi, lo)) == hi && Low(Combine(hi, lo)) == lo
  {
  }

  /** The bits of Pow2(k) * q + lo with lo < Pow2(k): below k they are
      lo's, from k up they are q's. */
  lemma {:induction false} SplitBits(q: nat, lo: nat, k: nat, i: nat)
    requires lo < Pow2(k)
    ensures Bit(Pow2(k) * q + lo, i) == if i < k then Bit(lo, i) else Bit(q, i - k)
    decreases k
  {
    if k > 0 {
      var y := Pow2(k - 1) * q;
      var x := Pow2(k) * q + lo;
      assert Pow2(k) * q == 2 * y;
      assert x / 2 == y + lo / 2 && x % 2 == lo % 2;
      if i > 0 {
        SplitBits(q, lo / 2, k - 1, i - 1);
      }
    }
  }

  /** Bit i of the closed form: the flags at 7, 6, 5 and 4, f below, 0 above. */
  lemma FlagByteBits(f: byte, z: bool, n: bool, hf: bool, cf: bool, i: nat)
    ensures Bit(FlagByte(f, z, n, hf, cf), i) ==
      if i == ZBit then FlagBit(z) else if i == NBit then FlagBit(n)
      else if i == HBit then FlagBit(hf) else if i == CBit then FlagBit(cf)
      else if i < 4 then Bit(f, i) else 0
  {
    var q := 8 * FlagBit(z) + 4 * FlagBit(n) + 2 * FlagBit(hf) + FlagBit(cf);
    assert Pow2(4) == 16;
    SplitBits(q, f % 16, 4, i);
    SplitBits(f / 16, f % 16, 4, i);
    assert f == 16 * (f / 16) + f % 16;
    if i >= 4 {
      FlagNibble(z, n, hf, cf, i - 4);
    }
  }

  lemma FlagNibble(z: bool, n: bool, hf: bool, cf: bool, j: nat)
    ensures Bit(8 * FlagBit(z) + 4 * FlagBit(n) + 2 * FlagBit(hf) + FlagBit(cf), j) ==
      if j == 3 then FlagBit(z) else if j == 2 then FlagBit(n)
      else if j == 1 then FlagBit(hf) else if j == 0 then FlagBit(cf) else 0
  {
    var q := 8 * FlagBit(z) + 4 * FlagBit(n) + 2 * FlagBit(hf) + FlagBit(cf);
    var q1 := 4 * FlagBit(z) + 2 * FlagBit(n) + FlagBit(hf);
    var q2 := 2 * FlagBit(z) + FlagBit(n);
    assert q / 2 == q1 && q1 / 2 == q2 && q2 / 2 == FlagBit(z);
    if j >= 4 {
      assert Pow2(4) == 16;
      BitsAbove(q, 4, j);
    } else if j == 3 {
      assert Bit(q, 3) == Bit(q1, 2) == Bit(q2, 1) == Bit(FlagBit(z), 0);
    } else if j == 2 {
      assert Bit(q, 2) == Bit(q1, 1) == Bit(q2, 0);
    } else if j == 1 {
      assert Bit(q, 1) == Bit(q1, 0);
    }
  }

  /** The four setters leave exactly the closed form in F. */
  lemma FlagSettersClosedForm(f: byte, z: bool, n: bool, hf: bool, cf: bool)
    ensures FlagSetters(f, z, n, hf, cf) == FlagByte(f, z, n, hf, cf)
  {
    var f1 := WithFlag(f, ZBit, z);
    var f2 := WithFlag(f1, NBit, n);
    var f3 := WithFlag(f2, HBit, hf);
    var f4 := WithFlag(f3, CBit, cf);
    forall i: nat
      ensures Bit(f4, i) == Bit(FlagByte(f, z, n, hf, cf), i)
    {
      FlagByteBits(f, z, n, hf, cf, i);
      if i >= 8 {
        assert Pow2(8) == 256;
        BitsAbove(f, 8, i);
        BitsAbove(f4, 8, i);
      }
    }
    BitsEqual(f4, FlagByte(f, z, n, hf, cf));
  }

  /** After the four flag setters each getter returns the value set, and the
      low nibble of F is untouched. */
  lemma WithFlagsReadBack(r: RegFile, z: bool, n: bool, hf: bool, cf: bool)
    ensures var r' := r.WithFlags(z, n, hf, cf);
      r'.FlagZ() == z && r'.FlagN() == n && r'.FlagH() == hf && r'.FlagC() == cf &&
      r' == r.(f := r'.f) &&
      forall i: nat :: i < 4 ==> Bit(r'.f, i) == Bit(r.f, i)
  {
    var f' := FlagByte(r.f, z, n, hf, cf);
    FlagByteBits(r.f, z, n, hf, cf, ZBit);
    FlagByteBits(r.f, z, n, hf, cf, NBit);
    FlagByteBits(r.f, z, n, hf, cf, HBit);
    FlagByteBits(r.f, z, n, hf, cf, CBit);
    forall i: nat | i < 4
      ensures Bit(f', i) == Bit(r.f, i)
    {
      FlagByteBits(r.f, z, n, hf, cf, i);
    }
  }

  // ---------------------------------------------------------------------
  // The Registers object

  class Registers {
    var A: byte
    var B: byte
    var C: byte
    var D: byte
    var E: byte
    var F: byte
    var H: byte
    var L: byte
    var PC: word
    var SP: word

    function Abs(): RegFile
      reads this
    {
      RegFile(A, B, C, D, E, F, H, L, PC, SP)
    }

    constructor()
      ensures Abs() == RegFile(0, 0, 0, 0, 0, 0, 0, 0, 0, 0)
    {
      A, B, C, D, E, F, H, L := 0, 0, 0, 0, 0, 0, 0, 0;
      PC, SP := 0, 0;
    }

    method IncPC() returns (cur: word)
      modifies this
      ensures cur == old(PC)
      ensures Abs() == old(Abs()).(pc := Wrap16(cur + 1))
    {
      cur := PC;
      PC := Wrap16(cur + 1);
    }

    method IncHL() returns (cur: word)
      modifies this
      ensures cur == old(Abs()).HL()
      ensures Abs() == old(Abs()).(h := High(Wrap16(cur + 1)), l := Low(Wrap16(cur + 1)))
    {
      cur := HL();
      SetHL(Wrap16(cur + 1));
    }

    method DecHL() returns (cur: word)
      modifies this
      ensures cur == old(Abs()).HL()
      ensures Abs() == old(Abs()).(h := High(Wrap16(cur - 1)), l := Low(Wrap16(cur - 1)))
    {
      cur := HL();
      SetHL(Wrap16(cur - 1));
    }

    method IncSP() returns (cur: word)
      modifies this
      ensures cur == old(SP)
      ensures Abs() == old(Abs()).(sp := Wrap16(cur + 1))
    {
      cur := SP;
      SP := Wrap16(cur + 1);
    }

    method DecSP() returns (cur: word)
      modifies this
      ensures cur == old(SP)
      ensures Abs() == old(Abs()).(sp := Wrap16(cur - 1))
    {
      cur := SP;
      SP := Wrap16(cur - 1);
    }

    function AF(): (r: word)
      reads this
      ensures High(r) == A && Low(r) == F
    {
      SplitCombine(A, F);
      Combine(A, F)
    }

    function BC(): (r: word)
      reads this
      ensures High(r) == B && Low(r) == C
    {
      SplitCombine(B, C);
      Combine(B, C)
    }

    function DE(): (r: word)
      reads this
      ensures High(r) == D && Low(r) == E
    {
      SplitCombine(D, E);
      Combine(D, E)
    }

    function HL(): (r: word)
      reads this
      ensures High(r) == H && Low(r) == L
    {
      SplitCombine(H, L);
      Combine(H, L)
    }

    method SetAF(v: word)
      modifies this
      ensures Abs() == old(Abs()).(a := High(v), f := Low(v))
      ensures AF() == v
    {
      A, F := High(v), Low(v);
    }

    method SetBC(v: word)
      modifies this
      ensures Abs() == old(Abs()).(b := High(v), c := Low(v))
      ensures BC() == v
    {
      B, C := High(v), Low(v);
    }

    method SetDE(v: word)
      modifies this
      ensures Abs() == old(Abs()).(d := High(v), e := Low(v))
      ensures DE() == v
    {
      D, E := High(v), Low(v);
    }

    method SetHL(v: word)
      modifies this
      ensures Abs() == old(Abs()).(h := High(v), l := Low(v))
      ensures HL() == v
    {
      H, L := High(v), Low(v);
    }

    function FlagZ(): (r: bool)
      reads this
      ensures r <==> Bit(F, ZBit) == 1
    {
      TestBit(F, ZBit)
    }

    function FlagN(): (r: bool)
      reads this
      ensures r <==> Bit(F, NBit) == 1
    {
      TestBit(F, NBit)
    }

    function FlagH(): (r: bool)
      reads this
      ensures r <==> Bit(F, HBit) == 1
    {
      TestBit(F, HBit)
    }

    function FlagC(): (r: bool)
      reads this
      ensures r <==> Bit(F, CBit) == 1
    {
      TestBit(F, CBit)
    }

    method SetFlagZ(v: bool)
      modifies this
      ensures Abs() == old(Abs()).(f := WithFlag(old(F), ZBit, v))
      ensures FlagZ() == v
    {
      F := WithFlag(F, ZBit, v);
    }

    method SetFlagN(v: bool)
      modifies this
      ensures Abs() == old(Abs()).(f := WithFlag(old(F), NBit, v))
      ensures FlagN() == v
    {
      F := WithFlag(F, NBit, v);
    }

    method SetFlagH(v: bool)
      modifies this
      ensures Abs() == old(Abs()).(f := WithFlag(old(F), HBit, v))
      ensures FlagH() == v
    {
      F := WithFlag(F, HBit, v);
    }

    method SetFlagC(v: bool)
      modifies this
      ensures Abs() == old(Abs()).(f := WithFlag(old(F), CBit, v))
      ensures FlagC() == v
    {
      F := WithFlag(F, CBit, v);
    }

    /** reg.FlagZ = z; reg.FlagN = n; reg.FlagH = h; reg.FlagC = c; */
    method SetFlags(z: bool, n: bool, hf: bool, cf: bool)
      modifies this
      ensures Abs() == old(Abs()).WithFlags(z, n, hf, cf)
    {
      FlagSettersClosedForm(F, z, n, hf, cf);
      SetFlagZ(z);
      SetFlagN(n);
      SetFlagH(hf);
      SetFlagC(cf);
    }
  }
}
