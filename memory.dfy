// The 64 KB address space of src/Memory.tsx: a byte store overlaid by the
// display and interrupt I/O registers, which reads and writes reach by
// address and the pixel pipeline also touches directly as fields.
module MemoryMap {
  import opened Bits

  /** The backing store: exactly 65536 bytes. */
  type Ram = s: seq<byte> | |s| == 0x1_0000 witness seq(0x1_0000, _ => 0)

  /** The I/O registers the address space intercepts. `iflag` is IF. */
  datatype IORegs = IORegs(
    lcdc: byte, stat: byte, scy: byte, scx: byte, ly: byte, lyc: byte,
    bgp: byte, obp0: byte, obp1: byte, wy: byte, wx: byte, iflag: byte, ie: byte)

  /** The whole address space as a value. */
  datatype MemState = MemState(io: IORegs, ram: Ram)

  const LcdcAddr: word := 0xFF40
  const StatAddr: word := 0xFF41
  const ScyAddr: word := 0xFF42
  const ScxAddr: word := 0xFF43
  const LyAddr: word := 0xFF44
  const LycAddr: word := 0xFF45
  const BgpAddr: word := 0xFF47
  const Obp0Addr: word := 0xFF48
  const Obp1Addr: word := 0xFF49
  const WyAddr: word := 0xFF4A
  const WxAddr: word := 0xFF4B
  const IfAddr: word := 0xFF0F
  const IeAddr: word := 0xFFFF
  /** Serial transfer data: writes are a debug print and store nothing. */
  const SerialAddr: word := 0xFF01

  /** STAT bit 2 is the LY == LYC coincidence flag. */
  const CoincidenceBit: nat := 2

  predicate IsIORegister(addr: word) {
    addr == LcdcAddr || addr == StatAddr || addr == ScyAddr || addr == ScxAddr ||
    addr == LyAddr || addr == LycAddr || addr == BgpAddr || addr == Obp0Addr ||
    addr == Obp1Addr || addr == WyAddr || addr == WxAddr || addr == IfAddr || addr == IeAddr
  }

  /** STAT with the coincidence bit set when `equal` holds and cleared otherwise. */
  function WithCoincidence(stat: byte, equal: bool): byte {
    if equal then SetBit(stat, CoincidenceBit) else ClearBit(stat, CoincidenceBit)
  }

  /** The LY setter: LY becomes v and STAT bit 2 records whether v equals LYC. */
  function WithLY(io: IORegs, v: byte): (r: IORegs)
    ensures r == io.(ly := v, stat := r.stat)
    ensures Bit(r.stat, CoincidenceBit) == if v == io.lyc then 1 else 0
    ensures forall i: nat :: i != CoincidenceBit ==> Bit(r.stat, i) == Bit(io.stat, i)
  {
    io.(ly := v, stat := WithCoincidence(io.stat, v == io.lyc))
  }

  /** The LYC setter: LYC becomes v and STAT bit 2 records whether v equals LY. */
  function WithLYC(io: IORegs, v: byte): (r: IORegs)
    ensures r == io.(lyc := v, stat := r.stat)
    ensures Bit(r.stat, CoincidenceBit) == if v == io.ly then 1 else 0
    ensures forall i: nat :: i != CoincidenceBit ==> Bit(r.stat, i) == Bit(io.stat, i)
  {
    io.(lyc := v, stat := WithCoincidence(io.stat, v == io.ly))
  }

  /** STAT after either setter as the source writes it. LY and LYC have
      setters but no getters and no storage, so `this.LY` and `this.LYC`
      read `undefined`, the comparison never holds and the setter only ever
      clears bit 2. WithLY and WithLYC store the registers instead. */
  function StatAfterSetterAsWritten(stat: byte): (r: byte)
    ensures Bit(r, CoincidenceBit) == 0
    ensures forall i: nat :: i != CoincidenceBit ==> Bit(r, i) == Bit(stat, i)
  {
    WithCoincidence(stat, false)
  }

  /** As written, writing LY to equal LYC leaves the coincidence flag clear,
      where the setter over stored registers raises it. */
  lemma CoincidenceLostAsWritten(io: IORegs)
    ensures Bit(StatAfterSetterAsWritten(io.stat), CoincidenceBit) == 0
    ensures Bit(WithLY(io, io.lyc).stat, CoincidenceBit) == 1
    ensures Bit(WithLYC(io, io.ly).stat, CoincidenceBit) == 1
  { }

  /** readByte: an I/O address yields its register, any other address its byte. */
  function Read(m: MemState, addr: word): (r: byte)
    ensures !IsIORegister(addr) ==> r == m.ram[addr]
  {
    if addr == LcdcAddr then m.io.lcdc
    else if addr == StatAddr then m.io.stat
    else if addr == ScyAddr then m.io.scy
    else if addr == ScxAddr then m.io.scx
    else if addr == LyAddr then m.io.ly
    else if addr == LycAddr then m.io.lyc
    else if addr == BgpAddr then m.io.bgp
    else if addr == Obp0Addr then m.io.obp0
    else if addr == Obp1Addr then m.io.obp1
    else if addr == WyAddr then m.io.wy
    else if addr == WxAddr then m.io.wx
    else if addr == IfAddr then m.io.iflag
    else if addr == IeAddr then m.io.ie
    else m.ram[addr]
  }

  /** writeByte: an I/O address sets its register (LY and LYC through their
      setters), the serial address is ignored, any other address stores v. */
  function Write(m: MemState, addr: word, v: byte): (r: MemState)
    ensures !IsIORegister(addr) ==> r.io == m.io
  {
    if addr == LcdcAddr then m.(io := m.io.(lcdc := v))
    else if addr == StatAddr then m.(io := m.io.(stat := v))
    else if addr == ScyAddr then m.(io := m.io.(scy := v))
    else if addr == ScxAddr then m.(io := m.io.(scx := v))
    else if addr == LyAddr then m.(io := WithLY(m.io, v))
    else if addr == LycAddr then m.(io := WithLYC(m.io, v))
    else if addr == BgpAddr then m.(io := m.io.(bgp := v))
    else if addr == Obp0Addr then m.(io := m.io.(obp0 := v))
    else if addr == Obp1Addr then m.(io := m.io.(obp1 := v))
    else if addr == WyAddr then m.(io := m.io.(wy := v))
    else if addr == WxAddr then m.(io := m.io.(wx := v))
    else if addr == IfAddr then m.(io := m.io.(iflag := v))
    else if addr == IeAddr then m.(io := m.io.(ie := v))
    else if addr == SerialAddr then m
    else m.(ram := m.ram[addr := v])
  }

  /** The field initialisers of Memory, before the constructor body runs.
      LY and LYC have no initialiser in the source; the model starts them at 0. */
  function Initial(): MemState {
    MemState(IORegs(0x91, 0x81, 0, 0, 0, 0, 0xFC, 0, 0, 0, 0, 0, 0), seq(0x1_0000, _ => 0))
  }

  /** The power-on state: the initialisers followed by `LY = 0x91; LYC = 0x00`.
      Of the initialised state only LY changes: both setter calls clear STAT
      bit 2, which is already clear, and LYC is written with the 0 it holds. */
  function PowerOn(): (r: MemState)
    ensures r.ram == Initial().ram && r.io == Initial().io.(ly := 0x91)
  {
    ClearingClearBitOfPowerOnStat();
    var m := Initial();
    m.(io := WithLYC(WithLY(m.io, 0x91), 0x00))
  }

  // ---------------------------------------------------------------------
  // Properties of the address space

  lemma PowerOnDefaults()
    ensures PowerOn().io == IORegs(0x91, 0x81, 0, 0, 0x91, 0, 0xFC, 0, 0, 0, 0, 0, 0)
    ensures Bit(PowerOn().io.stat, CoincidenceBit) == 0
  {
    assert PowerOn().io.stat == ClearBit(ClearBit(0x81, CoincidenceBit), CoincidenceBit);
    ClearingClearBitOfPowerOnStat();
  }

  /** Both setter calls of the constructor clear STAT bit 2, which 0x81 has clear. */
  lemma ClearingClearBitOfPowerOnStat()
    ensures ClearBit(ClearBit(0x81, CoincidenceBit), CoincidenceBit) == 0x81
  {
    var s2 := ClearBit(ClearBit(0x81, CoincidenceBit), CoincidenceBit);
    forall i: nat ensures Bit(s2, i) == Bit(0x81, i) {
      if i == CoincidenceBit {
        assert Bit(0x81, 2) == Bit(0x20, 0);
      }
    }
    BitsEqual(s2, 0x81);
  }

  /** At power-on every byte of the backing store is zero. */
  lemma PowerOnRamZero(addr: word)
    requires !IsIORegister(addr)
    ensures Read(PowerOn(), addr) == 0
  {
  }

  /** Read-after-write holds at every address except the serial port. */
  lemma ReadAfterWrite(m: MemState, addr: word, v: byte)
    requires addr != SerialAddr
    ensures Read(Write(m, addr, v), addr) == v
  {
  }

  /** A write to the serial address changes no state at all. */
  lemma SerialWriteIgnored(m: MemState, v: byte)
    ensures Write(m, SerialAddr, v) == m
  {
  }

  /** A write to an I/O register never touches the backing store; a write
      anywhere else (except the serial port) changes only that byte. */
  lemma WriteTargets(m: MemState, addr: word, v: byte)
    ensures IsIORegister(addr) ==> Write(m, addr, v).ram == m.ram
    ensures !IsIORegister(addr) && addr != SerialAddr ==>
      Write(m, addr, v) == MemState(m.io, m.ram[addr := v])
  {
  }

  /** Writing LY or LYC sets STAT bit 2 exactly when the two become equal and
      leaves every other STAT bit as it was. */
  lemma CoincidenceOnWrite(m: MemState, addr: word, v: byte)
    requires addr == LyAddr || addr == LycAddr
    ensures var other := if addr == LyAddr then m.io.lyc else m.io.ly;
      Bit(Write(m, addr, v).io.stat, CoincidenceBit) == if v == other then 1 else 0
    ensures forall i: nat :: i != CoincidenceBit ==>
      Bit(Write(m, addr, v).io.stat, i) == Bit(m.io.stat, i)
  {
  }

  /** Apart from STAT bit 2 after an LY or LYC write, a write at one address
      changes what no other address reads. */
  lemma WriteFrame(m: MemState, addr: word, b: word, v: byte)
    requires b != addr
    ensures !(b == StatAddr && (addr == LyAddr || addr == LycAddr)) ==>
      Read(Write(m, addr, v), b) == Read(m, b)
    ensures forall i: nat :: i != CoincidenceBit ==>
      Bit(Read(Write(m, addr, v), b), i) == Bit(Read(m, b), i)
  {
  }

  // ---------------------------------------------------------------------
  // The Memory object

  class Memory {
    const data: array<byte>

    var LCDC: byte
    var STAT: byte
    var SCY: byte
    var SCX: byte
    var LY: byte
    var LYC: byte
    var BGP: byte
    var OBP0: byte
    var OBP1: byte
    var WY: byte
    var WX: byte
    var IF: byte
    var IE: byte

    predicate Valid() {
      data.Length == 0x1_0000
    }

    function IO(): IORegs
      reads this
    {
      IORegs(LCDC, STAT, SCY, SCX, LY, LYC, BGP, OBP0, OBP1, WY, WX, IF, IE)
    }

    function Abs(): MemState
      reads this, data
      requires Valid()
    {
      MemState(IO(), data[..])
    }

    constructor()
      ensures Valid() && fresh(data)
      ensures Abs() == PowerOn()
    {
      data := new byte[0x1_0000](_ => 0);
      LCDC, STAT, SCY, SCX := 0x91, 0x81, 0, 0;
      LY, LYC := 0, 0;
      BGP, OBP0, OBP1, WY, WX, IF, IE := 0xFC, 0, 0, 0, 0, 0, 0;
      new;
      assert data[..] == Initial().ram;
      SetLY(0x91);
      SetLYC(0x00);
    }

    /** The LY setter. */
    method SetLY(v: byte)
      modifies this
      ensures IO() == WithLY(old(IO()), v)
    {
      LY := v;
      STAT := WithCoincidence(STAT, v == LYC);
    }

    /** The LYC setter. */
    method SetLYC(v: byte)
      modifies this
      ensures IO() == WithLYC(old(IO()), v)
    {
      LYC := v;
      STAT := WithCoincidence(STAT, v == LY);
    }

    function ReadByte(addr: word): (r: byte)
      reads this, data
      requires Valid()
      ensures !IsIORegister(addr) ==> r == data[addr]
    {
      Read(Abs(), addr)
    }

    method WriteByte(addr: word, v: byte)
      requires Valid()
      modifies this, data
      ensures Abs() == Write(old(Abs()), addr, v)
    {
      if addr == LcdcAddr { LCDC := v; return; }
      if addr == StatAddr { STAT := v; return; }
      if addr == ScyAddr { SCY := v; return; }
      if addr == ScxAddr { SCX := v; return; }
      if addr == LyAddr { SetLY(v); return; }
      if addr == LycAddr { SetLYC(v); return; }
      if addr == BgpAddr { BGP := v; return; }
      if addr == Obp0Addr { OBP0 := v; return; }
      if addr == Obp1Addr { OBP1 := v; return; }
      if addr == WyAddr { WY := v; return; }
      if addr == WxAddr { WX := v; return; }
      if addr == IfAddr { IF := v; return; }
      if addr == IeAddr { IE := v; return; }
      if addr == SerialAddr {
        // the source prints the byte; nothing is stored
        return;
      }
      data[addr] := v;
    }
  }
}
