// The background pixel pipeline of src/PPU.tsx (fetchTile, generateBG) as
// functions of the address space: which tile-map and tile-data bytes a
// tile uses, how a pixel's two bits pick a palette shade, and where each
// tile lands in the 256 x 256 RGBA background. The PPU object's methods
// fill their buffers in loops and are proved against these functions.
module Background {
  import opened Bits
  import opened MemoryMap

  /** An 8 x 8 RGBA tile and the 256 x 256 RGBA background, in bytes. */
  const TileBytes: nat := 8 * 8 * 4
  const BGBytes: nat := 256 * 256 * 4

  /** The tile-map entry for tile (X, Y): 0x9800 + 32Y + X when mapArea,
      0x9C00 + 32Y + X otherwise. */
  function MapAddr(mapArea: bool, X: nat, Y: nat): nat {
    if mapArea then 0x9800 + (Y * 32 + X) else 0x9C00 + (Y * 32 + X)
  }

  /** The tile index read as a signed byte. */
  function Signed(b: byte): int {
    if b >= 128 then b - 256 else b
  }

  /** The first byte of a tile's data, computed as the source does: sign
      extension with `| 0xff00` when dataArea and bit 7 is set, then
      `(index << 4) & 0xffff` and `(base + index) & 0xffff`. With dataArea
      this is 0x9000 plus 16 times the signed index, inside 0x8800..0x97F0;
      otherwise 0x9C00 plus 16 times the index. */
  function TileDataAddr(dataArea: bool, index: byte): (r: word)
    ensures r == TileBase(dataArea, index)
    ensures dataArea ==> r == 0x9000 + 16 * Signed(index) && 0x8800 <= r <= 0x97F0
    ensures !dataArea ==> r == 0x9C00 + 16 * index
  {
    var ext: nat := if dataArea && TestBit(index, 7) then Or(index, 0xFF00) else index;
    var offset := (ext * 16) % 0x1_0000;
    var r := if dataArea then (0x9000 + offset) % 0x1_0000 else (0x9C00 + offset) % 0x1_0000;
    DataAddrCases(dataArea, index, ext, r);
    r
  }

  lemma DataAddrCases(dataArea: bool, index: byte, ext: nat, r: int)
    requires ext == if dataArea && TestBit(index, 7) then Or(index, 0xFF00) else index
    requires r == if dataArea then (0x9000 + (ext * 16) % 0x1_0000) % 0x1_0000 else (0x9C00 + (ext * 16) % 0x1_0000) % 0x1_0000
    ensures r == TileBase(dataArea, index)
  {
    BitSeven(index);
    if dataArea && index >= 128 {
      HighByteOr(index);
      assert ext == 0xFF00 + index;
      ExtendedCase(index, ext, r);
    } else if dataArea {
      assert ext == index;
      UnextendedOffset(index);
    } else {
      assert ext == index;
      UnextendedOffset(index);
    }
  }

  lemma ExtendedCase(index: byte, ext: nat, r: int)
    requires index >= 128 && ext == 0xFF00 + index
    requires r == (0x9000 + (ext * 16) % 0x1_0000) % 0x1_0000
    ensures r == 0x9000 + 16 * Signed(index)
  {
    ExtendedOffset(index);
  }

  /** The address TileDataAddr arrives at, in closed form. */
  function TileBase(dataArea: bool, index: byte): int {
    if dataArea then 0x9000 + 16 * Signed(index) else 0x9C00 + 16 * index
  }

  lemma HighByteOr(x: byte)
    ensures Or(x, 0xFF00) == 0xFF00 + x
  {
    assert Pow2(8) == 256;
    OrComm(x, 0xFF00);
    OrDisjoint(0xFF, x, 8);
  }

  lemma UnextendedOffset(x: nat)
    requires x < 256
    ensures (0x9000 + (x * 16) % 0x1_0000) % 0x1_0000 == 0x9000 + 16 * x
    ensures (0x9C00 + (x * 16) % 0x1_0000) % 0x1_0000 == 0x9C00 + 16 * x
  {
    assert (x * 16) % 0x1_0000 == x * 16;
    assert (0x9000 + x * 16) % 0x1_0000 == 0x9000 + x * 16;
    assert (0x9C00 + x * 16) % 0x1_0000 == 0x9C00 + x * 16;
  }

  lemma BitSeven(x: byte)
    ensures Bit(x, 7) == x / 128
  {
    var x1 := x / 2;
    var x2 := x1 / 2;
    var x3 := x2 / 2;
    var x4 := x3 / 2;
    var x5 := x4 / 2;
    var x6 := x5 / 2;
    var x7 := x6 / 2;
    assert Bit(x, 7) == Bit(x1, 6);
    assert Bit(x1, 6) == Bit(x2, 5);
    assert Bit(x2, 5) == Bit(x3, 4);
    assert Bit(x3, 4) == Bit(x4, 3);
    assert Bit(x4, 3) == Bit(x5, 2);
    assert Bit(x5, 2) == Bit(x6, 1);
    assert Bit(x6, 1) == Bit(x7, 0);
  }

  lemma ExtendedOffset(x: byte)
    requires x >= 128
    ensures (0x9000 + ((0xFF00 + x) * 16) % 0x1_0000) % 0x1_0000 == 0x9000 + 16 * (x - 256)
  {
    var e := (0xFF00 + x) * 16;
    assert e == 15 * 0x1_0000 + (0xF000 + 16 * x);
    assert e % 0x1_0000 == 0xF000 + 16 * x;
    assert 0x9000 + 0xF000 + 16 * x == 0x1_0000 + (0x8000 + 16 * x);
  }

  /** `(((upper >> x) & 1) << 1) + ((lower >> x) & 1)` */
  function ColorIndex(lower: byte, upper: byte, x: nat): (i: nat)
    ensures i < 4
  {
    2 * Bit(upper, x) + Bit(lower, x)
  }

  /** The two palette bits 2i + 1 and 2i. */
  function Shade(palette: byte, i: nat): (s: nat)
    ensures s < 4
  {
    2 * Bit(palette, 2 * i + 1) + Bit(palette, 2 * i)
  }

  /** White, light grey, dark grey, black. */
  function ShadeValue(s: nat): byte
    requires s < 4
  {
    if s == 0 then 255 else if s == 1 then 170 else if s == 2 then 85 else 0
  }

  /** Byte j of the tile fetched for (X, Y), in row-major RGBA order. The
      buffer starts all zero, so a transparent pixel is zero throughout. */
  function TileByte(m: MemState, dataArea: bool, mapArea: bool, palette: byte, obj: bool,
                    X: nat, Y: nat, j: nat): byte
    requires MapAddr(mapArea, X, Y) <= 0xFFFF && j < TileBytes
  {
    PixelByte(TileColor(m, dataArea, mapArea, X, Y, (j / 4) % 8, j / 32), j % 4, palette, obj)
  }

  /** The colour index of pixel (x, y) of tile (X, Y): bit x of the row
      bytes 2y and 2y + 1 of the tile's data. */
  function TileColor(m: MemState, dataArea: bool, mapArea: bool, X: nat, Y: nat, x: nat, y: nat): (i: nat)
    requires MapAddr(mapArea, X, Y) <= 0xFFFF && y < 8
    ensures i < 4
  {
    var base := TileBase(dataArea, Read(m, MapAddr(mapArea, X, Y)));
    ColorIndex(Read(m, base + 2 * y), Read(m, base + 2 * y + 1), x)
  }

  /** Channel k of a pixel of colour index i: 0 throughout for a transparent
      object pixel (index 0), else alpha 255 and the shade's value in RGB. */
  function PixelByte(i: nat, k: nat, palette: byte, obj: bool): byte
    requires i < 4
  {
    if obj && i == 0 then 0
    else if k == 3 then 255
    else ShadeValue(Shade(palette, i))
  }

  /** Byte j of the background: all white when LCDC bit 0 is clear; else
      the tile under pixel (row, col), with dataArea = LCDC bit 4 clear,
      mapArea = LCDC bit 3 clear and the BGP palette. */
  function BGByte(m: MemState, j: nat): byte
    requires j < BGBytes
  {
    if Bit(m.io.lcdc, 0) == 0 then 255
    else
      var row, col, k := j / 1024, (j / 4) % 256, j % 4;
      TileByte(m, Bit(m.io.lcdc, 4) == 0, Bit(m.io.lcdc, 3) == 0, m.io.bgp, false,
               col / 8, row / 8, ((row % 8) * 8 + col % 8) * 4 + k)
  }

  // ---------------------------------------------------------------------
  // Properties of a tile

  /** Pixel (x, y) of a tile: colour index from bit x of row bytes 2y and
      2y + 1, shade from the palette, RGB all equal to the shade's value
      and alpha 255; only an object pixel of colour index 0 is transparent. */
  lemma TilePixel(m: MemState, dataArea: bool, mapArea: bool, palette: byte, obj: bool,
                  X: nat, Y: nat, x: nat, y: nat, k: nat)
    requires MapAddr(mapArea, X, Y) <= 0xFFFF && x < 8 && y < 8 && k < 4
    ensures PixelOffset(x, y, k) < TileBytes
    ensures TileByte(m, dataArea, mapArea, palette, obj, X, Y, PixelOffset(x, y, k)) ==
      PixelByte(TileColor(m, dataArea, mapArea, X, Y, x, y), k, palette, obj)
  {
    PixelArith(x, y, k);
  }

  /** Channel k of pixel (x, y) is byte ((y << 3) + x) * 4 + k of a tile. */
  function PixelOffset(x: nat, y: nat, k: nat): nat {
    (y * 8 + x) * 4 + k
  }

  lemma PixelArith(x: nat, y: nat, k: nat)
    requires x < 8 && y < 8 && k < 4
    ensures var j := (y * 8 + x) * 4 + k; j < TileBytes && j / 32 == y && (j / 4) % 8 == x && j % 4 == k
  {
    var j := (y * 8 + x) * 4 + k;
    assert j == 32 * y + 4 * x + k;
  }

  /** A background tile pixel is an opaque grey: R = G = B, one of the four
      shade values, and alpha 255. */
  lemma BackgroundTileGrey(m: MemState, dataArea: bool, mapArea: bool, palette: byte,
                           X: nat, Y: nat, x: nat, y: nat)
    requires MapAddr(mapArea, X, Y) <= 0xFFFF && x < 8 && y < 8
    ensures PixelOffset(x, y, 3) < TileBytes
    ensures TileByte(m, dataArea, mapArea, palette, false, X, Y, PixelOffset(x, y, 0)) ==
      TileByte(m, dataArea, mapArea, palette, false, X, Y, PixelOffset(x, y, 1)) ==
      TileByte(m, dataArea, mapArea, palette, false, X, Y, PixelOffset(x, y, 2))
    ensures TileByte(m, dataArea, mapArea, palette, false, X, Y, PixelOffset(x, y, 3)) == 255
    ensures TileByte(m, dataArea, mapArea, palette, false, X, Y, PixelOffset(x, y, 0)) in {0, 85, 170, 255}
  {
    TilePixel(m, dataArea, mapArea, palette, false, X, Y, x, y, 0);
    TilePixel(m, dataArea, mapArea, palette, false, X, Y, x, y, 1);
    TilePixel(m, dataArea, mapArea, palette, false, X, Y, x, y, 2);
    TilePixel(m, dataArea, mapArea, palette, false, X, Y, x, y, 3);
    OpaqueGrey(TileColor(m, dataArea, mapArea, X, Y, x, y), palette);
  }

  /** An opaque pixel's channels: the same shade value thrice, then 255. */
  lemma OpaqueGrey(i: nat, palette: byte)
    requires i < 4
    ensures PixelByte(i, 0, palette, false) == PixelByte(i, 1, palette, false) == PixelByte(i, 2, palette, false)
    ensures PixelByte(i, 3, palette, false) == 255
    ensures PixelByte(i, 0, palette, false) in {0, 85, 170, 255}
  {
  }

  /** Darker shades have smaller channel values, so the mapping is one to one. */
  lemma ShadeValueDecreasing(s: nat, t: nat)
    requires s < t < 4
    ensures ShadeValue(s) > ShadeValue(t)
  {
  }

  // ---------------------------------------------------------------------
  // Properties of the background

  /** With LCDC bit 0 clear every byte of the background is 255. */
  lemma BackgroundOff(m: MemState, j: nat)
    requires j < BGBytes && Bit(m.io.lcdc, 0) == 0
    ensures BGByte(m, j) == 255
  {
  }

  /** Pixel (8Y + y, 8X + x) of the background is pixel (x, y) of tile (X, Y),
      fetched with the area bits and palette from LCDC and BGP. */
  lemma TilePlacement(m: MemState, X: nat, Y: nat, x: nat, y: nat, k: nat)
    requires X < 32 && Y < 32 && x < 8 && y < 8 && k < 4 && Bit(m.io.lcdc, 0) == 1
    ensures ((Y * 8 + y) * 256 + (X * 8 + x)) * 4 + k < BGBytes
    ensures BGByte(m, ((Y * 8 + y) * 256 + (X * 8 + x)) * 4 + k) ==
      TileByte(m, Bit(m.io.lcdc, 4) == 0, Bit(m.io.lcdc, 3) == 0, m.io.bgp, false, X, Y, (y * 8 + x) * 4 + k)
  {
    PlacementArith(X, Y, x, y, k);
  }

  lemma PlacementArith(X: nat, Y: nat, x: nat, y: nat, k: nat)
    requires X < 32 && Y < 32 && x < 8 && y < 8 && k < 4
    ensures var row, col := Y * 8 + y, X * 8 + x; var j := (row * 256 + col) * 4 + k;
      j < BGBytes && j / 1024 == row && (j / 4) % 256 == col && j % 4 == k &&
      row / 8 == Y && row % 8 == y && col / 8 == X && col % 8 == x
  {
    var row, col := Y * 8 + y, X * 8 + x;
    var j := (row * 256 + col) * 4 + k;
    assert j == 1024 * row + 4 * col + k;
    assert j / 4 == 256 * row + col;
  }

  /** Byte j of the background lies in tile (col / 8, row / 8), whose map
      entry is in 0x9800..0x9FFF. */
  lemma BackgroundArith(j: nat)
    requires j < BGBytes
    ensures var row, col, k := j / 1024, (j / 4) % 256, j % 4;
      row < 256 && col < 256 && row / 8 < 32 && col / 8 < 32 && ((row % 8) * 8 + col % 8) * 4 + k < TileBytes
  {
  }

  lemma MapAddrBound(mapArea: bool, X: nat, Y: nat)
    requires X < 32 && Y < 32
    ensures 0x9800 <= MapAddr(mapArea, X, Y) < 0xA000
  {
  }

  /** Two address spaces that agree on 0x8800..0xABFF agree on every read there. */
  lemma VramRead(m1: MemState, m2: MemState, a: nat)
    requires m1.ram[0x8800..0xAC00] == m2.ram[0x8800..0xAC00]
    requires 0x8800 <= a < 0xAC00
    ensures Read(m1, a) == Read(m2, a)
  {
    assert m1.ram[a] == m1.ram[0x8800..0xAC00][a - 0x8800];
  }

  /** A tile whose map entry lies in 0x9800..0x9FFF depends only on those bytes. */
  lemma TileReadsVram(m1: MemState, m2: MemState, dataArea: bool, mapArea: bool, palette: byte,
                      obj: bool, X: nat, Y: nat, j: nat)
    requires m1.ram[0x8800..0xAC00] == m2.ram[0x8800..0xAC00]
    requires 0x9800 <= MapAddr(mapArea, X, Y) < 0xA000 && j < TileBytes
    ensures TileByte(m1, dataArea, mapArea, palette, obj, X, Y, j) ==
            TileByte(m2, dataArea, mapArea, palette, obj, X, Y, j)
  {
    VramRead(m1, m2, MapAddr(mapArea, X, Y));
    var base := TileBase(dataArea, Read(m1, MapAddr(mapArea, X, Y)));
    assert base <= 0xABF0;
    RowBound(j);
    VramRead(m1, m2, base + 2 * (j / 32));
    VramRead(m1, m2, base + 2 * (j / 32) + 1);
  }

  lemma RowBound(j: nat)
    requires j < TileBytes
    ensures j / 32 < 8
  {
  }

  /** The background depends only on LCDC, BGP and the tile-map and
      tile-data bytes 0x8800..0xABFF. */
  lemma BackgroundReadsVram(m1: MemState, m2: MemState, j: nat)
    requires j < BGBytes
    requires m1.io.lcdc == m2.io.lcdc && m1.io.bgp == m2.io.bgp
    requires m1.ram[0x8800..0xAC00] == m2.ram[0x8800..0xAC00]
    ensures BGByte(m1, j) == BGByte(m2, j)
  {
    if Bit(m1.io.lcdc, 0) == 1 {
      var row, col, k := j / 1024, (j / 4) % 256, j % 4;
      BackgroundArith(j);
      var dataArea, mapArea := Bit(m1.io.lcdc, 4) == 0, Bit(m1.io.lcdc, 3) == 0;
      var X, Y, i := col / 8, row / 8, ((row % 8) * 8 + col % 8) * 4 + k;
      MapAddrBound(mapArea, X, Y);
      BGByteIsTileByte(m1, j, X, Y, i);
      BGByteIsTileByte(m2, j, X, Y, i);
      TileReadsVram(m1, m2, dataArea, mapArea, m1.io.bgp, false, X, Y, i);
    }
  }

  /** With the background on, byte j of the background is byte i of tile (X, Y). */
  lemma BGByteIsTileByte(m: MemState, j: nat, X: nat, Y: nat, i: nat)
    requires j < BGBytes && Bit(m.io.lcdc, 0) == 1
    requires X == ((j / 4) % 256) / 8 && Y == (j / 1024) / 8
    requires i == (((j / 1024) % 8) * 8 + ((j / 4) % 256) % 8) * 4 + j % 4
    requires X < 32 && Y < 32 && i < TileBytes && MapAddr(Bit(m.io.lcdc, 3) == 0, X, Y) <= 0xFFFF
    ensures BGByte(m, j) == TileByte(m, Bit(m.io.lcdc, 4) == 0, Bit(m.io.lcdc, 3) == 0, m.io.bgp, false, X, Y, i)
  {
  }
}
