# A verified model of the gbemu-ts Game Boy core

This project models the three sequential pieces of the gbemu-ts Game Boy
(DMG) emulator core in Dafny and proves properties of them:

- **Address space** (`src/Memory.tsx`, module `MemoryMap`). A 64 KB byte
  store with thirteen I/O registers in front of it: LCDC, STAT, SCY, SCX,
  LY, LYC, BGP, OBP0, OBP1, WY, WX, IF and IE. Writes to the serial-data
  port 0xFF01 are dropped. Writing LY or LYC recomputes the coincidence
  bit, bit 2 of STAT.
- **CPU** (`src/CPU.tsx`). It has four modules:
  - `RegisterFile`: the `Registers` class.
  - `Alu`: the helpers `add8` to `or8`.
  - `Opcodes`: `createOpcodeTable`.
  - `Cpu`: the handlers and the `CPU` class with `fetch`/`tick`.
- **PPU** (`src/PPU.tsx`). It has two modules:
  - `Background`: the pixel functions behind `fetchTile` and `generateBG`.
  - `Ppu`: the mode machine of `tick`, and the `PPU` class.

Each class whose fields the source updates in place is a Dafny `class`.
Each such class also has a pure value beside it:

| class | pure value |
|---|---|
| `Memory` | `MemState` |
| `Registers` | `RegFile` |
| `CPU` | `Machine` / `CpuState` |
| `PPU` | `PpuState` |

Every method ensures that it changes its object exactly as a pure function
changes that value (`State() == PpuTick(old(State()))`). The properties
are then proved as lemmas about the pure functions.

**Bitwise operators.** The source's JavaScript bit operations are written
out on integers in `Bits`:

- `& (2^k - 1)` is `% 2^k`;
- `>> n` is `/ 2^n`;
- `<< n` is `* 2^n`;
- `&`, `|` and `^` are the recursive functions `And`, `Or` and `Xor`.

**Opcode table.** The handler closures become a `MicroOp` datatype, which
`Cpu.Exec` interprets. `Opcodes.Decode` reads an opcode's bit fields and
is a reference definition of the table, independent of the source's
loops. `CreateOpcodeTable` fills an array in the source's own loops and is
proved to agree with `Decode` in every slot.

**Timing.** `TimingTick` is `tick()` cut down to LCDC, LY, the mode and
the counter. A refinement lemma proves it an abstraction of the full PPU,
and the line and frame results are proved on it.

### Where the model follows the code rather than the hardware

- **16-bit immediates.** They are composed as `(upper << 3) + lower`, as
  the code at `src/CPU.tsx:326`, `332`, `378` and `386` does. This is
  `Cpu.ComposeImm16`, and `Cpu.ComposeImm16Deviation` proves it agrees
  with `(upper << 8) | lower` only when `upper` is 0.
- **Frame length.** VBLANK walks LY from 144 up to 154 before resetting,
  which makes it eleven lines. A frame is therefore 155 × 456 = 70680
  ticks, not 154 × 456 = 70224 (`Ppu.FrameTiming`).
- **PUSH/POP.** They always use B and C, whatever pair the opcode names.
- **SBC carry-in.** `sbc8` takes 0xFF rather than 1 as its carry-in.
- **Stores of SP.** `LD (nn),SP` writes both bytes of SP to the same
  address.
- **Tile data.** The unsigned tile-data base is 0x9C00.
- **Pixel bits.** Pixel x of a tile row uses bit x of the row bytes, not
  bit 7 − x.

**One exception: LY and LYC.** The source declares both as setters only, so
every read gives `undefined`. The model stores both registers. The
Findings section records the as-written behaviour beside it.

## Model

| member | source | states |
|---|---|---|
| Bits.TestBit | src/CPU.tsx:101-103 | `(x & (1 << n)) !== 0` holds exactly when bit n of x is 1 |
| Bits.SetBit | src/CPU.tsx:105-111 | `x \| (1 << n)` sets bit n and keeps every other bit |
| Bits.ClearBit | src/CPU.tsx:105-111 | `x & (0xff - (1 << n))` clears bit n and keeps every other bit |
| MemoryMap.WithLY | src/Memory.tsx:34-41 | the LY setter: LY becomes v; STAT bit 2 is 1 exactly when v equals LYC; every other STAT bit and every other register is kept |
| MemoryMap.WithLYC | src/Memory.tsx:42-49 | the LYC setter: LYC becomes v; STAT bit 2 is 1 exactly when v equals LY; every other STAT bit and every other register is kept |
| MemoryMap.Read | src/Memory.tsx:64-81 | readByte: each of the thirteen I/O addresses yields its register; any other address yields its byte of the backing store |
| MemoryMap.Write | src/Memory.tsx:83-145 | writeByte: a write outside the thirteen I/O registers never changes a register; the lemmas below state the rest of its behaviour |
| MemoryMap.PowerOn | src/Memory.tsx:59-62 | the power-on state differs from the initialised fields only in LY = 0x91; the backing store is as initialised |
| MemoryMap.PowerOnDefaults | src/Memory.tsx:30-62 | after the constructor: LCDC 0x91, STAT 0x81, BGP 0xFC, LY 0x91, LYC 0, every other register 0, and STAT bit 2 clear |
| MemoryMap.ClearingClearBitOfPowerOnStat | src/Memory.tsx:59-62 | both setter calls in the constructor clear STAT bit 2, which leaves STAT at 0x81 |
| MemoryMap.PowerOnRamZero | src/Memory.tsx:26 | at power-on every address other than an I/O register reads 0 |
| MemoryMap.ReadAfterWrite | src/Memory.tsx:64-145 | readByte(a) after writeByte(a, v) gives v at every address except 0xFF01 |
| MemoryMap.SerialWriteIgnored | src/Memory.tsx:138-142 | a write to 0xFF01 changes no state at all |
| MemoryMap.WriteTargets | src/Memory.tsx:83-145 | a write to an I/O register leaves the byte store unchanged; a write anywhere else (not 0xFF01) changes only that byte |
| MemoryMap.CoincidenceOnWrite | src/Memory.tsx:34-49 | writing LY (or LYC) sets STAT bit 2 exactly when v equals LYC (or LY), and keeps every other STAT bit |
| MemoryMap.WriteFrame | src/Memory.tsx:83-145 | a write at a changes what no other address b reads, except STAT bit 2 after an LY or LYC write |
| MemoryMap.StatAfterSetterAsWritten | src/Memory.tsx:34-49 | the setters as written: comparing against a register that reads `undefined` never succeeds, so STAT bit 2 is always cleared and every other bit kept |
| MemoryMap.CoincidenceLostAsWritten | src/Memory.tsx:34-49 | when LY equals LYC the setters as written leave STAT bit 2 clear, while setters over stored registers raise it |
| MemoryMap.Memory.constructor | src/Memory.tsx:25-62 | the new object holds the power-on state |
| MemoryMap.Memory.SetLY | src/Memory.tsx:34-41 | the registers become WithLY of the old registers |
| MemoryMap.Memory.SetLYC | src/Memory.tsx:42-49 | the registers become WithLYC of the old registers |
| MemoryMap.Memory.ReadByte | src/Memory.tsx:64-81 | a plain address reads its byte of the data array; in general the read is Read of the object's abstract state |
| MemoryMap.Memory.WriteByte | src/Memory.tsx:83-145 | the object's state becomes Write of the old state, register by register and byte by byte |
| RegisterFile.Combine | src/CPU.tsx:54-56 | `(hi << 8) \| lo` equals hi * 256 + lo |
| RegisterFile.WithFlag | src/CPU.tsx:105-111 | after a flag setter, the getter at that bit returns the value set and every other bit of F is kept |
| RegisterFile.PairRoundTrip | src/CPU.tsx:58-61 | a pair setter stores v / 256 and v % 256, and the pair getter then returns v |
| RegisterFile.SplitCombine | src/CPU.tsx:54-88 | splitting a combined pair again gives back the two bytes |
| RegisterFile.FlagSettersClosedForm | src/CPU.tsx:174-177 | the four flag setters in a row leave Z, N, H and C in bits 7 to 4 of F, with the low nibble of F kept |
| RegisterFile.WithFlagsReadBack | src/CPU.tsx:101-147 | after the four setters each getter returns its value, only F changed, and bits 3 to 0 of F are kept |
| RegisterFile.Registers.constructor | src/CPU.tsx:9-18 | every register starts at 0 |
| RegisterFile.Registers.IncPC | src/CPU.tsx:20-24 | returns the old PC and leaves (PC + 1) & 0xffff |
| RegisterFile.Registers.IncHL | src/CPU.tsx:26-30 | returns the old HL and leaves (HL + 1) & 0xffff in H and L |
| RegisterFile.Registers.DecHL | src/CPU.tsx:32-36 | returns the old HL and leaves (HL - 1) & 0xffff in H and L |
| RegisterFile.Registers.IncSP | src/CPU.tsx:38-42 | returns the old SP and leaves (SP + 1) & 0xffff |
| RegisterFile.Registers.DecSP | src/CPU.tsx:44-48 | returns the old SP and leaves (SP - 1) & 0xffff |
| RegisterFile.Registers.AF | src/CPU.tsx:54-56 | the pair splits back into its halves: its high byte is A and its low byte F |
| RegisterFile.Registers.BC | src/CPU.tsx:63-65 | its high byte is B and its low byte C |
| RegisterFile.Registers.DE | src/CPU.tsx:72-74 | its high byte is D and its low byte E |
| RegisterFile.Registers.HL | src/CPU.tsx:81-83 | its high byte is H and its low byte L |
| RegisterFile.Registers.SetAF | src/CPU.tsx:58-61 | A and F become the high and low bytes of v; nothing else changes; reading AF gives v |
| RegisterFile.Registers.SetBC | src/CPU.tsx:67-70 | B and C become the high and low bytes of v; nothing else changes; reading BC gives v |
| RegisterFile.Registers.SetDE | src/CPU.tsx:76-79 | D and E become the high and low bytes of v; nothing else changes; reading DE gives v |
| RegisterFile.Registers.SetHL | src/CPU.tsx:85-88 | H and L become the high and low bytes of v; nothing else changes; reading HL gives v |
| RegisterFile.Registers.FlagZ | src/CPU.tsx:101-103 | holds exactly when bit 7 of F is 1 |
| RegisterFile.Registers.FlagN | src/CPU.tsx:113-115 | holds exactly when bit 6 of F is 1 |
| RegisterFile.Registers.FlagH | src/CPU.tsx:125-127 | holds exactly when bit 5 of F is 1 |
| RegisterFile.Registers.FlagC | src/CPU.tsx:137-139 | holds exactly when bit 4 of F is 1 |
| RegisterFile.Registers.SetFlagZ | src/CPU.tsx:105-111 | only F changes, by the bit-7 setter, and FlagZ then returns v |
| RegisterFile.Registers.SetFlagN | src/CPU.tsx:117-123 | only F changes, by the bit-6 setter, and FlagN then returns v |
| RegisterFile.Registers.SetFlagH | src/CPU.tsx:129-135 | only F changes, by the bit-5 setter, and FlagH then returns v |
| RegisterFile.Registers.SetFlagC | src/CPU.tsx:141-147 | only F changes, by the bit-4 setter, and FlagC then returns v |
| RegisterFile.Registers.SetFlags | src/CPU.tsx:174-177 | the four setters in the helpers' order leave the closed form in F and change nothing else |
| Alu.Add8 | src/CPU.tsx:172-179 | result plus 256 when C equals x + y; Z exactly when the result is 0; N clear; H exactly when the low nibble wrapped |
| Alu.Adc8 | src/CPU.tsx:190-198 | result plus 256 when C equals x + y + carry; Z exactly when the result is 0; N clear |
| Alu.Sub8 | src/CPU.tsx:181-188 | result equals x - y, plus 256 when C is set; Z exactly when x = y; N set; H exactly when x & 0xf < y & 0xf |
| Alu.Sbc8 | src/CPU.tsx:200-208 | Z exactly when the result is 0; N set |
| Alu.And8 | src/CPU.tsx:210-217 | every result bit is the AND of the operands' bits; Z exactly when the result is 0; N clear, H set, C clear |
| Alu.Xor8 | src/CPU.tsx:219-226 | every result bit is set exactly when the operands' bits differ; Z exactly when the result is 0; N, H and C clear |
| Alu.Or8 | src/CPU.tsx:228-235 | every result bit is the OR of the operands' bits; Z exactly when the result is 0; N, H and C clear |
| Alu.AddCarryIsWrap | src/CPU.tsx:172-179 | add8 sets C exactly when the result wrapped below x |
| Alu.AdcNoCarry | src/CPU.tsx:190-198 | with the carry flag clear adc8 equals add8 |
| Alu.AdcWithCarry | src/CPU.tsx:190-198 | with the carry flag set adc8's result is add8's plus one (mod 256); H exactly when the low nibble wrapped to or below x's; C exactly when the result is at most x |
| Alu.SubUndoesAdd | src/CPU.tsx:181-188 | adding y back to sub8's result gives x, with half-carry and carry equal to sub8's borrows |
| Alu.SbcNoCarry | src/CPU.tsx:200-208 | with the carry flag clear sbc8 equals sub8 |
| Alu.SbcWithCarry | src/CPU.tsx:200-208 | with the carry flag set the 0xFF carry-in gives x - y + 1 (mod 256); H always set; C set unless x = 0xFF and y = 0 |
| Alu.SbcCarryExample | src/CPU.tsx:201-202 | 0x10 - 0x01 with carry gives 0x10 |
| Alu.AddHalfCarryExample | src/CPU.tsx:172-179 | 0x0F + 0x01 is 0x10 with only H set |
| Alu.AddWrapExample | src/CPU.tsx:172-179 | 0xFF + 0x01 is 0 with Z, H and C set |
| Alu.LogicSelf | src/CPU.tsx:210-235 | x ^ x is 0 with Z set and H and C clear; x \| x and x & x give x |
| Alu.ZeroFlag | src/CPU.tsx:172-235 | for every helper, Z says whether the result byte is 0 (the helpers' own Z clauses, gathered through Compute) |
| Alu.AluFlagsReadBack | src/CPU.tsx:172-235 | the helpers' flag assignments change only F, and the four getters then read the assigned flags |
| Alu.RunAdd8 | src/CPU.tsx:172-179 | returns add8's result and assigns its flags, with no other register change |
| Alu.RunAdc8 | src/CPU.tsx:190-198 | returns adc8's result with the carry read from F and assigns its flags, with no other register change |
| Alu.RunSub8 | src/CPU.tsx:181-188 | returns sub8's result and assigns its flags, with no other register change |
| Alu.RunSbc8 | src/CPU.tsx:200-208 | returns sbc8's result with the carry read from F and assigns its flags, with no other register change |
| Alu.RunAnd8 | src/CPU.tsx:210-217 | returns and8's result and assigns its flags, with no other register change |
| Alu.RunXor8 | src/CPU.tsx:219-226 | returns xor8's result and assigns its flags, with no other register change |
| Alu.RunOr8 | src/CPU.tsx:228-235 | returns or8's result and assigns its flags, with no other register change |
| Opcodes.DecodeWellFormed | src/CPU.tsx:237-625 | every entry's opcode field equals its slot, and every cost is a positive multiple of 4 |
| Opcodes.DecodeHoles | src/CPU.tsx:251-254 | slots 0x00, 0x76 (HALT), 0xCB and the AND/XOR/OR/CP immediates 0xE6, 0xEE, 0xF6 and 0xFE are empty |
| Opcodes.LoadBlock | src/CPU.tsx:248-290 | 0x40 + (x << 3) + y is LD with destination x and source y, costing 8 with (HL) on either side and 4 otherwise; 0x76 is empty |
| Opcodes.AluBlock | src/CPU.tsx:427-622 | 0x80 + (k << 3) + x applies ALU operation k to A and operand x, costing 8 for (HL) and 4 otherwise |
| Opcodes.PushPopBlock | src/CPU.tsx:395-421 | 0xC5 + (x << 4) is PUSH of pair x (16 clocks) and 0xC1 + (x << 4) is POP of pair x (12 clocks) |
| Opcodes.EncodeDecode | src/CPU.tsx:237-625 | each entry's micro-op encodes back to the entry's own opcode, so no handler sits in two slots |
| Opcodes.DecodeEncode | src/CPU.tsx:237-625 | each encodable micro-op decodes back to itself |
| Opcodes.CreateOpcodeTable | src/CPU.tsx:237-625 | the table built by the loops equals Decode in all 256 slots |
| Opcodes.FillLoadBlock | src/CPU.tsx:248-290 | after the LD r, r' loops exactly the 63 load-block slots hold their Decode entry |
| Opcodes.FillLoadImm8 | src/CPU.tsx:291-310 | the LD r, n loop adds exactly the eight 0x06 + (x << 3) entries |
| Opcodes.FillLoadIndirect | src/CPU.tsx:311-364 | adds exactly the fourteen loads between A and memory |
| Opcodes.FillIndirectBCDE | src/CPU.tsx:311-322 | adds LD A,(BC), LD A,(DE), LD (BC),A and LD (DE),A |
| Opcodes.FillIndirectHigh | src/CPU.tsx:323-352 | adds the (nn) and high-page loads and stores |
| Opcodes.FillIndirectHL | src/CPU.tsx:353-364 | adds the (HL-) and (HL+) loads and stores |
| Opcodes.FillLoad16 | src/CPU.tsx:368-382 | the LD rr, nn loop adds exactly 0x01 + (x << 4) |
| Opcodes.FillLoadSP | src/CPU.tsx:383-394 | adds LD (nn),SP at 0x08 and LD SP,HL at 0xF9 |
| Opcodes.FillPush | src/CPU.tsx:395-408 | the PUSH loop adds exactly 0xC5 + (x << 4) |
| Opcodes.FillPop | src/CPU.tsx:409-421 | the POP loop adds exactly 0xC1 + (x << 4) |
| Opcodes.FillAluRow | src/CPU.tsx:427-622 | one ALU loop adds exactly its eight slots 0x80 + (k << 3) + x |
| Opcodes.FillAluImm | src/CPU.tsx:449-453 | adds the immediate form 0xC6 + (k << 3) after rows ADD, ADC, SUB and SBC |
| Cpu.ComposeImm16 | src/CPU.tsx:326 | the one definition of the 16-bit immediate, `upper << 3` plus lower, used by every handler that reads a word; ComposeImm16Deviation states where it differs from upper·256 + lower |
| Cpu.Exec | src/CPU.tsx:237-625 | what each handler closure does to the registers and memory, by micro-op; PcAdvance, LdCopies, PushThenPop, CpIsSubWithoutResult and AluUpdatesAAndF state its effects |
| Cpu.Imm16Advances | src/CPU.tsx:376-377 | reading an immediate word moves PC two bytes on (mod 65536) and changes nothing else |
| Cpu.ComposeImm16Deviation | src/CPU.tsx:378 | `(upper << 3) + lower` equals `(upper << 8) \| lower` exactly when upper is 0, and never exceeds 0x8F7 |
| Cpu.PcAdvance | src/CPU.tsx:237-625 | every handler moves PC by exactly the number of immediate bytes it reads |
| Cpu.AddressAdvance | src/CPU.tsx:311-364 | computing an indirect address moves PC over its immediate bytes (1 for (n), 2 for (nn), else 0) |
| Cpu.LdCopies | src/CPU.tsx:248-290 | after LD d, s the destination holds what the source held (unless (HL) is the serial port), and PC has not moved |
| Cpu.LdImmLoads | src/CPU.tsx:291-310 | after LD d, n the destination holds the byte at PC |
| Cpu.PushThenPop | src/CPU.tsx:395-421 | PUSH of any pair writes B at SP-1 and C at SP-2 and lowers SP by 2; a POP of any pair right after it restores every register, when both stack bytes are plain storage |
| Cpu.CpIsSubWithoutResult | src/CPU.tsx:601-622 | CP sets exactly SUB's flags and keeps A and memory |
| Cpu.AluUpdatesAAndF | src/CPU.tsx:427-600 | an ALU handler other than CP puts the helper's result in A and its flags in F, and changes no other register and no memory |
| Cpu.StoreSPKeepsHighByte | src/CPU.tsx:383-391 | after LD (nn),SP the address holds only SP's high byte |
| Cpu.StoreHLMoves | src/CPU.tsx:353-364 | LD (HL+),A and LD (HL-),A store A at HL and move HL one up or one down (mod 65536) |
| Cpu.FetchSpec | src/CPU.tsx:642-647 | fetch as a value: the opcode at PC, PC moved on by one, and the entry's cost and handler, or IllegalOpcode for an empty slot; FetchReadsPC states it |
| Cpu.TickSpec | src/CPU.tsx:649-655 | tick as a value: the counter drops by one, and at zero or below the pending handler runs and a fetch follows; CountDown, CompletesOnTime and InstructionCycle state it |
| Cpu.FetchReadsPC | src/CPU.tsx:642-647 | fetch advances PC by exactly one and fails exactly on an empty slot; otherwise it loads the entry's cost and handler and nothing else changes |
| Cpu.CountDown | src/CPU.tsx:649-655 | j ticks with j below the counter only lower the counter by j |
| Cpu.CompletesOnTime | src/CPU.tsx:649-655 | from a counter of k, the k-th tick runs the pending handler and then fetches |
| Cpu.InstructionCycle | src/CPU.tsx:642-655 | after a fetch of an entry costing k, k ticks run its handler exactly once and then fetch the next opcode |
| Cpu.FirstTickFetches | src/CPU.tsx:634-655 | from the constructor's state, the first tick runs nothing and fetches at once |
| Cpu.CPU.constructor | src/CPU.tsx:634-640 | zeroed registers, counter 0, empty handler, and a table equal to Decode |
| Cpu.CPU.WriteOp | src/CPU.tsx:285 | the machine becomes WriteOperand of the old machine: the register named by the operand receives v, and (HL) is written through the memory writeByte |
| Cpu.CPU.ReadImm8 | src/CPU.tsx:295 | the state and n equal NextByte of the old state, so n is the byte at PC and PC advances by one mod 65536 |
| Cpu.CPU.ReadImm16 | src/CPU.tsx:376-378 | two immediate bytes, lower first, composed as `(upper << 3) + lower` |
| Cpu.CPU.AddressOf | src/CPU.tsx:311-364 | the address of each indirect form, with its effect on HL and PC |
| Cpu.CPU.RunAlu | src/CPU.tsx:427-622 | A and F change as the row's helper says; CP keeps A |
| Cpu.CPU.Execute | src/CPU.tsx:237-625 | running a handler changes registers and memory exactly as Exec says |
| Cpu.CPU.ExecuteLoad8 | src/CPU.tsx:248-364 | the 8-bit load handlers change the state exactly as Exec says |
| Cpu.CPU.ExecuteLoad16 | src/CPU.tsx:368-394 | the 16-bit load handlers change the state exactly as Exec says |
| Cpu.CPU.ExecuteStack | src/CPU.tsx:395-421 | PUSH and POP change the state exactly as Exec says |
| Cpu.CPU.ExecuteAlu | src/CPU.tsx:427-622 | the ALU handlers change the state exactly as Exec says |
| Cpu.CPU.Fetch | src/CPU.tsx:642-647 | the object changes as FetchSpec says, and an empty slot is reported |
| Cpu.CPU.Tick | src/CPU.tsx:649-655 | the object changes as TickSpec says |
| Background.TileByte | src/PPU.tsx:27-87 | byte j of the RGBA tile buffer that fetchTile fills; TilePixel and TileReadsVram state it |
| Background.BGByte | src/PPU.tsx:89-121 | byte j of the 256×256 background image generateBG returns; BackgroundOff, TilePlacement and BackgroundReadsVram state it |
| Background.TileDataAddr | src/PPU.tsx:37-42 | the source's sign extension and masking give 0x9000 + 16 × signed index (within 0x8800..0x97F0) with dataArea, and 0x9C00 + 16 × index otherwise |
| Background.MapAddrBound | src/PPU.tsx:36 | every map entry of tiles X, Y < 32 lies in 0x9800..0x9FFF |
| Background.TilePixel | src/PPU.tsx:43-85 | channel k of pixel (x, y) is at ((y << 3) + x) * 4 + k; its colour index is from bit x of row bytes 2y and 2y + 1 and its shade from the palette |
| Background.BackgroundTileGrey | src/PPU.tsx:53-83 | a background pixel is opaque grey: R = G = B in {0, 85, 170, 255} and alpha 255 |
| Background.OpaqueGrey | src/PPU.tsx:56-83 | an opaque pixel's channels are one shade value three times, then 255 |
| Background.ShadeValueDecreasing | src/PPU.tsx:56-83 | darker shades have smaller channel values, so the four shades are distinct |
| Background.BackgroundOff | src/PPU.tsx:101-103 | with LCDC bit 0 clear every byte of the background is 255 |
| Background.TilePlacement | src/PPU.tsx:104-119 | pixel (8Y + y, 8X + x) of the background is pixel (x, y) of tile (X, Y), with the areas from LCDC bits 4 and 3 and the BGP palette |
| Background.TileReadsVram | src/PPU.tsx:27-87 | a tile depends only on the bytes 0x8800..0xABFF |
| Background.BackgroundReadsVram | src/PPU.tsx:89-121 | the background depends only on LCDC, BGP and the bytes 0x8800..0xABFF |
| Ppu.SetMode | src/PPU.tsx:133 | `STAT - mode + next` sets the mode bits to next and keeps bits 2 and up |
| Ppu.SetterKeepsMode | src/PPU.tsx:147 | the LY setter keeps the mode bits |
| Ppu.EnabledIsBit7 | src/PPU.tsx:124 | `LCDC >> 7 !== 0` is bit 7 of LCDC |
| Ppu.Transition | src/PPU.tsx:129-182 | the mode transition when the counter reaches 0, over stored LY and LYC; TransitionEdges, TransitionLines, TransitionFrame and TransitionInterrupts state it |
| Ppu.HBlankEnd | src/PPU.tsx:145-162 | leaving HBLANK: LY + 1 through the setter, then VBLANK at line 144 or OAM scan; TransitionEdges and TransitionLines state it |
| Ppu.VBlankEnd | src/PPU.tsx:163-181 | the end of a VBLANK line: LY + 1, or line 0 and OAM scan after 154, then the LY == LYC interrupt; TransitionEdges, TransitionLines and TransitionInterrupts state it |
| Ppu.PpuTick | src/PPU.tsx:123-183 | tick as a value: no change with the LCD off, else the counter drops and a transition happens at exactly 0; TickWhenOff, TickWhenOn and TickRefines state it |
| Ppu.TickWhenOff | src/PPU.tsx:123-127 | with LCDC bit 7 clear a tick changes nothing, not even the counter |
| Ppu.TickWhenOn | src/PPU.tsx:128-129 | with the LCD on, a transition happens exactly when the counter goes from 1 to 0; any other tick only lowers it |
| Ppu.TransitionEdges | src/PPU.tsx:130-176 | mode edges and reloads: 2 to 3 (172), 3 to 0 (204), 0 to 1 (456) when LY becomes 144, else 0 to 2 (80), 1 to 2 (80) from LY 154, else 1 to 1 (456) |
| Ppu.TransitionLines | src/PPU.tsx:145-176 | leaving HBLANK and each VBLANK step add one to LY, VBLANK at 154 resets it to 0, and modes 2 and 3 keep it |
| Ppu.TransitionFrame | src/PPU.tsx:130-181 | a transition changes only STAT, LY and IF; STAT bits 3 and up are kept; bit 2 is kept out of modes 2 and 3, and after HBLANK or VBLANK says whether the new LY equals LYC |
| Ppu.TransitionInterrupts | src/PPU.tsx:141-180 | IF is only OR-ed: bit 0 on entering VBLANK with STAT bit 4; bit 1 on entering HBLANK with STAT bit 3, on entering OAM scan with bit 5, and after a VBLANK step with bits 2 and 6; no other IF bit changes |
| Ppu.RunWhenOff | src/PPU.tsx:123-127 | with the LCD off the PPU stays frozen for any number of ticks |
| Ppu.CountDown | src/PPU.tsx:128-129 | with the LCD on, j ticks short of the counter only count it down |
| Ppu.Segment | src/PPU.tsx:128-129 | with the LCD on, a counter of k fires its transition after exactly k ticks |
| Ppu.NeverFires | src/PPU.tsx:128-129 | a counter at or below 0 never fires: the PPU counts down forever |
| Ppu.PowerOnFrozen | src/PPU.tsx:12 | the power-on PPU (counter 0, LCD on) never changes mode |
| Ppu.TransitionTiming | src/PPU.tsx:130-176 | a transition follows the edge table, whatever the other registers hold |
| Ppu.TickRefines | src/PPU.tsx:123-183 | the timing after a tick is the timing skeleton's tick of the timing before it |
| Ppu.RunRefines | src/PPU.tsx:123-183 | the same for any number of ticks |
| Ppu.VisibleLine | src/PPU.tsx:131-162 | from the start of OAM scan, 80 + 172 + 204 = 456 ticks later LY is one higher and the next line (or VBLANK at 144) has begun |
| Ppu.VBlankLine | src/PPU.tsx:163-176 | 456 ticks of VBLANK take LY one line on, or from 154 to OAM scan on line 0 |
| Ppu.VisibleLines | src/PPU.tsx:145-162 | n visible lines take 456 n ticks and add n to LY |
| Ppu.VBlankLines | src/PPU.tsx:163-176 | n VBLANK lines take 456 n ticks and add n to LY while it stays at most 154 |
| Ppu.FrameTiming | src/PPU.tsx:130-181 | 144 visible lines and 11 VBLANK lines (70680 ticks) lead back to OAM scan on line 0 |
| Ppu.Frame | src/PPU.tsx:123-183 | from OAM scan on line 0 with the LCD on, 70680 ticks later LCDC, LY, the mode and the counter are back where they started |
| Ppu.TransitionAsWritten | src/PPU.tsx:129-182 | the transition with LY and LYC reading undefined, so the 144 and 154 tests never hold and the setters only clear STAT bit 2; StepAsWritten and LastLineAsWritten state it |
| Ppu.PpuTickAsWritten | src/PPU.tsx:123-183 | tick as written, using TransitionAsWritten; NeverVBlankAsWritten states what it does over any number of ticks |
| Ppu.NeverVBlankAsWritten | src/PPU.tsx:145-176 | as written, a PPU outside VBLANK never enters it and never requests the VBLANK interrupt, for any number of ticks |
| Ppu.LastLineAsWritten | src/PPU.tsx:145-162 | leaving HBLANK on line 143 enters VBLANK on line 144 in the model, but starts OAM scan as written |
| Ppu.RowPixels | src/PPU.tsx:43-47 | row y of a tile reads row bytes 2y and 2y + 1 of its data |
| Ppu.DrawRow | src/PPU.tsx:46-84 | the inner loop writes the 32 bytes of row y as the tile function gives them and leaves the rest |
| Ppu.CopyTile | src/PPU.tsx:110-117 | the copy loop puts tile (X, Y) at its place in the background and leaves every other byte |
| Ppu.PPU.constructor | src/PPU.tsx:12-16 | the counter starts at 0 |
| Ppu.PPU.Tick | src/PPU.tsx:123-183 | the registers and counter change as PpuTick says |
| Ppu.PPU.Transit | src/PPU.tsx:129-181 | the `clocksToComplete === 0` branch changes the state as Transition says |
| Ppu.PPU.LeaveHBlank | src/PPU.tsx:145-162 | the HBLANK branch changes the state as HBlankEnd says |
| Ppu.PPU.StepVBlank | src/PPU.tsx:163-181 | the VBLANK branch changes the state as VBlankEnd says |
| Ppu.PPU.RestartFrame | src/PPU.tsx:165-172 | after line 154: LY becomes 0 (with the LYC coincidence bit recomputed), the mode becomes OAM scan, 80 clocks, and IF bit 1 is raised exactly when STAT bit 5 is set |
| Ppu.PPU.EnterMode | src/PPU.tsx:167 | `STAT - mode + next` replaces only the two mode bits of STAT; the other I/O registers are unchanged |
| Ppu.PPU.RaiseInterrupt | src/PPU.tsx:178-180 | IF gains bit n exactly when the condition holds; the other I/O registers are unchanged |
| Ppu.PPU.FetchTile | src/PPU.tsx:27-87 | returns a fresh 256-byte buffer equal, byte by byte, to the tile function |
| Ppu.PPU.GenerateBG | src/PPU.tsx:89-121 | returns a fresh 262144-byte buffer equal, byte by byte, to the background function |

## Left out

- `updateCanvas` (`src/PPU.tsx:18-23`) and its call in mode 3. The DOM canvas is not part of this model, so the call is a no-op.
- The `console.log` calls in `src/PPU.tsx` and `src/Memory.tsx` are diagnostics. The serial write is modelled as "no state change".
- `src/App.tsx` (file input and ROM loading) and `src/Emulator.tsx` (a timer driver that never drives the CPU or PPU) are not part of this model.
- Behaviour outside the shown code is not invented:
  - interrupt dispatch, IME, HALT;
  - the 0xCB table, jumps, calls and returns;
  - 16-bit ALU operations, `LD HL,SP+i8` and NOP;
  - sprites and the window layer.
- Mnemonic labels are dropped. The `length` field is carried as data, and nothing is proved about it. JavaScript's `reg[label8[x]]` indexing becomes the `Operand` datatype.
- LY and LYC are stored as bytes, unlike the source; see "## Findings". Before the constructor's setter calls the model starts them at 0. This gives the same power-on STAT as the source's setters.
- Ppu.HBlankEnd and Ppu.VBlankEnd compute `LY + 1` modulo 256, because the stored LY is a byte. The wrap needs LY = 255, which only an external write can produce, never a start from power-on or from line 0.
- Cpu.FetchSpec: fetching an empty slot throws a TypeError in the source, after PC has already moved. The model returns `IllegalOpcode`, with PC advanced and the counter and handler unchanged.
- The browser `ImageData` buffers are modelled as byte arrays, and as sequences in the specification functions (Ppu.TileImage).
- Ppu.PPU.FetchTile requires the tile-map address to be at most 0xFFFF. This holds for every tile `generateBG` asks for; a larger address would read past the source's array.
- Alu.Sbc8: its contract states only Z and N. Its result and its H and C flags are stated by Alu.SbcNoCarry and Alu.SbcWithCarry, and its carry-in by Alu.SbcCarryExample.
- Alu.Adc8: its contract does not state H. Alu.AdcNoCarry and Alu.AdcWithCarry state it.

## Findings

| source | as written | input that shows it | evidently intended | confidence | as-written member | corrected member |
|---|---|---|---|---|---|---|
| src/Memory.tsx:34-49 | `LY` and `LYC` are setters with no getter and no storage. `this.LYC` and `this.LY` read `undefined`, so each setter always clears STAT bit 2 and keeps nothing | LYC = 0, then write 0 to LY: STAT bit 2 stays 0, and reading 0xFF44 gives `undefined` | both registers hold their bytes, and bit 2 is set exactly when they are equal | not executed; high | MemoryMap.CoincidenceLostAsWritten | MemoryMap.CoincidenceOnWrite |
| src/PPU.tsx:146-148 | `this.memory.LY + 1` is NaN and `this.memory.LY === 144` never holds, so HBLANK always goes on to OAM scan | HBLANK on line 143 with the counter at 1: the next tick starts OAM scan instead of VBLANK (Ppu.LastLineAsWritten) | VBLANK from line 144, and a frame of 70680 ticks | not executed; high | Ppu.NeverVBlankAsWritten | Ppu.FrameTiming |
