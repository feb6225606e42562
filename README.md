# CHIP-8 interpreter core, modelled and verified in Dafny

This project models the interpreter class `Chip8` of the Chip8++ emulator
(`Chip8.cxx`, `Chip8.hxx`). The class is a fetch-decode-execute machine with
the following state:

- 4096 bytes of RAM and 6144 bytes of VRAM (64 x 32 pixels, three bytes each);
- sixteen 8-bit registers, with VF as the flag;
- the 16-bit address register I and the 16-bit program counter;
- a 16-entry call stack with an 8-bit stack pointer;
- the delay and sound timers;
- the run flag and the CPU gate (`cpuWait`).

It has two clocks: one that updates the display and counts the timers down
every 16000 µs, and one that lets one instruction through every 2000 µs.

The model has two layers:

- `chip8_spec.dfy` (module `Chip8Spec`): the machine as a value. There is one
  pure function per opcode family (`Op0x0` to `Op0xF`) returning the next
  state and whether the machine halted. The module also holds the dispatch
  table, the fetch, `Tick`, `Reset`, and the run loop over a finite
  sequence of inputs.
- `chip8.dfy` (module `Chip8Machine`): class `Chip8` with the source's fields.
  RAM, VRAM, the registers and the stack are arrays updated in place, and
  the sprite routine keeps the nested loops. Every method is proved to
  perform exactly the transition of its counterpart in `Chip8Spec`, on the
  abstract view `State()`.

The properties of the instruction set are lemmas about the pure layer. They
are in `chip8_properties.dfy`, in `display.dfy` (the framebuffer and sprite
drawing) and in `words.dfy` (8/16/32-bit wrap-around and the bitwise
operators on bytes). Through the method contracts these lemmas hold for the
class as well.

Some source accesses are unchecked. In the model such an access is checked
first, and a bad one halts the machine before anything is written, with
reason `OutOfRange`. These accesses are:

- the fetch at `pc + 1`;
- the sprite bytes at `I..I+N`;
- a sprite pixel past the end of VRAM;
- the FX33 digits at `I+2`;
- the FX55/FX65 block at `0x200 + I + X`.

The quirks of the code are modelled as written, and lemmas exhibit each one:

- a return lands 4 bytes after the call;
- BNNN can jump past RAM;
- the sprite wrap tests `> 64` and `> 32`;
- FX29 uses the whole of VX;
- FX55/FX65 address `0x200 + I`;
- SKPR never skips and SKUP always skips;
- FX0A does not wait.

Common CHIP-8 descriptions differ from this code in two places. The model
follows the code:

- A call followed by a return resumes at P + 4, not P + 2 (`CallThenReturnSkipsOne`).
- FX29 multiplies the whole of VX by 5 rather than its low nibble (`IndexArithmetic`).

## Model

| member | source | states |
|---|---|---|
| Words.Wrap8 | Core.hxx:44 | storing an int into a `uint8` keeps it modulo 256: the difference is a multiple of 256, and bytes are unchanged |
| Words.Wrap16 | Core.hxx:45 | storing into a `uint16` keeps the value modulo 65536, and 16-bit values are unchanged |
| Words.Wrap32 | Chip8.cxx:204-207 | the elapsed time stored into a `uint` keeps it modulo 2^32, and values that fit in 32 bits are unchanged |
| Words.XorInvolution | Chip8.cxx:362-366 | XOR with the same byte twice gives the first byte back |
| Words.AndBounded | Chip8.cxx:456 | a byte masked with `&` is at most the mask and at most the byte |
| Words.AndBitsAtMost | Chip8.cxx:456 | masking never sets a binary digit the mask lacks: `a & b <= b` |
| Words.XorBitsTwice | Chip8.cxx:364 | on the low n binary digits, XOR twice with the same value is the identity |
| Words.Or8 | Chip8.cxx:352-354 | VX OR VY on bytes; its meaning is stated by `OrCovers` |
| Words.And8 | Chip8.cxx:456 | `VX & NN` and `VX & VY` on bytes; its meaning is stated by `AndBounded` |
| Words.Xor8 | Chip8.cxx:362-364 | `VX ^ VY` on bytes; its meaning is stated by `XorInvolution` |
| Words.OrBitsAtLeast | Chip8.cxx:353 | on the low n binary digits, a OR b is at least a and at least b |
| Words.OrCovers | Chip8.cxx:352-354 | the byte VX OR VY is at least VX and at least VY |
| Display.Blank | Chip8.cxx:237 | the cleared framebuffer has 6144 bytes, all zero |
| Display.WrapRow | Chip8.cxx:482-484 | the `> 32` test: a row is reduced by 32 only when strictly above 32, and only once; its effect is stated by `RowPositionUnwrapped`, `RowWraps` and `BottomEdgeLeavesScreen` |
| Display.WrapColumn | Chip8.cxx:489-491 | the `> 64` test: a column is reduced by 64 only when strictly above 64, and only once; its effect is stated by `ColumnPositionUnwrapped`, `ColumnWraps` and `RightEdgeSpillsToNextRow` |
| Display.RowPosition | Chip8.cxx:482-505 | the row coordinate of sprite row r: wrapped at the start of the row, incremented after it; stated by `RowWraps` and `RowPositionUnwrapped` |
| Display.ColumnPosition | Chip8.cxx:486-501 | the column coordinate of sprite column c, restarting from VX on each row; stated by `ColumnWraps` and `ColumnPositionUnwrapped` |
| Display.ColumnWraps | Chip8.cxx:486-501 | the column drawn for sprite column c is VX + c less a whole number of screen widths |
| Display.RowWraps | Chip8.cxx:481-505 | the row drawn for sprite row r is VY + r less a whole number of screen heights |
| Display.PixelOf | Chip8.cxx:494 | the pixel index `yPosition * 64 + xPosition` of a sprite cell; stated by `UnwrappedPlot` and `CellsApart` |
| Display.SpriteBit | Chip8.cxx:493 | whether column c of a sprite row is set; stated by `PixelBit` |
| Display.Lit | Chip8.cxx:494 | a pixel is on when its first byte divided by 255 is 1; its update is stated by `ToggleEffect` |
| Display.Hits | Chip8.cxx:496-498 | a set sprite bit landing on a lit pixel, the VF condition; stated by `CollisionOnDistinctPixels` and `CollisionDetectsHits` |
| Display.Collision | Chip8.cxx:496-498 | VF after the first n pixels drawn one by one; stated by `CollisionOnDistinctPixels` |
| Display.RowCollision | Chip8.cxx:488-502 | VF raised by the first n columns of one row; tied to `Collision` by `RowIsPlots` |
| Display.RowsCollision | Chip8.cxx:481-506 | VF after the first n rows; tied to `Collision` by `SpriteIsPlots` and stated by `CollisionDetectsHits` |
| Display.PixelBit | Chip8.cxx:493 | column c of a sprite row, `(line >> (7 - c)) & 1`, is 0 or 1 |
| Display.Plots | Chip8.cxx:481-502 | the sprite's pixels in drawing order: eight per row, one per column |
| Display.Draw | Chip8.cxx:494-500 | XOR-drawing a sequence of pixels one after another keeps the framebuffer at 6144 bytes |
| Display.Toggle | Chip8.cxx:494-500 | XOR-drawing one pixel keeps the framebuffer at 6144 bytes |
| Display.ToggleEffect | Chip8.cxx:494-500 | drawing a pixel writes its three bytes to (screen XOR bit) * 255, so it is lit exactly when screen and bit differ; no other byte changes |
| Display.DrawRow | Chip8.cxx:486-502 | drawing one sprite row column by column keeps the framebuffer size |
| Display.DrawRows | Chip8.cxx:481-506 | drawing the sprite row by row keeps the framebuffer size |
| Display.PlotLayout | Chip8.cxx:481-502 | the drawing order visits column c of row r as the (8r + c)-th pixel |
| Display.RowIsPlots | Chip8.cxx:488-502 | the inner loop over one row is the in-order drawing of that row's eight pixels, with the same collision flag |
| Display.RowsArePlots | Chip8.cxx:481-506 | the nested loops over the first n rows are the in-order drawing of their 8n pixels, with the same collision flag |
| Display.SpriteIsPlots | Chip8.cxx:479-506 | the whole sprite drawn row by row equals the sprite drawn pixel by pixel, framebuffer and collision flag |
| Display.OnScreenRows | Chip8.cxx:494-500 | every visited pixel inside the framebuffer means every sprite row inside it |
| Display.RowsOnScreen | Chip8.cxx:494-500 | every sprite row inside the framebuffer means every visited pixel inside it |
| Display.PixelLayout | Chip8.hxx:21 | pixel (x, y) occupies bytes 3(64y + x) to 3(64y + x) + 2 of the 6144; distinct pixels use disjoint bytes |
| Display.BlankIsMonochrome | Chip8.cxx:142 | the cleared screen has every pixel all black or all white |
| Display.DrawTouchedPixelsUniform | Chip8.cxx:500 | after drawing, every visited pixel has three equal bytes, 0 or 255, and every unvisited byte is unchanged |
| Display.DrawPreservesMonochrome | Chip8.cxx:500 | drawing keeps every pixel all black or all white |
| Display.DrawPixelwise | Chip8.cxx:496-500 | a pixel is lit after drawing exactly when it was lit XOR the sprite flipped it an odd number of times |
| Display.SameShade | Chip8.cxx:494 | two monochrome framebuffers agreeing on whether a pixel is lit agree on its bytes |
| Display.DrawTwiceRestores | Chip8.cxx:500 | drawing the same on-screen pixels twice restores the framebuffer |
| Display.UnvisitedNotFlipped | Chip8.cxx:500 | a pixel no plot visits is never flipped |
| Display.CollisionOnDistinctPixels | Chip8.cxx:496-498 | when no pixel is visited twice, the collision flag is set exactly when some set bit lands on a lit pixel |
| Display.RowPositionUnwrapped | Chip8.cxx:481-505 | without wrap-around, sprite row r is drawn at row VY + r |
| Display.ColumnPositionUnwrapped | Chip8.cxx:486-501 | without wrap-around, column c is drawn at column VX + c |
| Display.PlotsWithoutWrap | Chip8.cxx:481-506 | a sprite inside the screen visits pixel (VX + c, VY + r) for row r and column c, all on screen, none twice |
| Display.UnwrappedPlot | Chip8.cxx:493-494 | plot 8r + c of such a sprite is bit c of row r at 64(VY + r) + VX + c |
| Display.LitPlotIsLitCell | Chip8.cxx:496 | a set bit on a lit pixel, found by plot index, is found by row and column, and conversely |
| Display.CollisionUnwrapped | Chip8.cxx:479-506 | for a sprite inside the screen, VF is set exactly when some set bit lands on a lit pixel |
| Display.WrappedCellsApart | Chip8.cxx:494 | two positions off the unwrapped ones by whole widths and heights give different pixel indices for different cells of at most 32 rows |
| Display.CellsApart | Chip8.cxx:481-506 | two different cells of a sprite of at most 32 rows are drawn at different pixels, wrapped or not |
| Display.SpriteVisitsDistinct | Chip8.cxx:481-506 | a sprite of at most 32 rows never visits a pixel twice, wherever it is placed |
| Display.CollisionDetectsHits | Chip8.cxx:479-506 | for every sprite of at most 32 rows on the screen, wrapped or not, VF is set exactly when some set bit lands on a pixel that was on |
| Display.RightEdgeSpillsToNextRow | Chip8.cxx:489-490 | the `> 64` test lets column 64 through: a sprite at column 57 draws its last column at column 0 of the next row |
| Display.BottomEdgeLeavesScreen | Chip8.cxx:482-483 | the `> 32` test lets row 32 through: a two-row sprite at row 31 reaches past the framebuffer |
| Chip8Spec.Family | Chip8.cxx:119 | `opCode >> 12` is below 16, so the 16-entry table covers every opcode |
| Chip8Spec.RegX | Chip8.cxx:288 | the X field names one of the 16 registers |
| Chip8Spec.RegY | Chip8.cxx:309 | the Y field names one of the 16 registers |
| Chip8Spec.Nibble | Chip8.cxx:465 | the low nibble N of the opcode; stated by `OpCodeFields` |
| Chip8Spec.Byte | Chip8.cxx:289 | the low byte NN of the opcode; stated by `OpCodeFields` and `FetchedOpCode` |
| Chip8Spec.Address | Chip8.cxx:264 | the low 12 bits NNN of the opcode; stated by `OpCodeFields` |
| Chip8Spec.Advance | Chip8.cxx:258 | `programCounter += k` on a `uint16`, and the instruction ran; stated by the jump, skip and load lemmas |
| Chip8Spec.Halt | Chip8.cxx:188-198 | `Chip8::Halt` without its message: only the run flag is cleared; stated by `HaltOnlyStops` in every handler's contract |
| Chip8Spec.Op0x0 | Chip8.cxx:233-259 | CLS/RTS keep the state well formed; a halt changes only the run flag |
| Chip8Spec.Op0x1 | Chip8.cxx:261-268 | JMP keeps the state well formed |
| Chip8Spec.Op0x2 | Chip8.cxx:270-283 | JSR keeps the stack pointer inside the stack; a halt changes only the run flag |
| Chip8Spec.Op0x3 | Chip8.cxx:285-293 | SKEQ immediate keeps the state well formed |
| Chip8Spec.Op0x4 | Chip8.cxx:295-303 | SKNE immediate keeps the state well formed |
| Chip8Spec.Op0x5 | Chip8.cxx:305-313 | SKEQ registers keeps the state well formed |
| Chip8Spec.Op0x6 | Chip8.cxx:315-324 | MOV immediate keeps the state well formed |
| Chip8Spec.Op0x7 | Chip8.cxx:326-335 | ADD immediate keeps the state well formed |
| Chip8Spec.Alu | Chip8.cxx:343-415 | a known 8XYN yields 16 registers |
| Chip8Spec.Op0x8 | Chip8.cxx:337-418 | the ALU keeps the state well formed; an unknown N halts changing only the run flag |
| Chip8Spec.Op0x9 | Chip8.cxx:420-428 | SKNE registers keeps the state well formed |
| Chip8Spec.Op0xA | Chip8.cxx:430-438 | MVI keeps the state well formed |
| Chip8Spec.Op0xB | Chip8.cxx:440-447 | JMI keeps the state well formed |
| Chip8Spec.Op0xC | Chip8.cxx:449-458 | RAND keeps the state well formed |
| Chip8Spec.SpriteReadable | Chip8.cxx:470-504 | the N + 1 bytes DXYN reads from I on are inside RAM; stated by `SpriteEffect` |
| Chip8Spec.SpriteRows | Chip8.cxx:470-504 | the sprite is N bytes read from I on |
| Chip8Spec.Op0xD | Chip8.cxx:460-509 | SPRITE keeps the state well formed; an out-of-range read or pixel halts changing only the run flag |
| Chip8Spec.Op0xE | Chip8.cxx:511-542 | SKPR/SKUP keep the state well formed; an unknown low byte halts changing only the run flag |
| Chip8Spec.StoreRegisters | Chip8.cxx:599 | the register block store keeps RAM at 4096 bytes |
| Chip8Spec.LoadRegisters | Chip8.cxx:605 | the register block load keeps 16 registers |
| Chip8Spec.BlockBase | Chip8.cxx:597-607 | FX55/FX65 address RAM at 0x200 + I; stated by `RegisterBlockRoundTrip` |
| Chip8Spec.Op0xF | Chip8.cxx:544-616 | FX?? keeps the state well formed; an unknown low byte or out-of-range block halts changing only the run flag |
| Chip8Spec.Dispatch | Chip8.cxx:48-63 | every handler keeps the state well formed, a halt changes only the run flag, and no handler changes the opcode or the gate |
| Chip8Spec.FetchedOpCode | Chip8.cxx:118 | the family is the high nibble of the byte at pc and NN is the byte at pc + 1 |
| Chip8Spec.Step | Chip8.cxx:116-120 | fetch and dispatch keep the state well formed |
| Chip8Spec.Elapsed | Chip8.cxx:204-207 | the microseconds since the last tick, stored into a 32-bit `uint`; stated by `Wrap32` and `ClockBackwardsFiresBoth` |
| Chip8Spec.Tick | Chip8.cxx:202-229 | a tick never changes RAM, VRAM, the registers or the program counter; its timers and gate are stated by `TickCountsDown`, `CountDownsSaturate` and `ClockBackwardsFiresBoth` |
| Chip8Spec.Reset | Chip8.cxx:128-143 | reset keeps the state well formed |
| Chip8Spec.Iterate | Chip8.cxx:109-121 | one pass of the run loop keeps the state well formed |
| Chip8Spec.RunLoop | Chip8.cxx:109-121 | the run loop keeps the state well formed |
| Chip8Spec.Run | Chip8.cxx:95-122 | a run keeps the state well formed |
| Chip8Machine.Chip8.State | Chip8.hxx:53-76 | the fields of a well-formed object form a well-formed machine value |
| Chip8Machine.Chip8.constructor | Chip8.cxx:33-47 | every field starts at zero, registers and stack zeroed, with the given RAM and VRAM attached |
| Chip8Machine.Chip8.Stop | Chip8.cxx:124-126 | only the run flag is cleared |
| Chip8Machine.Chip8.Halt | Chip8.cxx:188-198 | only the run flag is cleared |
| Chip8Machine.Chip8.Reset | Chip8.cxx:128-143 | the fields become `Chip8Spec.Reset` of the old ones |
| Chip8Machine.Chip8.Tick | Chip8.cxx:202-229 | the fields become `Chip8Spec.Tick` of the old ones; the display was updated exactly when 16000 µs had passed |
| Chip8Machine.Chip8.Op0x0 | Chip8.cxx:233-259 | the in-place update is the transition `Chip8Spec.Op0x0` |
| Chip8Machine.Chip8.Op0x1 | Chip8.cxx:261-268 | the in-place update is `Chip8Spec.Op0x1` |
| Chip8Machine.Chip8.Op0x2 | Chip8.cxx:270-283 | the in-place update is `Chip8Spec.Op0x2` |
| Chip8Machine.Chip8.Op0x3 | Chip8.cxx:285-293 | the in-place update is `Chip8Spec.Op0x3` |
| Chip8Machine.Chip8.Op0x4 | Chip8.cxx:295-303 | the in-place update is `Chip8Spec.Op0x4` |
| Chip8Machine.Chip8.Op0x5 | Chip8.cxx:305-313 | the in-place update is `Chip8Spec.Op0x5` |
| Chip8Machine.Chip8.Op0x6 | Chip8.cxx:315-324 | the in-place update is `Chip8Spec.Op0x6` |
| Chip8Machine.Chip8.Op0x7 | Chip8.cxx:326-335 | the in-place update is `Chip8Spec.Op0x7` |
| Chip8Machine.Chip8.Op0x8 | Chip8.cxx:337-418 | the in-place update is `Chip8Spec.Op0x8` |
| Chip8Machine.Chip8.RegisterAlu | Chip8.cxx:343-415 | the switch on N updates the register array to `Chip8Spec.Alu`, or leaves it alone for an unknown N |
| Chip8Machine.Chip8.Op0x9 | Chip8.cxx:420-428 | the in-place update is `Chip8Spec.Op0x9` |
| Chip8Machine.Chip8.Op0xA | Chip8.cxx:430-438 | the in-place update is `Chip8Spec.Op0xA` |
| Chip8Machine.Chip8.Op0xB | Chip8.cxx:440-447 | the in-place update is `Chip8Spec.Op0xB` |
| Chip8Machine.Chip8.Op0xC | Chip8.cxx:449-458 | the in-place update is `Chip8Spec.Op0xC` for the given random byte |
| Chip8Machine.Chip8.PlotPixel | Chip8.cxx:493-500 | one pixel of VRAM is toggled in place and VF is raised on a hit |
| Chip8Machine.Chip8.RowPixel | Chip8.cxx:488-502 | one pass of the inner loop extends the row drawn so far by one column, and the flag with it |
| Chip8Machine.Chip8.PlotRow | Chip8.cxx:486-502 | the inner loop draws one whole sprite row in place and raises VF on a hit |
| Chip8Machine.Chip8.SpriteRow | Chip8.cxx:481-506 | one pass of the outer loop extends the rows drawn so far by one, and the flag with it |
| Chip8Machine.Chip8.DrawSprite | Chip8.cxx:479-506 | the nested loops leave VRAM as `DrawRows` and VF as the collision of the whole sprite |
| Chip8Machine.Chip8.Op0xD | Chip8.cxx:460-509 | the in-place update is `Chip8Spec.Op0xD` |
| Chip8Machine.Chip8.Op0xE | Chip8.cxx:511-542 | the in-place update is `Chip8Spec.Op0xE` |
| Chip8Machine.Chip8.StoreBcd | Chip8.cxx:591-593 | RAM at I, I+1, I+2 receives the three decimal digits of VX, nothing else changes |
| Chip8Machine.Chip8.StoreRegisterBlock | Chip8.cxx:599 | the copy loop leaves RAM as `Chip8Spec.StoreRegisters` |
| Chip8Machine.Chip8.LoadRegisterBlock | Chip8.cxx:605 | the copy loop leaves the registers as `Chip8Spec.LoadRegisters` |
| Chip8Machine.Chip8.Op0xF | Chip8.cxx:544-616 | the in-place update is `Chip8Spec.Op0xF` |
| Chip8Machine.Chip8.Op0xFMemory | Chip8.cxx:588-607 | the in-place update of FX33/FX55/FX65 is `Chip8Spec.Op0xF` |
| Chip8Machine.Chip8.Dispatch | Chip8.cxx:119 | the in-place update is `Chip8Spec.Dispatch` |
| Chip8Machine.Chip8.Step | Chip8.cxx:116-120 | the in-place update is `Chip8Spec.Step` |
| Chip8Machine.Chip8.Run | Chip8.cxx:95-122 | the loop leaves the object in the state `Chip8Spec.Run` reaches on the same inputs |
| Chip8Properties.AddCarries | Chip8.cxx:368-375 | 8XY4: VX + 256·VF is the true sum, VF is 0 or 1, other registers unchanged |
| Chip8Properties.SubtractBorrows | Chip8.cxx:377-384 | 8XY5: VF is 1 exactly when VX >= VY, and VX is the difference plus 256 on a borrow |
| Chip8Properties.ReverseSubtractBorrows | Chip8.cxx:395-401 | 8XY7: VF is 1 exactly when VY >= VX, and VX is VY - VX plus 256 on a borrow |
| Chip8Properties.ShiftsKeepShiftedOutBit | Chip8.cxx:386-408 | 8XY6: 2·VX + VF is the old VX; 8XYE: VX + 256·VF is twice the old VX; VF is 0 or 1 and every other register is kept |
| Chip8Properties.LogicKeepsFlag | Chip8.cxx:344-366 | 8XY0 to 8XY3 change only VX, and 8XY0 copies VY |
| Chip8Properties.XorTwiceRestores | Chip8.cxx:362-366 | 8XY3 twice with the same VY restores all registers |
| Chip8Properties.AddIntoFlagLosesCarry | Chip8.cxx:371-372 | with X = F the sum, computed from the fresh carry, overwrites the carry |
| Chip8Properties.AddFromFlagReadsCarry | Chip8.cxx:371-372 | with Y = F the second operand is the fresh carry, not the old VF |
| Chip8Properties.AluHaltsOnUnknown | Chip8.cxx:411-414 | 8XYN halts exactly for N outside 0-7 and E, changing only the run flag |
| Chip8Properties.FetchIsBigEndian | Chip8.cxx:118 | the opcode's family and X are the byte at pc, NN is the byte at pc + 1, NNN spans both |
| Chip8Properties.OpCodeFields | Chip8.cxx:118-119 | the opcode built from bytes hi and lo has family hi / 16, X hi % 16, Y lo / 16, N lo % 16, NN lo and NNN 256 (hi % 16) + lo |
| Chip8Properties.StepClosesGate | Chip8.cxx:118-120 | after a fetch the gate is closed whatever the instruction did, and a halt keeps pc |
| Chip8Properties.FetchOutsideRamHalts | Chip8.cxx:118 | a pc whose two bytes are not in RAM halts with only the run flag changed |
| Chip8Properties.IterateRunsAtMostOne | Chip8.cxx:109-121 | after one pass the gate is closed or the machine stopped: at most one instruction per gate opening |
| Chip8Properties.UnknownOpCodeHalts | Chip8.cxx:233-616 | dispatch halts as unknown exactly for opcodes that reach a handler's default branch, and then only the run flag changes |
| Chip8Properties.ResetClears | Chip8.cxx:128-143 | pc = 0x200 and I, sp, opcode, timers, gate, registers, stack and screen are zero; RAM and run flag kept |
| Chip8Properties.TickCountsDown | Chip8.cxx:202-229 | a display tick lowers each positive timer by one and never wraps; otherwise timers stay; a CPU tick opens the gate, otherwise the gate stays |
| Chip8Properties.CountDowns | Chip8.cxx:212-218 | a timer never grows over repeated display ticks |
| Chip8Properties.CountDownsSaturate | Chip8.cxx:212-218 | after k display ticks a timer reads max(t - k, 0) |
| Chip8Properties.ClockBackwardsFiresBoth | Chip8.cxx:204-226 | a clock reading just before the last ticks wraps to an elapsed time near 2^32, so the timers count down and the gate opens |
| Chip8Properties.JumpsSetProgramCounter | Chip8.cxx:261-268 | 1NNN sets pc to NNN; BNNN (lines 440-447) to NNN + V0 unmasked; nothing else changes |
| Chip8Properties.IndexedJumpLeavesRam | Chip8.cxx:440-447 | BFFF with V0 = 255 jumps to 0x10FE and the next fetch halts |
| Chip8Properties.ImmediateSkips | Chip8.cxx:285-303 | 3XNN moves on by 4 exactly when VX == NN and 4XNN exactly when not; only pc changes |
| Chip8Properties.RegisterSkips | Chip8.cxx:305-313 | 5XY? moves on by 4 exactly when VX == VY and 9XY? (lines 420-428) exactly when not; only pc changes |
| Chip8Properties.WithNibble | Chip8.cxx:308-309 | replacing the low nibble keeps family, X and Y |
| Chip8Properties.RegisterSkipsIgnoreLowNibble | Chip8.cxx:305-313 | 5XY? and 9XY? (lines 420-428) behave the same for every low nibble |
| Chip8Properties.RandomIsMasked | Chip8.cxx:449-458 | CXNN sets VX to the random byte AND NN, at most NN; only VX and pc change |
| Chip8Properties.LoadsSetOnlyTheirTarget | Chip8.cxx:315-335 | 6XNN sets VX to NN, 7XNN adds NN modulo 256 leaving VF, ANNN (lines 430-438) sets I; pc moves on by 2 |
| Chip8Properties.CallPushesReturnAddress | Chip8.cxx:270-283 | 2NNN halts at sp 15 changing only the run flag; else stores pc + 2 at stack[sp], bumps sp, jumps |
| Chip8Properties.ReturnPopsAddress | Chip8.cxx:241-258 | 00EE halts with an empty stack; else pops and continues at the stored address + 2 |
| Chip8Properties.CallThenReturnSkipsOne | Chip8.cxx:241-283 | a call at P followed by a return resumes at P + 4 (in 16 bits) with sp restored |
| Chip8Properties.Calls | Chip8.cxx:270-283 | a chain of calls keeps the state well formed |
| Chip8Properties.NestedCallsSucceed | Chip8.cxx:270-283 | from sp, up to 15 - sp nested calls succeed, each one level deeper |
| Chip8Properties.NestingIsBounded | Chip8.cxx:271-273 | the (16 - sp)-th nested call overflows: from an empty stack the 16th call halts |
| Chip8Properties.SpriteEffect | Chip8.cxx:460-509 | DXYN runs exactly when its bytes and pixels are in range; then VF is 0 or 1, V0-VE, RAM, I, stack kept, pc + 2 |
| Chip8Properties.SpriteKeepsMonochrome | Chip8.cxx:500 | DXYN keeps every pixel all black or all white |
| Chip8Properties.SpriteTwiceRestores | Chip8.cxx:479-508 | drawing the same sprite twice (X, Y not F) restores VRAM |
| Chip8Properties.SpriteCollisionDetectsOverlap | Chip8.cxx:479-498 | for a sprite that fits without wrapping VF is 1 exactly when a set bit (MSB first) lands on a lit pixel at (VX + c, VY + r) |
| Chip8Properties.SpriteCollisionDetectsHits | Chip8.cxx:479-506 | for every sprite DXYN draws, wrapped or not, VF is 1 exactly when some set bit lands on a pixel that was on |
| Chip8Properties.KeySkipsAreStubs | Chip8.cxx:511-542 | EX9E never skips (pc + 2) and EXA1 always skips (pc + 4), whatever VX holds, and nothing else changes |
| Chip8Properties.MiscAdvancesByTwo | Chip8.cxx:544-616 | every FX?? that runs moves on by 2; FX0A does nothing else |
| Chip8Properties.TimerTransfers | Chip8.cxx:550-574 | FX07 copies the delay timer into VX; FX15/FX18 copy VX into the delay/sound timer; each runs and changes nothing else but pc + 2 |
| Chip8Properties.IndexArithmetic | Chip8.cxx:576-586 | FX1E adds VX to I modulo 65536 (I drops exactly on overflow); FX29 sets I = 5·VX, past the font for VX > 15; both change nothing else but pc + 2 |
| Chip8Properties.BcdStoresDigits | Chip8.cxx:588-595 | FX33 halts exactly when I + 2 is outside RAM; else the digits are at most 9, 100·d0 + 10·d1 + d2 = VX; nothing else changes but pc + 2 |
| Chip8Properties.RegisterBlockRoundTrip | Chip8.cxx:597-607 | FX55 stores V0..VX at 0x200 + I, keeps the rest of RAM and changes nothing else but pc + 2; FX65 with the same X and I then gives back every register, I unchanged |
| Chip8Properties.DispatchKeepsMonochrome | Chip8.cxx:233-509 | no instruction leaves a pixel half lit |
| Chip8Properties.IterateKeepsMonochrome | Chip8.cxx:109-121 | neither a tick nor an instruction leaves a pixel half lit |
| Chip8Properties.RunLoopKeepsMonochrome | Chip8.cxx:109-121 | the run loop keeps every pixel all black or all white |
| Chip8Properties.RunShowsOnlyWholePixels | Chip8.cxx:95-143 | a run shows only whole black or white pixels, whatever VRAM held before |
| Chip8Properties.LoadThenAddScenario | Chip8.cxx:315-335 | the program 6005 7003 at 0x200 leaves V0 = 8 and pc = 0x204 |

## Left out

- `Chip8::LoadProgram` and its font table `DefaultFontData`: file I/O and data only. RAM is taken as given.
- The SDL interface (`Interface.cxx`, `Interface.hxx`) and `Main.cxx`. `Interface::Update` is modelled only by its effect on the machine, the `quitRequested` input of `Tick`, which stops the run.
- `Core.hxx`: its integer widths are the types `u8`, `u16`, `u32`. Its logging macros are not part of this model.
- `DebugOpCode` and the message formatting of `Halt`: only the halt's effect, clearing the run flag, is modelled. The reason is recorded in the outcome.
- `SetRAM`, `SetVRAM`, `SetInterface` and the null checks in `Run`: the constructor takes the RAM and VRAM arrays, and a missing interface or memory cannot arise.
- `rand()` is a parameter: the random byte of `Op0xC`, `Step` and each run-loop input.
- `gettimeofday` is a parameter `now` in microseconds. Chip8Spec.Tick and Chip8Machine.Chip8.Tick take the second clock read of `Tick` and `Reset` to be the same reading as the first. Timestamps are plain integers rather than `timeval`.
- Chip8Machine.Chip8.constructor: the source leaves `lastTick` and `lastCpuTick` uninitialised; the model sets them to 0, and `Reset` overwrites them before any use.
- Chip8Spec.RunLoop and Chip8Machine.Chip8.Run: the real-time busy-wait is modelled as a finite sequence of inputs, one per pass of the loop. The loop may stop early when the machine stops; a run that never ends is not modelled.
- Undefined behaviour of the source is not modelled. An unchecked access outside RAM or VRAM halts the machine before any write, with reason `OutOfRange`. This covers the fetch at `pc + 1`, the sprite bytes and pixels, the FX33 digits and the FX55/FX65 block.
- Chip8Spec.Op0xD: the sprite is checked as a whole before drawing. A sprite with any pixel past VRAM halts without drawing its earlier rows, whereas the source would have drawn them before the bad write.
- Display.Toggle: a plot outside the framebuffer leaves it unchanged. DXYN never reaches that case, because it halts first.
- The `Chip8Machine.Chip8` helpers (`RegisterAlu`, `PlotPixel`, `RowPixel`, `PlotRow`, `SpriteRow`, `DrawSprite`, `StoreBcd`, `StoreRegisterBlock`, `LoadRegisterBlock`, `Op0xFMemory`) split the source's switch statements and loops into smaller methods. They do the same updates in the same order.
- `memset` and `memcpy` are modelled as element-wise updates of the arrays.
- Key input: SKPR and SKUP are stubs in the source and modelled as such, and FX0A does not wait.
