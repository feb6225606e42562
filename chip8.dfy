/** Class `Chip8`: the interpreter as the source has it, fields updated in
    place. RAM and VRAM are arrays the object is given (it never allocates
    or frees them); the registers and the call stack are its own arrays.
    Every method is proved to perform the transition its counterpart in
    `Chip8Spec` describes, on the abstract view `State()`. */
module Chip8Machine {
  import opened Words
  import opened Display
  import S = Chip8Spec

  class Chip8 {
    // CPU
    var addressRegister: u16
    const cpuRegisters: array<u8>
    var cpuWait: bool
    var lastCpuTick: int

    // Memory (attached, not owned)
    const mainMemory: array<u8>
    const videoMemory: array<u8>

    // Execution
    var isRunning: bool
    var programCounter: u16
    var stackPointer: u8
    const callStack: array<u16>
    var opCode: u16

    // Timers
    var delayTimer: u8
    var soundTimer: u8
    var lastTick: int

    /** The array sizes of the class declaration, and the stack pointer inside the call stack. */
    ghost predicate Valid()
      reads this
    {
      mainMemory.Length == S.RamSize && videoMemory.Length == VramSize &&
      cpuRegisters.Length == S.RegisterCount && callStack.Length == S.StackDepth &&
      stackPointer < S.StackDepth
    }

    /** The object's fields as a value of the specification. */
    ghost function State(): (m: S.Machine)
      reads this, cpuRegisters, mainMemory, videoMemory, callStack
      ensures Valid() ==> S.Valid(m)
    {
      S.Machine(addressRegister, cpuRegisters[..], cpuWait, lastCpuTick,
                mainMemory[..], videoMemory[..],
                isRunning, programCounter, stackPointer, callStack[..], opCode,
                delayTimer, soundTimer, lastTick)
    }

    /** The constructor zeroes every field; RAM and VRAM are attached here
        rather than through setters. */
    constructor (ram: array<u8>, vram: array<u8>)
      requires ram.Length == S.RamSize && vram.Length == VramSize
      ensures Valid() && mainMemory == ram && videoMemory == vram
      ensures fresh(cpuRegisters) && fresh(callStack)
      ensures State() == S.Machine(0, seq(S.RegisterCount, _ => 0), false, 0, ram[..], vram[..],
                                   false, 0, 0, seq(S.StackDepth, _ => 0), 0, 0, 0, 0)
    {
      addressRegister := 0;
      cpuRegisters := new u8[S.RegisterCount](_ => 0);
      cpuWait := false;
      lastCpuTick := 0;
      mainMemory := ram;
      videoMemory := vram;
      isRunning := false;
      programCounter := 0;
      stackPointer := 0;
      callStack := new u16[S.StackDepth](_ => 0);
      opCode := 0;
      delayTimer := 0;
      soundTimer := 0;
      lastTick := 0;
    }

    /** Requests the run loop to end; it is seen at the top of the next pass. */
    method Stop()
      requires Valid()
      modifies this
      ensures Valid()
      ensures State() == old(State()).(isRunning := false)
    {
      isRunning := false;
    }

    /** Stops on an unrecoverable condition; everything else is left as it was. */
    method Halt(reason: S.HaltReason) returns (outcome: S.Outcome)
      requires Valid()
      modifies this
      ensures Valid()
      ensures S.Transition(State(), outcome) == S.Halt(old(State()), reason)
    {
      isRunning := false;
      outcome := S.Halted(reason);
    }

    /** Clears registers, stack, timers and screen and puts the program counter
        at the program start; `now` is the clock reading both cadences start from. */
    method Reset(now: int)
      requires Valid()
      modifies this, cpuRegisters, callStack, videoMemory
      ensures Valid()
      ensures State() == S.Reset(old(State()), now)
    {
      addressRegister := 0;
      programCounter := S.ProgramStartAddress;
      stackPointer := 0;
      opCode := 0;
      delayTimer := 0;
      soundTimer := 0;
      cpuWait := false;
      lastTick := now;
      lastCpuTick := now;
      forall k | 0 <= k < cpuRegisters.Length {
        cpuRegisters[k] := 0;
      }
      forall k | 0 <= k < callStack.Length {
        callStack[k] := 0;
      }
      forall k | 0 <= k < videoMemory.Length {
        videoMemory[k] := 0;
      }
    }

    /** Both cadences at clock reading `now`; `quitRequested` is what the display
        update reports. Returns whether the display was updated. */
    method Tick(now: int, quitRequested: bool) returns (displayUpdated: bool)
      requires Valid()
      modifies this
      ensures Valid()
      ensures State() == S.Tick(old(State()), now, quitRequested)
      ensures displayUpdated == (S.Elapsed(now, old(lastTick)) >= S.DisplayPeriod)
    {
      var elapsedTime := S.Elapsed(now, lastTick);
      displayUpdated := elapsedTime >= S.DisplayPeriod;
      if displayUpdated {
        if quitRequested {
          Stop();
        }
        if soundTimer > 0 {
          soundTimer := soundTimer - 1;
        }
        if delayTimer > 0 {
          delayTimer := delayTimer - 1;
        }
        lastTick := now;
      }
      elapsedTime := S.Elapsed(now, lastCpuTick);
      if elapsedTime >= S.CpuPeriod {
        cpuWait := false;
        lastCpuTick := now;
      }
    }

    /** 00E0 (CLS) / 00EE (RTS). */
    method Op0x0() returns (outcome: S.Outcome)
      requires Valid()
      modifies this, videoMemory
      ensures Valid()
      ensures S.Transition(State(), outcome) == S.Op0x0(old(State()))
    {
      var b := S.Byte(opCode);
      if b == 0xE0 {
        forall k | 0 <= k < videoMemory.Length {
          videoMemory[k] := 0;
        }
      } else if b == 0xEE {
        if stackPointer == 0 {
          outcome := Halt(S.NoSubroutine);
          return;
        }
        stackPointer := stackPointer - 1;
        programCounter := callStack[stackPointer];
      } else {
        outcome := Halt(S.UnknownOpCode);
        return;
      }
      programCounter := Wrap16(programCounter + 2);
      outcome := S.Executed;
    }

    /** 1NNN (JMP). */
    method Op0x1() returns (outcome: S.Outcome)
      requires Valid()
      modifies this
      ensures Valid()
      ensures S.Transition(State(), outcome) == S.Op0x1(old(State()))
    {
      var jumpAddress := S.Address(opCode);
      programCounter := jumpAddress;
      outcome := S.Executed;
    }

    /** 2NNN (JSR). */
    method Op0x2() returns (outcome: S.Outcome)
      requires Valid()
      modifies this, callStack
      ensures Valid()
      ensures S.Transition(State(), outcome) == S.Op0x2(old(State()))
    {
      if stackPointer == 15 {
        outcome := Halt(S.StackOverflow);
        return;
      }
      var jumpAddress := S.Address(opCode);
      callStack[stackPointer] := Wrap16(programCounter + 2);
      stackPointer := stackPointer + 1;
      programCounter := jumpAddress;
      outcome := S.Executed;
    }

    /** 3XNN (SKEQ immediate): the skip adds `(equal * 2) + 2`. */
    method Op0x3() returns (outcome: S.Outcome)
      requires Valid()
      modifies this
      ensures Valid()
      ensures S.Transition(State(), outcome) == S.Op0x3(old(State()))
    {
      var registerX, testValue := S.RegX(opCode), S.Byte(opCode);
      programCounter := Wrap16(programCounter + (if cpuRegisters[registerX] == testValue then 1 else 0) * 2 + 2);
      outcome := S.Executed;
    }

    /** 4XNN (SKNE immediate). */
    method Op0x4() returns (outcome: S.Outcome)
      requires Valid()
      modifies this
      ensures Valid()
      ensures S.Transition(State(), outcome) == S.Op0x4(old(State()))
    {
      var registerX, testValue := S.RegX(opCode), S.Byte(opCode);
      programCounter := Wrap16(programCounter + (if cpuRegisters[registerX] != testValue then 1 else 0) * 2 + 2);
      outcome := S.Executed;
    }

    /** 5XY? (SKEQ registers). */
    method Op0x5() returns (outcome: S.Outcome)
      requires Valid()
      modifies this
      ensures Valid()
      ensures S.Transition(State(), outcome) == S.Op0x5(old(State()))
    {
      var registerX, registerY := S.RegX(opCode), S.RegY(opCode);
      programCounter := Wrap16(programCounter + (if cpuRegisters[registerX] == cpuRegisters[registerY] then 1 else 0) * 2 + 2);
      outcome := S.Executed;
    }

    /** 6XNN (MOV immediate). */
    method Op0x6() returns (outcome: S.Outcome)
      requires Valid()
      modifies this, cpuRegisters
      ensures Valid()
      ensures S.Transition(State(), outcome) == S.Op0x6(old(State()))
    {
      var registerX, newValue := S.RegX(opCode), S.Byte(opCode);
      cpuRegisters[registerX] := newValue;
      programCounter := Wrap16(programCounter + 2);
      outcome := S.Executed;
    }

    /** 7XNN (ADD immediate). */
    method Op0x7() returns (outcome: S.Outcome)
      requires Valid()
      modifies this, cpuRegisters
      ensures Valid()
      ensures S.Transition(State(), outcome) == S.Op0x7(old(State()))
    {
      var registerX, addValue := S.RegX(opCode), S.Byte(opCode);
      cpuRegisters[registerX] := Wrap8(cpuRegisters[registerX] as int + addValue);
      programCounter := Wrap16(programCounter + 2);
      outcome := S.Executed;
    }

    /** 8XYN (register ALU); an unknown N halts. */
    method Op0x8() returns (outcome: S.Outcome)
      requires Valid()
      modifies this, cpuRegisters
      ensures Valid()
      ensures S.Transition(State(), outcome) == S.Op0x8(old(State()))
    {
      var registerX, registerY, n := S.RegX(opCode), S.RegY(opCode), S.Nibble(opCode);
      var known := RegisterAlu(registerX, registerY, n);
      if !known {
        outcome := Halt(S.UnknownOpCode);
        return;
      }
      programCounter := Wrap16(programCounter + 2);
      outcome := S.Executed;
    }

    /** The switch of 8XYN on the registers: where a flag is produced it is
        stored in VF first, and the result is then computed from the registers
        as they are after that store. Returns false, changing nothing, for an unknown N. */
    method RegisterAlu(registerX: nat, registerY: nat, n: nat) returns (known: bool)
      requires cpuRegisters.Length == S.RegisterCount && registerX < S.RegisterCount && registerY < S.RegisterCount
      modifies cpuRegisters
      ensures known == S.Alu(old(cpuRegisters[..]), registerX, registerY, n).Some?
      ensures cpuRegisters[..] == if known then S.Alu(old(cpuRegisters[..]), registerX, registerY, n).value
                                  else old(cpuRegisters[..])
    {
      known := true;
      if n == 0x0 {
        cpuRegisters[registerX] := cpuRegisters[registerY];
      } else if n == 0x1 {
        cpuRegisters[registerX] := Or8(cpuRegisters[registerX], cpuRegisters[registerY]);
      } else if n == 0x2 {
        cpuRegisters[registerX] := And8(cpuRegisters[registerX], cpuRegisters[registerY]);
      } else if n == 0x3 {
        cpuRegisters[registerX] := Xor8(cpuRegisters[registerX], cpuRegisters[registerY]);
      } else if n == 0x4 {
        cpuRegisters[S.Flag] := if cpuRegisters[registerX] as int + cpuRegisters[registerY] > 255 then 1 else 0;
        cpuRegisters[registerX] := Wrap8(cpuRegisters[registerX] as int + cpuRegisters[registerY]);
      } else if n == 0x5 {
        cpuRegisters[S.Flag] := if cpuRegisters[registerX] < cpuRegisters[registerY] then 0 else 1;
        cpuRegisters[registerX] := Wrap8(cpuRegisters[registerX] as int - cpuRegisters[registerY]);
      } else if n == 0x6 {
        cpuRegisters[S.Flag] := cpuRegisters[registerX] % 2;
        cpuRegisters[registerX] := cpuRegisters[registerX] / 2;
      } else if n == 0x7 {
        cpuRegisters[S.Flag] := if cpuRegisters[registerY] < cpuRegisters[registerX] then 0 else 1;
        cpuRegisters[registerX] := Wrap8(cpuRegisters[registerY] as int - cpuRegisters[registerX]);
      } else if n == 0xE {
        cpuRegisters[S.Flag] := cpuRegisters[registerX] / 128;
        cpuRegisters[registerX] := Wrap8(cpuRegisters[registerX] as int * 2);
      } else {
        known := false;
      }
    }

    /** 9XY? (SKNE registers). */
    method Op0x9() returns (outcome: S.Outcome)
      requires Valid()
      modifies this
      ensures Valid()
      ensures S.Transition(State(), outcome) == S.Op0x9(old(State()))
    {
      var registerX, registerY := S.RegX(opCode), S.RegY(opCode);
      programCounter := Wrap16(programCounter + (if cpuRegisters[registerX] != cpuRegisters[registerY] then 1 else 0) * 2 + 2);
      outcome := S.Executed;
    }

    /** ANNN (MVI). */
    method Op0xA() returns (outcome: S.Outcome)
      requires Valid()
      modifies this
      ensures Valid()
      ensures S.Transition(State(), outcome) == S.Op0xA(old(State()))
    {
      addressRegister := S.Address(opCode);
      programCounter := Wrap16(programCounter + 2);
      outcome := S.Executed;
    }

    /** BNNN (JMI). */
    method Op0xB() returns (outcome: S.Outcome)
      requires Valid()
      modifies this
      ensures Valid()
      ensures S.Transition(State(), outcome) == S.Op0xB(old(State()))
    {
      var jumpAddress := S.Address(opCode);
      programCounter := jumpAddress + cpuRegisters[0];
      outcome := S.Executed;
    }

    /** CXNN (RAND), with `randomByte` in place of `rand() % 256`. */
    method Op0xC(randomByte: u8) returns (outcome: S.Outcome)
      requires Valid()
      modifies this, cpuRegisters
      ensures Valid()
      ensures S.Transition(State(), outcome) == S.Op0xC(old(State()), randomByte)
    {
      var registerX, maskValue := S.RegX(opCode), S.Byte(opCode);
      cpuRegisters[registerX] := And8(randomByte, maskValue);
      programCounter := Wrap16(programCounter + 2);
      outcome := S.Executed;
    }

    /** One pass of the sprite's column loop: pixel `pl` of the sprite, at
        byte `index` of VRAM, with sprite bit `pixelValue`. */
    method PlotPixel(index: nat, pixelValue: nat, ghost pl: Plot)
      requires Valid() && pl.pixel < PixelCount && index == 3 * pl.pixel
      requires pixelValue == if pl.on then 1 else 0
      modifies videoMemory, cpuRegisters
      ensures videoMemory[..] == Toggle(old(videoMemory[..]), pl)
      ensures cpuRegisters[..] == if Hits(old(videoMemory[..]), pl) then old(cpuRegisters[..])[S.Flag := 1]
                                  else old(cpuRegisters[..])
    {
      var screenValue := videoMemory[index] / 255;
      if pixelValue == screenValue && screenValue == 1 {
        cpuRegisters[S.Flag] := 1;
      }
      // (screenValue ^ pixelValue) * 255, both values being 0 or 1
      var shade := if screenValue != pixelValue then 255 else 0;
      videoMemory[index] := shade;
      videoMemory[index + 1] := shade;
      videoMemory[index + 2] := shade;
    }

    /** A pass of the sprite's column loop, seen from the whole row: after
        columns `0 .. c - 1` of sprite row `r`, whose byte is `line`, column `c`
        is drawn at VRAM byte `index`. */
    method RowPixel(index: nat, pixelValue: nat, line: u8, ghost startingX: nat, ghost startingY: nat,
                    ghost r: nat, ghost c: nat, ghost v0: seq<u8>, ghost r0: seq<u8>)
      requires Valid() && |v0| == VramSize && |r0| == S.RegisterCount && c < SpriteWidth
      requires RowOnScreen(startingX, startingY, r) && index == 3 * PixelOf(startingX, startingY, r, c)
      requires pixelValue == PixelBit(line, c)
      requires videoMemory[..] == DrawRow(v0, line, startingX, startingY, r, c)
      requires cpuRegisters[..] == if RowCollision(v0, line, startingX, startingY, r, c) then r0[S.Flag := 1] else r0
      modifies videoMemory, cpuRegisters
      ensures videoMemory[..] == DrawRow(v0, line, startingX, startingY, r, c + 1)
      ensures cpuRegisters[..] == if RowCollision(v0, line, startingX, startingY, r, c + 1) then r0[S.Flag := 1] else r0
    {
      PlotPixel(index, pixelValue, Plot(PixelOf(startingX, startingY, r, c), SpriteBit(line, c)));
    }

    /** One pass of the sprite's row loop: the column loop over the eight
        bits of `line`, sprite row `r`, drawn on screen row `yPosition`. */
    method PlotRow(line: u8, yPosition: nat, startingX: nat, ghost startingY: nat, ghost r: nat)
      requires Valid() && RowOnScreen(startingX, startingY, r) && yPosition == RowPosition(startingY, r)
      modifies videoMemory, cpuRegisters
      ensures videoMemory[..] == DrawRow(old(videoMemory[..]), line, startingX, startingY, r, SpriteWidth)
      ensures cpuRegisters[..] ==
                if RowCollision(old(videoMemory[..]), line, startingX, startingY, r, SpriteWidth)
                then old(cpuRegisters[..])[S.Flag := 1] else old(cpuRegisters[..])
    {
      ghost var v0, r0 := videoMemory[..], cpuRegisters[..];
      var xPosition := startingX;
      var xPixels := 0;
      while xPixels < 8
        invariant 0 <= xPixels <= SpriteWidth
        invariant xPosition == if xPixels == 0 then startingX else ColumnPosition(startingX, xPixels - 1) + 1
        invariant videoMemory[..] == DrawRow(v0, line, startingX, startingY, r, xPixels)
        invariant cpuRegisters[..] ==
                    if RowCollision(v0, line, startingX, startingY, r, xPixels) then r0[S.Flag := 1] else r0
        modifies videoMemory, cpuRegisters
      {
        if xPosition > 64 {
          xPosition := xPosition - 64;
        }
        var pixelValue := PixelBit(line, xPixels);
        RowPixel((yPosition * 64 + xPosition) * 3, pixelValue, line, startingX, startingY, r, xPixels, v0, r0);
        xPosition := xPosition + 1;
        xPixels := xPixels + 1;
      }
    }

    /** A pass of the sprite's row loop, seen from the whole sprite: after
        rows `0 .. r - 1` of `rows`, row `r`, whose byte is `line`, is drawn. */
    method SpriteRow(line: u8, yPosition: nat, startingX: nat, ghost startingY: nat,
                     ghost rows: seq<u8>, ghost r: nat, ghost v0: seq<u8>, ghost r0: seq<u8>)
      requires Valid() && |v0| == VramSize && |r0| == S.RegisterCount
      requires r < |rows| && rows[r] == line && SpriteOnScreen(rows, startingX, startingY)
      requires yPosition == RowPosition(startingY, r)
      requires videoMemory[..] == DrawRows(v0, rows, startingX, startingY, r)
      requires cpuRegisters[..] == r0[S.Flag := if RowsCollision(v0, rows, startingX, startingY, r) then 1 else 0]
      modifies videoMemory, cpuRegisters
      ensures videoMemory[..] == DrawRows(v0, rows, startingX, startingY, r + 1)
      ensures cpuRegisters[..] == r0[S.Flag := if RowsCollision(v0, rows, startingX, startingY, r + 1) then 1 else 0]
    {
      PlotRow(line, yPosition, startingX, startingY, r);
    }

    /** The drawing part of DXYN: VF cleared, then the row loop over the
        `spriteHeight` bytes at `address`, which are `rows`. Each pass reads
        the next row byte ahead, so the byte just past the sprite is read too. */
    method DrawSprite(address: u16, spriteHeight: nat, startingX: nat, startingY: nat, ghost rows: seq<u8>)
      requires Valid() && address + spriteHeight < S.RamSize
      requires rows == mainMemory[address .. address + spriteHeight]
      requires SpriteOnScreen(rows, startingX, startingY)
      modifies videoMemory, cpuRegisters
      ensures videoMemory[..] == DrawRows(old(videoMemory[..]), rows, startingX, startingY, |rows|)
      ensures cpuRegisters[..] == old(cpuRegisters[..])[S.Flag :=
                if RowsCollision(old(videoMemory[..]), rows, startingX, startingY, |rows|) then 1 else 0]
    {
      ghost var v0, r0 := videoMemory[..], cpuRegisters[..];
      var lineAddress: u16 := address;
      var currentLine := mainMemory[lineAddress];
      lineAddress := lineAddress + 1;
      var yPosition: nat := startingY;
      cpuRegisters[S.Flag] := 0;

      var yPixels := 0;
      while yPixels < spriteHeight
        invariant 0 <= yPixels <= spriteHeight
        invariant lineAddress == address + yPixels + 1
        invariant currentLine == mainMemory[address + yPixels]
        invariant yPosition == if yPixels == 0 then startingY else RowPosition(startingY, yPixels - 1) + 1
        invariant videoMemory[..] == DrawRows(v0, rows, startingX, startingY, yPixels)
        invariant cpuRegisters[..] ==
                    r0[S.Flag := if RowsCollision(v0, rows, startingX, startingY, yPixels) then 1 else 0]
        modifies videoMemory, cpuRegisters
      {
        if yPosition > 32 {
          yPosition := yPosition - 32;
        }
        SpriteRow(currentLine, yPosition, startingX, startingY, rows, yPixels, v0, r0);
        currentLine := mainMemory[lineAddress];
        lineAddress := lineAddress + 1;
        yPosition := yPosition + 1;
        yPixels := yPixels + 1;
      }
      assert yPixels == |rows|;
    }

    /** DXYN (SPRITE): the nested row/column loops of the source, XOR-drawing
        pixel by pixel into VRAM. Accesses the source leaves unchecked are
        checked first, and halt before anything is drawn. */
    method Op0xD() returns (outcome: S.Outcome)
      requires Valid()
      modifies this, cpuRegisters, videoMemory
      ensures Valid()
      ensures S.Transition(State(), outcome) == S.Op0xD(old(State()))
    {
      var registerX, registerY, spriteHeight := S.RegX(opCode), S.RegY(opCode), S.Nibble(opCode);
      if addressRegister + spriteHeight >= S.RamSize {
        outcome := Halt(S.OutOfRange(S.SpriteRead));
        return;
      }
      var startingX: nat, startingY: nat := cpuRegisters[registerX], cpuRegisters[registerY];
      if !SpriteOnScreen(mainMemory[addressRegister .. addressRegister + spriteHeight], startingX, startingY) {
        outcome := Halt(S.OutOfRange(S.SpriteDraw));
        return;
      }
      ghost var m := old(State());
      ghost var rows := mainMemory[addressRegister .. addressRegister + spriteHeight];
      ghost var drawn := m.(videoMemory := DrawRows(m.videoMemory, rows, startingX, startingY, |rows|),
                            cpuRegisters := m.cpuRegisters[S.Flag :=
                              if RowsCollision(m.videoMemory, rows, startingX, startingY, |rows|) then 1 else 0]);
      assert S.SpriteReadable(m) && S.SpriteRows(m) == rows;
      assert S.Op0xD(m) == S.Advance(drawn, 2);
      DrawSprite(addressRegister, spriteHeight, startingX, startingY, rows);
      programCounter := Wrap16(programCounter + 2);
      outcome := S.Executed;
      assert State() == drawn.(programCounter := programCounter);
    }

    /** EX9E (SKPR) / EXA1 (SKUP), key reading not implemented. */
    method Op0xE() returns (outcome: S.Outcome)
      requires Valid()
      modifies this
      ensures Valid()
      ensures S.Transition(State(), outcome) == S.Op0xE(old(State()))
    {
      var b := S.Byte(opCode);
      if b == 0x9E {
        programCounter := Wrap16(programCounter + 2);
      } else if b == 0xA1 {
        programCounter := Wrap16(programCounter + 4);
      } else {
        outcome := Halt(S.UnknownOpCode);
        return;
      }
      outcome := S.Executed;
    }

    /** FX33 (BCD): the hundreds, tens and units of `value` at `address` onwards. */
    method StoreBcd(address: nat, value: u8)
      requires mainMemory.Length == S.RamSize && address + 2 < S.RamSize
      modifies mainMemory
      ensures mainMemory[..] == old(mainMemory[..])[address := value / 100][address + 1 := value % 100 / 10]
                                                   [address + 2 := value % 100 % 10]
    {
      mainMemory[address] := value / 100;
      mainMemory[address + 1] := value % 100 / 10;
      mainMemory[address + 2] := value % 100 % 10;
    }

    /** FX55 (STR): V0 to VX copied to RAM from `base` on. */
    method StoreRegisterBlock(base: nat, registerX: nat)
      requires mainMemory.Length == S.RamSize && cpuRegisters.Length == S.RegisterCount
      requires registerX < S.RegisterCount && base + registerX < S.RamSize
      modifies mainMemory
      ensures mainMemory[..] == S.StoreRegisters(old(mainMemory[..]), base, cpuRegisters[..], registerX)
    {
      forall k | 0 <= k <= registerX {
        mainMemory[base + k] := cpuRegisters[k];
      }
    }

    /** FX65 (LDR): V0 to VX loaded from RAM from `base` on. */
    method LoadRegisterBlock(base: nat, registerX: nat)
      requires mainMemory.Length == S.RamSize && cpuRegisters.Length == S.RegisterCount
      requires registerX < S.RegisterCount && base + registerX < S.RamSize
      modifies cpuRegisters
      ensures cpuRegisters[..] == S.LoadRegisters(old(cpuRegisters[..]), mainMemory[..], base, registerX)
    {
      forall k | 0 <= k <= registerX {
        cpuRegisters[k] := mainMemory[base + k];
      }
    }

    /** FX?? (timers, I, font, BCD, register block store and load); any other low byte halts. */
    method Op0xF() returns (outcome: S.Outcome)
      requires Valid()
      modifies this, cpuRegisters, mainMemory
      ensures Valid()
      ensures S.Transition(State(), outcome) == S.Op0xF(old(State()))
    {
      var registerX, b := S.RegX(opCode), S.Byte(opCode);
      if b in {0x33, 0x55, 0x65} {
        outcome := Op0xFMemory();
        return;
      }
      if b == 0x07 {
        cpuRegisters[registerX] := delayTimer;
      } else if b == 0x0A {
        // waiting for a key is not implemented
      } else if b == 0x15 {
        delayTimer := cpuRegisters[registerX];
      } else if b == 0x18 {
        soundTimer := cpuRegisters[registerX];
      } else if b == 0x1E {
        addressRegister := Wrap16(addressRegister + cpuRegisters[registerX]);
      } else if b == 0x29 {
        addressRegister := S.FontStartAddress + cpuRegisters[registerX] * S.GlyphSize;
      } else {
        outcome := Halt(S.UnknownOpCode);
        return;
      }
      programCounter := Wrap16(programCounter + 2);
      outcome := S.Executed;
    }

    /** FX33 (BCD), FX55 (STR) and FX65 (LDR), the cases of FX?? that touch RAM;
        an access past the end of RAM halts before anything is written. */
    method Op0xFMemory() returns (outcome: S.Outcome)
      requires Valid() && S.Byte(opCode) in {0x33, 0x55, 0x65}
      modifies this, cpuRegisters, mainMemory
      ensures Valid()
      ensures S.Transition(State(), outcome) == S.Op0xF(old(State()))
    {
      var registerX, b := S.RegX(opCode), S.Byte(opCode);
      if b == 0x33 {
        if addressRegister + 2 >= S.RamSize {
          outcome := Halt(S.OutOfRange(S.BcdStore));
          return;
        }
        StoreBcd(addressRegister, cpuRegisters[registerX]);
      } else {
        var base := S.ProgramStartAddress + addressRegister;
        if base + registerX >= S.RamSize {
          outcome := Halt(S.OutOfRange(if b == 0x55 then S.RegisterStore else S.RegisterLoad));
          return;
        }
        if b == 0x55 {
          StoreRegisterBlock(base, registerX);
        } else {
          LoadRegisterBlock(base, registerX);
        }
      }
      programCounter := Wrap16(programCounter + 2);
      outcome := S.Executed;
    }

    /** The operations table, indexed by `opCode >> 12`. */
    method Dispatch(randomByte: u8) returns (outcome: S.Outcome)
      requires Valid()
      modifies this, cpuRegisters, callStack, mainMemory, videoMemory
      ensures Valid()
      ensures S.Transition(State(), outcome) == S.Dispatch(old(State()), randomByte)
    {
      match S.Family(opCode)
      case 0x0 => outcome := Op0x0();
      case 0x1 => outcome := Op0x1();
      case 0x2 => outcome := Op0x2();
      case 0x3 => outcome := Op0x3();
      case 0x4 => outcome := Op0x4();
      case 0x5 => outcome := Op0x5();
      case 0x6 => outcome := Op0x6();
      case 0x7 => outcome := Op0x7();
      case 0x8 => outcome := Op0x8();
      case 0x9 => outcome := Op0x9();
      case 0xA => outcome := Op0xA();
      case 0xB => outcome := Op0xB();
      case 0xC => outcome := Op0xC(randomByte);
      case 0xD => outcome := Op0xD();
      case 0xE => outcome := Op0xE();
      case _ => outcome := Op0xF();
    }

    /** One instruction: fetch the big-endian opcode at the program counter,
        run its handler, close the CPU gate. */
    method Step(randomByte: u8) returns (outcome: S.Outcome)
      requires Valid()
      modifies this, cpuRegisters, callStack, mainMemory, videoMemory
      ensures Valid()
      ensures S.Transition(State(), outcome) == S.Step(old(State()), randomByte)
    {
      if programCounter + 1 >= S.RamSize {
        outcome := Halt(S.OutOfRange(S.Fetch));
        return;
      }
      ghost var fetched := old(State()).(opCode := S.FetchedOpCode(old(State())));
      opCode := mainMemory[programCounter] as int * 0x100 + mainMemory[programCounter + 1];
      assert State() == fetched;
      outcome := Dispatch(randomByte);
      cpuWait := true;
    }

    /** The run loop: reset, then tick and execute while running, one pass per input. */
    method Run(start: int, inputs: seq<S.Input>)
      requires Valid()
      modifies this, cpuRegisters, callStack, mainMemory, videoMemory
      ensures Valid()
      ensures State() == S.Run(old(State()), start, inputs)
    {
      Reset(start);
      isRunning := true;
      var k := 0;
      while isRunning && k < |inputs|
        invariant Valid()
        invariant 0 <= k <= |inputs|
        invariant S.RunLoop(State(), inputs[k..]) == S.Run(old(State()), start, inputs)
        decreases |inputs| - k
      {
        assert inputs[k..][1..] == inputs[k + 1..];
        var input := inputs[k];
        var displayUpdated := Tick(input.now, input.quitRequested);
        if !cpuWait {
          var outcome := Step(input.randomByte);
        }
        k := k + 1;
      }
    }
  }
}
