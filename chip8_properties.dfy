/** What the instruction set promises, stated about the transitions of
    `Chip8Spec` (and so, through the method contracts of `Chip8Machine.Chip8`,
    about the class). */
module Chip8Properties {
  import opened Words
  import opened Display
  import opened Chip8Spec

  // ---------------------------------------------------------------- ALU (8XYN)

  /** 8XY4 (ADD) with X and Y other than VF: VF is the carry out of the
      8-bit sum, so no bit of the true sum is lost; every other register keeps its value. */
  lemma AddCarries(v: seq<u8>, x: nat, y: nat)
    requires |v| == RegisterCount && x < Flag && y < Flag
    ensures Alu(v, x, y, 0x4).Some?
    ensures var r := Alu(v, x, y, 0x4).value;
            r[x] as int + 0x100 * (r[Flag] as int) == v[x] as int + v[y] && r[Flag] <= 1 &&
            forall k :: 0 <= k < RegisterCount && k != x && k != Flag ==> r[k] == v[k]
  {
  }

  /** 8XY5 (SUB) with X and Y other than VF: VF is 1 exactly when there is no
      borrow, and the result is the difference plus 256 on a borrow. */
  lemma SubtractBorrows(v: seq<u8>, x: nat, y: nat)
    requires |v| == RegisterCount && x < Flag && y < Flag
    ensures Alu(v, x, y, 0x5).Some?
    ensures var r := Alu(v, x, y, 0x5).value;
            (r[Flag] == 1 <==> v[x] >= v[y]) && r[Flag] <= 1 &&
            r[x] as int == v[x] as int - v[y] + 0x100 * (1 - r[Flag] as int) &&
            forall k :: 0 <= k < RegisterCount && k != x && k != Flag ==> r[k] == v[k]
  {
  }

  /** 8XY7 (RSB) with X and Y other than VF: the same, for VY - VX. */
  lemma ReverseSubtractBorrows(v: seq<u8>, x: nat, y: nat)
    requires |v| == RegisterCount && x < Flag && y < Flag
    ensures Alu(v, x, y, 0x7).Some?
    ensures var r := Alu(v, x, y, 0x7).value;
            (r[Flag] == 1 <==> v[y] >= v[x]) && r[Flag] <= 1 &&
            r[x] as int == v[y] as int - v[x] + 0x100 * (1 - r[Flag] as int) &&
            forall k :: 0 <= k < RegisterCount && k != x && k != Flag ==> r[k] == v[k]
  {
  }

  /** 8XY6 (SHR) and 8XYE (SHL) with X other than VF: VF receives the bit shifted
      out, so shifted value and flag together are the original value; no other
      register changes. */
  lemma ShiftsKeepShiftedOutBit(v: seq<u8>, x: nat, y: nat)
    requires |v| == RegisterCount && x < Flag && y < RegisterCount
    ensures Alu(v, x, y, 0x6).Some? && Alu(v, x, y, 0xE).Some?
    ensures var r := Alu(v, x, y, 0x6).value;
            2 * r[x] as int + r[Flag] == v[x] as int && r[Flag] <= 1 &&
            forall k :: 0 <= k < RegisterCount && k != x && k != Flag ==> r[k] == v[k]
    ensures var r := Alu(v, x, y, 0xE).value;
            r[x] as int + 0x100 * (r[Flag] as int) == 2 * v[x] as int && r[Flag] <= 1 &&
            forall k :: 0 <= k < RegisterCount && k != x && k != Flag ==> r[k] == v[k]
  {
  }

  /** 8XY0 to 8XY3 write VX only: VF and every other register keep their values,
      and 8XY0 copies VY. */
  lemma LogicKeepsFlag(v: seq<u8>, x: nat, y: nat, n: nat)
    requires |v| == RegisterCount && x < Flag && y < RegisterCount && n <= 0x3
    ensures Alu(v, x, y, n).Some?
    ensures var r := Alu(v, x, y, n).value;
            (forall k :: 0 <= k < RegisterCount && k != x ==> r[k] == v[k]) &&
            (n == 0x0 ==> r[x] == v[y])
  {
  }

  /** 8XY3 (XOR) twice with the same VY (Y other than X) gives VX back. */
  lemma XorTwiceRestores(v: seq<u8>, x: nat, y: nat)
    requires |v| == RegisterCount && x < RegisterCount && y < RegisterCount && x != y
    ensures Alu(v, x, y, 0x3).Some? && Alu(Alu(v, x, y, 0x3).value, x, y, 0x3).Some?
    ensures Alu(Alu(v, x, y, 0x3).value, x, y, 0x3).value == v
  {
    XorInvolution(v[x], v[y]);
    var twice := Alu(Alu(v, x, y, 0x3).value, x, y, 0x3).value;
    assert forall k :: 0 <= k < RegisterCount ==> twice[k] == v[k];
  }

  /** The flag is stored before the result: with X = VF the carry of 8XY4 is
      overwritten by the sum, which is computed from the carry itself. */
  lemma AddIntoFlagLosesCarry(v: seq<u8>, y: nat)
    requires |v| == RegisterCount && y < Flag
    ensures Alu(v, Flag, y, 0x4).Some?
    ensures var carry := if v[Flag] as int + v[y] > 255 then 1 else 0;
            Alu(v, Flag, y, 0x4).value[Flag] == (carry + v[y] as int) % 0x100
  {
  }

  /** The flag is stored before the result: with Y = VF the second operand of
      8XY4 is the fresh carry, not the old VF. */
  lemma AddFromFlagReadsCarry(v: seq<u8>, x: nat)
    requires |v| == RegisterCount && x < Flag
    ensures Alu(v, x, Flag, 0x4).Some?
    ensures var carry := if v[x] as int + v[Flag] > 255 then 1 else 0;
            Alu(v, x, Flag, 0x4).value[x] == (v[x] as int + carry) % 0x100 &&
            Alu(v, x, Flag, 0x4).value[Flag] == carry
  {
  }

  /** Which N the 8XYN switch knows. */
  predicate AluKnows(n: nat) {
    n <= 0x7 || n == 0xE
  }

  /** 8XYN halts exactly for the N it does not know, and then changes nothing but the run flag. */
  lemma AluHaltsOnUnknown(m: Machine)
    requires Valid(m)
    ensures Op0x8(m).outcome.Halted? <==> !AluKnows(Nibble(m.opCode))
    ensures !AluKnows(Nibble(m.opCode)) ==> Op0x8(m) == Halt(m, UnknownOpCode)
  {
  }

  // ---------------------------------------------------------------- Fetch and dispatch

  /** The fetched opcode is big-endian: the high byte at the program counter
      gives the family and X, the next byte gives NN, and NNN spans both. */
  lemma FetchIsBigEndian(m: Machine)
    requires Valid(m) && m.programCounter + 1 < RamSize
    ensures var op, hi, lo := FetchedOpCode(m), m.mainMemory[m.programCounter], m.mainMemory[m.programCounter + 1];
            Family(op) == hi / 0x10 && RegX(op) == hi % 0x10 && RegY(op) == lo / 0x10 &&
            Nibble(op) == lo % 0x10 && Byte(op) == lo && Address(op) == (hi as int) % 0x10 * 0x100 + lo
  {
    OpCodeFields(m.mainMemory[m.programCounter], m.mainMemory[m.programCounter + 1]);
  }

  /** The fields of the opcode with high byte `hi` and low byte `lo`. */
  lemma OpCodeFields(hi: u8, lo: u8)
    ensures var op: u16 := hi as int * 0x100 + lo;
            Family(op) == hi / 0x10 && RegX(op) == hi % 0x10 && RegY(op) == lo / 0x10 &&
            Nibble(op) == lo % 0x10 && Byte(op) == lo && Address(op) == (hi as int) % 0x10 * 0x100 + lo
  {
    var op: u16 := hi as int * 0x100 + lo;
    assert op / 0x100 == hi && op % 0x100 == lo;
    assert op / 0x10 == hi as int * 0x10 + lo / 0x10;
    assert op / 0x1000 == hi / 0x10;
    assert op % 0x1000 == (hi as int) % 0x10 * 0x100 + lo;
  }

  /** After an instruction is fetched the CPU gate is closed, whatever the
      instruction did: the next one waits for the next CPU tick. */
  lemma StepClosesGate(m: Machine, randomByte: u8)
    requires Valid(m) && m.programCounter + 1 < RamSize
    ensures Step(m, randomByte).next.cpuWait
    ensures Step(m, randomByte).next.opCode == FetchedOpCode(m)
    ensures Step(m, randomByte).outcome.Halted? ==>
              Step(m, randomByte).next == m.(opCode := FetchedOpCode(m), isRunning := false, cpuWait := true)
  {
  }

  /** A program counter whose two opcode bytes are not both in RAM stops the machine. */
  lemma FetchOutsideRamHalts(m: Machine, randomByte: u8)
    requires Valid(m) && m.programCounter + 1 >= RamSize
    ensures Step(m, randomByte).outcome == Halted(OutOfRange(Fetch))
    ensures Step(m, randomByte).next == m.(isRunning := false)
  {
  }

  /** One pass of the run loop executes at most one instruction: afterwards the
      gate is closed again, or the machine has stopped. */
  lemma IterateRunsAtMostOne(m: Machine, input: Input)
    requires Valid(m)
    ensures Iterate(m, input).cpuWait || !Iterate(m, input).isRunning
  {
  }

  /** The opcodes the handlers know; every other opcode of families 0, 8, E and F halts. */
  predicate KnownOpCode(op: u16) {
    var f, b := Family(op), Byte(op);
    if f == 0x0 then b == 0xE0 || b == 0xEE
    else if f == 0x8 then AluKnows(Nibble(op))
    else if f == 0xE then b == 0x9E || b == 0xA1
    else if f == 0xF then b in {0x07, 0x0A, 0x15, 0x18, 0x1E, 0x29, 0x33, 0x55, 0x65}
    else true
  }

  /** Dispatch halts as unknown exactly for the opcodes no handler knows, and
      then only the run flag changes: the program counter stays on the opcode. */
  lemma UnknownOpCodeHalts(m: Machine, randomByte: u8)
    requires Valid(m)
    ensures Dispatch(m, randomByte).outcome == Halted(UnknownOpCode) <==> !KnownOpCode(m.opCode)
    ensures !KnownOpCode(m.opCode) ==> Dispatch(m, randomByte).next == m.(isRunning := false)
  {
    var f := Family(m.opCode);
    if f == 0x0 {
      assert Dispatch(m, randomByte) == Op0x0(m);
    } else if f == 0x8 {
      assert Dispatch(m, randomByte) == Op0x8(m);
      AluHaltsOnUnknown(m);
    } else if f == 0xD {
      assert Dispatch(m, randomByte) == Op0xD(m);
    } else if f == 0xE {
      assert Dispatch(m, randomByte) == Op0xE(m);
    } else if f == 0xF {
      assert Dispatch(m, randomByte) == Op0xF(m);
    }
  }

  // ---------------------------------------------------------------- Reset and Tick

  /** Reset puts the program counter at the program start and clears I, the
      stack pointer, the opcode, both timers, the gate, all registers, the whole
      stack and the screen; RAM and the run flag are kept. */
  lemma ResetClears(m: Machine, now: int)
    requires Valid(m)
    ensures var r := Reset(m, now);
            r.programCounter == 0x200 && r.addressRegister == 0 && r.stackPointer == 0 &&
            r.opCode == 0 && r.delayTimer == 0 && r.soundTimer == 0 && !r.cpuWait &&
            (forall k :: 0 <= k < RegisterCount ==> r.cpuRegisters[k] == 0) &&
            (forall k :: 0 <= k < StackDepth ==> r.callStack[k] == 0) &&
            (forall j :: 0 <= j < VramSize ==> r.videoMemory[j] == 0) &&
            Monochrome(r.videoMemory) &&
            r.mainMemory == m.mainMemory && r.isRunning == m.isRunning
  {
    BlankIsMonochrome();
  }

  /** A display tick lowers each timer by one unless it is already zero, so
      the timers never wrap; without a display tick they, the run flag and the
      display clock are untouched. A CPU tick opens the gate; otherwise the
      gate is as it was. A tick never restarts a stopped machine. */
  lemma TickCountsDown(m: Machine, now: int, quitRequested: bool)
    ensures var r := Tick(m, now, quitRequested);
            (Elapsed(now, m.lastTick) >= DisplayPeriod ==>
               r.soundTimer <= m.soundTimer && r.delayTimer <= m.delayTimer &&
               (m.soundTimer > 0 ==> r.soundTimer == m.soundTimer - 1) &&
               (m.delayTimer > 0 ==> r.delayTimer == m.delayTimer - 1) &&
               r.lastTick == now && (r.isRunning <==> m.isRunning && !quitRequested)) &&
            (Elapsed(now, m.lastTick) < DisplayPeriod ==>
               r.soundTimer == m.soundTimer && r.delayTimer == m.delayTimer &&
               r.isRunning == m.isRunning && r.lastTick == m.lastTick) &&
            (Elapsed(now, m.lastCpuTick) >= CpuPeriod ==> !r.cpuWait && r.lastCpuTick == now) &&
            (Elapsed(now, m.lastCpuTick) < CpuPeriod ==> r.cpuWait == m.cpuWait && r.lastCpuTick == m.lastCpuTick)
  {
  }

  /** A clock reading up to 65536 µs earlier than both last ticks (the clock
      went back) wraps to an elapsed time near 2^32 in the 32-bit `uint`, so
      both cadences fire at once: the timers count down and the gate opens. */
  lemma ClockBackwardsFiresBoth(m: Machine, now: int, quitRequested: bool)
    requires m.lastTick - 0x1_0000 <= now < m.lastTick
    requires m.lastCpuTick - 0x1_0000 <= now < m.lastCpuTick
    ensures Elapsed(now, m.lastTick) == now - m.lastTick + 0x1_0000_0000
    ensures var r := Tick(m, now, quitRequested);
            r.delayTimer == CountDown(m.delayTimer) && r.soundTimer == CountDown(m.soundTimer) &&
            !r.cpuWait && r.lastTick == now && r.lastCpuTick == now
  {
    var d := Elapsed(now, m.lastTick);
    assert (now - m.lastTick - d) / 0x1_0000_0000 == -1;
    var c := Elapsed(now, m.lastCpuTick);
    assert (now - m.lastCpuTick - c) / 0x1_0000_0000 == -1;
  }

  /** A timer after `k` display ticks. */
  function CountDowns(t: u8, k: nat): (r: u8)
    ensures r <= t
  {
    if k == 0 then t else CountDown(CountDowns(t, k - 1))
  }

  /** After `k` display ticks a timer that started at `t` reads `t - k`, or 0
      once it has run out: it stops at zero instead of wrapping to 255. */
  lemma {:induction false} CountDownsSaturate(t: u8, k: nat)
    ensures CountDowns(t, k) == if k <= t then t - k else 0
  {
    if k > 0 {
      CountDownsSaturate(t, k - 1);
    }
  }

  // ---------------------------------------------------------------- Jumps, skips and loads

  /** 1NNN sets the program counter to NNN, within RAM; BNNN adds V0 to NNN
      without reducing the sum to 12 bits. Neither touches anything else. */
  lemma JumpsSetProgramCounter(m: Machine)
    requires Valid(m)
    ensures Op0x1(m).next.programCounter == Address(m.opCode) < RamSize
    ensures Op0xB(m).next.programCounter == Address(m.opCode) + m.cpuRegisters[0] <= 0xFFF + 0xFF
    ensures Op0x1(m).next == m.(programCounter := Op0x1(m).next.programCounter)
    ensures Op0xB(m).next == m.(programCounter := Op0xB(m).next.programCounter)
  {
  }

  /** BFFF with V0 = 255 jumps to 0x10FE, past the end of RAM, and the next fetch halts. */
  lemma IndexedJumpLeavesRam(m: Machine, randomByte: u8)
    requires Valid(m) && m.opCode == 0xBFFF && m.cpuRegisters[0] == 0xFF
    ensures Op0xB(m).next.programCounter == 0x10FE
    ensures Step(Op0xB(m).next, randomByte).outcome == Halted(OutOfRange(Fetch))
  {
  }

  /** 3XNN skips the next instruction exactly when VX == NN and 4XNN exactly
      when VX != NN, so one of the two skips; only the program counter moves. */
  lemma ImmediateSkips(m: Machine)
    requires Valid(m)
    ensures var x, nn := RegX(m.opCode), Byte(m.opCode);
            Op0x3(m).next.programCounter == Wrap16(m.programCounter + (if m.cpuRegisters[x] == nn then 4 else 2)) &&
            Op0x4(m).next.programCounter == Wrap16(m.programCounter + (if m.cpuRegisters[x] != nn then 4 else 2)) &&
            Op0x3(m).next.programCounter != Op0x4(m).next.programCounter
    ensures Op0x3(m).next == m.(programCounter := Op0x3(m).next.programCounter)
    ensures Op0x4(m).next == m.(programCounter := Op0x4(m).next.programCounter)
  {
  }

  /** 5XY? skips exactly when VX == VY and 9XY? exactly when VX != VY; only the program counter moves. */
  lemma RegisterSkips(m: Machine)
    requires Valid(m)
    ensures var vx, vy := m.cpuRegisters[RegX(m.opCode)], m.cpuRegisters[RegY(m.opCode)];
            Op0x5(m).next.programCounter == Wrap16(m.programCounter + (if vx == vy then 4 else 2)) &&
            Op0x9(m).next.programCounter == Wrap16(m.programCounter + (if vx != vy then 4 else 2)) &&
            Op0x5(m).next.programCounter != Op0x9(m).next.programCounter
    ensures Op0x5(m).next == m.(programCounter := Op0x5(m).next.programCounter)
    ensures Op0x9(m).next == m.(programCounter := Op0x9(m).next.programCounter)
  {
  }

  /** The opcode with its low nibble replaced by `n`. */
  function WithNibble(op: u16, n: nat): (r: u16)
    requires n < 0x10
    ensures Nibble(r) == n && Family(r) == Family(op) && RegX(r) == RegX(op) && RegY(r) == RegY(op)
  {
    op / 0x10 * 0x10 + n
  }

  /** 5XY? and 9XY? do not examine their low nibble: 5XY1 behaves as 5XY0. */
  lemma RegisterSkipsIgnoreLowNibble(m: Machine, n: nat)
    requires Valid(m) && n < 0x10
    ensures Op0x5(m.(opCode := WithNibble(m.opCode, n))).next.programCounter == Op0x5(m).next.programCounter
    ensures Op0x9(m.(opCode := WithNibble(m.opCode, n))).next.programCounter == Op0x9(m).next.programCounter
  {
  }

  /** CXNN stores the random byte masked with NN: VX is at most NN (and at
      most the random byte), and nothing else but the program counter changes. */
  lemma RandomIsMasked(m: Machine, randomByte: u8)
    requires Valid(m)
    ensures var x, n := RegX(m.opCode), Op0xC(m, randomByte).next;
            n.cpuRegisters[x] == And8(randomByte, Byte(m.opCode)) &&
            n.cpuRegisters[x] <= Byte(m.opCode) && n.cpuRegisters[x] <= randomByte &&
            n == m.(cpuRegisters := m.cpuRegisters[x := n.cpuRegisters[x]],
                    programCounter := Wrap16(m.programCounter + 2))
  {
    AndBounded(randomByte, Byte(m.opCode));
  }

  /** 6XNN sets VX to NN, 7XNN adds NN to VX modulo 256 without touching VF
      (unless X is F), ANNN sets I to NNN; each changes nothing else but the
      program counter, which moves on by 2. */
  lemma LoadsSetOnlyTheirTarget(m: Machine)
    requires Valid(m)
    ensures var x, nn, v := RegX(m.opCode), Byte(m.opCode), m.cpuRegisters;
            var six, seven := Op0x6(m).next, Op0x7(m).next;
            six.cpuRegisters[x] == nn && seven.cpuRegisters[x] == (v[x] + nn) % 0x100 &&
            (forall k :: 0 <= k < RegisterCount && k != x ==>
               six.cpuRegisters[k] == v[k] && seven.cpuRegisters[k] == v[k]) &&
            six == m.(cpuRegisters := six.cpuRegisters, programCounter := Wrap16(m.programCounter + 2)) &&
            seven == m.(cpuRegisters := seven.cpuRegisters, programCounter := Wrap16(m.programCounter + 2))
    ensures Op0xA(m).next == m.(addressRegister := Address(m.opCode), programCounter := Wrap16(m.programCounter + 2))
  {
  }

  // ---------------------------------------------------------------- Calls and returns

  /** 2NNN with the stack pointer at 15 halts with nothing changed but the run
      flag; below 15 it stores the address after the call in the free stack
      slot, leaves the other slots alone, bumps the stack pointer and jumps. */
  lemma CallPushesReturnAddress(m: Machine)
    requires Valid(m)
    ensures m.stackPointer == 15 ==> Op0x2(m) == Halt(m, StackOverflow)
    ensures m.stackPointer < 15 ==>
              var n, sp := Op0x2(m).next, m.stackPointer;
              Op0x2(m).outcome == Executed &&
              n.stackPointer == sp + 1 && n.programCounter == Address(m.opCode) &&
              n.callStack[sp] == Wrap16(m.programCounter + 2) &&
              (forall k :: 0 <= k < StackDepth && k != sp ==> n.callStack[k] == m.callStack[k]) &&
              n == m.(stackPointer := n.stackPointer, programCounter := n.programCounter, callStack := n.callStack)
  {
  }

  /** 00EE with an empty stack halts with nothing changed but the run flag;
      otherwise it pops the top slot and continues 2 bytes after the address stored there. */
  lemma ReturnPopsAddress(m: Machine)
    requires Valid(m) && Family(m.opCode) == 0x0 && Byte(m.opCode) == 0xEE
    ensures m.stackPointer == 0 ==> Op0x0(m) == Halt(m, NoSubroutine)
    ensures m.stackPointer > 0 ==>
              var n, sp := Op0x0(m).next, m.stackPointer - 1;
              Op0x0(m).outcome == Executed && n.stackPointer == sp &&
              n.programCounter == Wrap16(m.callStack[sp] as int + 2) &&
              n == m.(stackPointer := sp, programCounter := n.programCounter)
  {
  }

  /** A call at address P followed by a return resumes at P + 4, the stored
      return address plus the 2 that 00EE adds: the instruction right after
      the call is skipped. The stack pointer is back where it was. */
  lemma CallThenReturnSkipsOne(m: Machine, ret: u16)
    requires Valid(m) && m.stackPointer < 15
    requires Family(ret) == 0x0 && Byte(ret) == 0xEE
    ensures var called := Op0x2(m).next;
            var back := Op0x0(called.(opCode := ret));
            back.outcome == Executed &&
            back.next.programCounter == Wrap16(m.programCounter + 4) &&
            back.next.stackPointer == m.stackPointer
  {
  }

  /** `k` calls in a row, stopping at the first one that halts. */
  function Calls(m: Machine, k: nat): (t: Transition)
    requires Valid(m)
    ensures Valid(t.next)
  {
    if k == 0 then Transition(m, Executed)
    else
      var t := Calls(m, k - 1);
      if t.outcome.Halted? then t else Op0x2(t.next)
  }

  /** From stack pointer `sp`, up to 15 - sp nested calls succeed, each one
      level deeper. */
  lemma {:induction false} NestedCallsSucceed(m: Machine, k: nat)
    requires Valid(m) && m.stackPointer + k <= 15
    ensures Calls(m, k).outcome == Executed && Calls(m, k).next.stackPointer == m.stackPointer + k
  {
    if k > 0 {
      NestedCallsSucceed(m, k - 1);
    }
  }

  /** The call after those overflows: at most 15 calls can be nested, and slot
      15 of the 16-entry stack is never written. */
  lemma NestingIsBounded(m: Machine, k: nat)
    requires Valid(m) && m.stackPointer + k == 16
    ensures Calls(m, k).outcome == Halted(StackOverflow)
  {
    NestedCallsSucceed(m, k - 1);
    var t := Calls(m, k - 1);
    assert t.next.stackPointer == 15;
    assert Op0x2(t.next).outcome == Halted(StackOverflow);
  }

  // ---------------------------------------------------------------- Sprites (DXYN)

  /** DXYN runs exactly when its sprite bytes are in RAM and every pixel it
      visits is on the screen. It then leaves RAM, I, the stack and every
      register but VF alone, sets VF to 0 or 1, and moves on by 2. */
  lemma SpriteEffect(m: Machine)
    requires Valid(m)
    ensures Op0xD(m).outcome == Executed <==>
              SpriteReadable(m) &&
              SpriteOnScreen(SpriteRows(m), m.cpuRegisters[RegX(m.opCode)], m.cpuRegisters[RegY(m.opCode)])
    ensures Op0xD(m).outcome == Executed ==>
              var n := Op0xD(m).next;
              n.cpuRegisters[Flag] <= 1 &&
              (forall k :: 0 <= k < Flag ==> n.cpuRegisters[k] == m.cpuRegisters[k]) &&
              n == m.(videoMemory := n.videoMemory, cpuRegisters := n.cpuRegisters,
                      programCounter := Wrap16(m.programCounter + 2))
  {
  }

  /** Every pixel of a screen that DXYN draws on stays all black or all white. */
  lemma SpriteKeepsMonochrome(m: Machine)
    requires Valid(m) && Monochrome(m.videoMemory)
    ensures Monochrome(Op0xD(m).next.videoMemory)
  {
    if SpriteReadable(m) {
      var rows, x, y := SpriteRows(m), m.cpuRegisters[RegX(m.opCode)], m.cpuRegisters[RegY(m.opCode)];
      if SpriteOnScreen(rows, x, y) {
        SpriteIsPlots(m.videoMemory, rows, x, y);
        RowsOnScreen(rows, x, y);
        DrawPreservesMonochrome(m.videoMemory, Plots(rows, x, y), 8 * |rows|);
      }
    }
  }

  /** Drawing the same sprite a second time (X and Y other than VF, so the
      position survives the flag write) erases it: the screen is as before. */
  lemma SpriteTwiceRestores(m: Machine)
    requires Valid(m) && Monochrome(m.videoMemory) && Op0xD(m).outcome == Executed
    requires RegX(m.opCode) != Flag && RegY(m.opCode) != Flag
    ensures Op0xD(Op0xD(m).next).outcome == Executed
    ensures Op0xD(Op0xD(m).next).next.videoMemory == m.videoMemory
  {
    var rows, x, y := SpriteRows(m), m.cpuRegisters[RegX(m.opCode)], m.cpuRegisters[RegY(m.opCode)];
    var ps := Plots(rows, x, y);
    SpriteIsPlots(m.videoMemory, rows, x, y);
    RowsOnScreen(rows, x, y);
    DrawTwiceRestores(m.videoMemory, ps);
    var once := Op0xD(m).next;
    assert SpriteRows(once) == rows;
    assert once.cpuRegisters[RegX(m.opCode)] == x && once.cpuRegisters[RegY(m.opCode)] == y;
    SpriteIsPlots(once.videoMemory, rows, x, y);
  }

  /** For a sprite that fits on the screen without wrapping, VF ends up 1
      exactly when some set bit of the sprite lands on a pixel that was on:
      bit `c` (most significant first) of row `r` is drawn at
      `(VX + c, VY + r)`. */
  lemma SpriteCollisionDetectsOverlap(m: Machine)
    requires Valid(m) && Monochrome(m.videoMemory) && SpriteReadable(m)
    requires m.cpuRegisters[RegX(m.opCode)] + 8 <= ScreenWidth
    requires m.cpuRegisters[RegY(m.opCode)] + Nibble(m.opCode) <= ScreenHeight
    ensures Op0xD(m).outcome == Executed
    ensures var rows, x, y := SpriteRows(m), m.cpuRegisters[RegX(m.opCode)], m.cpuRegisters[RegY(m.opCode)];
            Op0xD(m).next.cpuRegisters[Flag] == 1 <==>
              exists r, c :: 0 <= r < |rows| && 0 <= c < 8 && SpriteBit(rows[r], c) &&
                             Lit(m.videoMemory, 64 * (y + r) + x + c)
  {
    var rows, x, y := SpriteRows(m), m.cpuRegisters[RegX(m.opCode)], m.cpuRegisters[RegY(m.opCode)];
    CollisionUnwrapped(m.videoMemory, rows, x, y);
  }

  /** For every sprite DXYN draws, wrapped by the `> 64` and `> 32` tests or
      not, VF ends up 1 exactly when some set bit of the sprite lands on a
      pixel that was on: a sprite of at most 15 rows visits no pixel twice. */
  lemma SpriteCollisionDetectsHits(m: Machine)
    requires Valid(m) && Monochrome(m.videoMemory) && SpriteReadable(m) && Op0xD(m).outcome == Executed
    ensures var ps := Plots(SpriteRows(m), m.cpuRegisters[RegX(m.opCode)], m.cpuRegisters[RegY(m.opCode)]);
            Op0xD(m).next.cpuRegisters[Flag] == 1 <==> exists k :: 0 <= k < |ps| && Hits(m.videoMemory, ps[k])
  {
    var rows, x, y := SpriteRows(m), m.cpuRegisters[RegX(m.opCode)], m.cpuRegisters[RegY(m.opCode)];
    CollisionDetectsHits(m.videoMemory, rows, x, y);
  }

  // ---------------------------------------------------------------- Keys (EX??)

  /** Key state is never read: EX9E (SKPR) never skips and EXA1 (SKUP) always
      does, whatever X names; nothing else changes. */
  lemma KeySkipsAreStubs(m: Machine)
    requires Valid(m)
    ensures Byte(m.opCode) == 0x9E ==>
              Op0xE(m) == Transition(m.(programCounter := Wrap16(m.programCounter + 2)), Executed)
    ensures Byte(m.opCode) == 0xA1 ==>
              Op0xE(m) == Transition(m.(programCounter := Wrap16(m.programCounter + 4)), Executed)
  {
  }

  // ---------------------------------------------------------------- FX??

  /** Every FX?? that does not halt moves on by 2; FX0A (wait for a key) does
      nothing else, so it never waits. */
  lemma MiscAdvancesByTwo(m: Machine)
    requires Valid(m)
    ensures Op0xF(m).outcome == Executed ==> Op0xF(m).next.programCounter == Wrap16(m.programCounter + 2)
    ensures Byte(m.opCode) == 0x0A ==> Op0xF(m).next == m.(programCounter := Wrap16(m.programCounter + 2))
  {
  }

  /** FX07 copies the delay timer into VX; FX15 and FX18 copy VX into the delay
      and sound timers. Nothing else changes but the program counter. */
  lemma TimerTransfers(m: Machine)
    requires Valid(m)
    ensures var x, t, pc := RegX(m.opCode), Op0xF(m), Wrap16(m.programCounter + 2);
            (Byte(m.opCode) == 0x07 ==>
               t.outcome == Executed && t.next == m.(cpuRegisters := m.cpuRegisters[x := m.delayTimer], programCounter := pc)) &&
            (Byte(m.opCode) == 0x15 ==>
               t.outcome == Executed && t.next == m.(delayTimer := m.cpuRegisters[x], programCounter := pc)) &&
            (Byte(m.opCode) == 0x18 ==>
               t.outcome == Executed && t.next == m.(soundTimer := m.cpuRegisters[x], programCounter := pc))
  {
  }

  /** FX1E adds VX to I modulo 65536: I goes down exactly when the sum
      overflows 16 bits. FX29 points I at glyph VX of the font, 5 bytes per
      glyph; the whole of VX is used, so VX above 15 points past the 16 glyphs.
      Neither changes anything else but the program counter. */
  lemma IndexArithmetic(m: Machine)
    requires Valid(m)
    ensures var i, vx := m.addressRegister, m.cpuRegisters[RegX(m.opCode)];
            (Byte(m.opCode) == 0x1E ==>
               var j := Op0xF(m).next.addressRegister;
               j == (i + vx) % 0x1_0000 && (j < i <==> i + vx >= 0x1_0000) &&
               Op0xF(m) == Transition(m.(addressRegister := j, programCounter := Wrap16(m.programCounter + 2)), Executed)) &&
            (Byte(m.opCode) == 0x29 ==>
               var j := Op0xF(m).next.addressRegister;
               j == FontStartAddress + GlyphSize * vx && (vx >= 16 ==> j >= 16 * GlyphSize) &&
               Op0xF(m) == Transition(m.(addressRegister := j, programCounter := Wrap16(m.programCounter + 2)), Executed))
  {
  }

  /** FX33 stores the three decimal digits of VX at I, I + 1 and I + 2, most
      significant first, and changes nothing else but the program counter; it
      halts when I + 2 is outside RAM. */
  lemma BcdStoresDigits(m: Machine)
    requires Valid(m) && Byte(m.opCode) == 0x33
    ensures Op0xF(m).outcome.Halted? <==> m.addressRegister + 2 >= RamSize
    ensures Op0xF(m).outcome == Executed ==>
              var i, r, vx := m.addressRegister, Op0xF(m).next.mainMemory, m.cpuRegisters[RegX(m.opCode)];
              r[i] <= 9 && r[i + 1] <= 9 && r[i + 2] <= 9 &&
              100 * r[i] + 10 * r[i + 1] + r[i + 2] == vx &&
              (forall j :: 0 <= j < RamSize && !(i <= j <= i + 2) ==> r[j] == m.mainMemory[j]) &&
              Op0xF(m).next == m.(mainMemory := r, programCounter := Wrap16(m.programCounter + 2))
  {
  }

  /** FX55 followed by FX65 with the same X and I gives back every register:
      V0..VX come back from RAM at 0x200 + I, the rest were never touched. FX55
      changes only that block of RAM and the program counter; I is unchanged by both. */
  lemma RegisterBlockRoundTrip(m: Machine)
    requires Valid(m) && Byte(m.opCode) == 0x55 && Op0xF(m).outcome == Executed
    ensures m.opCode + 0x10 < 0x1_0000 && Byte(m.opCode + 0x10) == 0x65 && RegX(m.opCode + 0x10) == RegX(m.opCode)
    ensures var stored := Op0xF(m).next;
            var loaded := Op0xF(stored.(opCode := m.opCode + 0x10));
            (forall k :: 0 <= k <= RegX(m.opCode) ==> stored.mainMemory[BlockBase(m) + k] == m.cpuRegisters[k]) &&
            (forall j :: 0 <= j < RamSize && !(BlockBase(m) <= j <= BlockBase(m) + RegX(m.opCode)) ==>
               stored.mainMemory[j] == m.mainMemory[j]) &&
            stored == m.(mainMemory := stored.mainMemory, programCounter := Wrap16(m.programCounter + 2)) &&
            loaded.outcome == Executed &&
            loaded.next.cpuRegisters == m.cpuRegisters &&
            loaded.next.addressRegister == m.addressRegister
  {
    var stored := Op0xF(m).next;
    var load := stored.(opCode := m.opCode + 0x10);
    var v := LoadRegisters(stored.cpuRegisters, stored.mainMemory, BlockBase(load), RegX(load.opCode));
    assert forall k :: 0 <= k < RegisterCount ==> v[k] == m.cpuRegisters[k];
  }

  // ---------------------------------------------------------------- Whole runs

  /** No instruction leaves a pixel half lit: CLS blanks the screen, DXYN
      writes whole pixels, every other instruction leaves the screen alone. */
  lemma DispatchKeepsMonochrome(m: Machine, randomByte: u8)
    requires Valid(m) && Monochrome(m.videoMemory)
    ensures Monochrome(Dispatch(m, randomByte).next.videoMemory)
  {
    var f := Family(m.opCode);
    if f == 0x0 {
      BlankIsMonochrome();
    } else if f == 0xD {
      SpriteKeepsMonochrome(m);
    } else {
      assert Dispatch(m, randomByte).next.videoMemory == m.videoMemory;
    }
  }

  /** Neither a tick nor an executed instruction leaves a pixel half lit. */
  lemma IterateKeepsMonochrome(m: Machine, input: Input)
    requires Valid(m) && Monochrome(m.videoMemory)
    ensures Monochrome(Iterate(m, input).videoMemory)
  {
    var ticked := Tick(m, input.now, input.quitRequested);
    if !ticked.cpuWait && ticked.programCounter + 1 < RamSize {
      DispatchKeepsMonochrome(ticked.(opCode := FetchedOpCode(ticked)), input.randomByte);
    }
  }

  /** The run loop keeps every pixel all black or all white. */
  lemma {:induction false} RunLoopKeepsMonochrome(m: Machine, inputs: seq<Input>)
    requires Valid(m) && Monochrome(m.videoMemory)
    ensures Monochrome(RunLoop(m, inputs).videoMemory)
    decreases |inputs|
  {
    if m.isRunning && inputs != [] {
      IterateKeepsMonochrome(m, inputs[0]);
      RunLoopKeepsMonochrome(Iterate(m, inputs[0]), inputs[1..]);
    }
  }

  /** Whatever was on the screen before, a run starts from a blank screen and
      every pixel stays all black or all white for the whole run. */
  lemma RunShowsOnlyWholePixels(m: Machine, start: int, inputs: seq<Input>)
    requires Valid(m)
    ensures Monochrome(Run(m, start, inputs).videoMemory)
  {
    ResetClears(m, start);
    RunLoopKeepsMonochrome(Reset(m, start).(isRunning := true), inputs);
  }

  /** The program 6005 7003 at the program start: after its two instructions
      V0 is 8 and the program counter is at 0x204. */
  lemma LoadThenAddScenario(m: Machine, randomByte: u8)
    requires Valid(m) && m.programCounter == ProgramStartAddress
    requires m.mainMemory[0x200..0x204] == [0x60, 0x05, 0x70, 0x03]
    ensures var first := Step(m, randomByte).next;
            var second := Step(first.(cpuWait := false), randomByte).next;
            second.cpuRegisters[0] == 8 && second.programCounter == 0x204 && second.cpuWait
  {
    assert m.mainMemory[0x200] == 0x60 && m.mainMemory[0x201] == 0x05;
    var first := Step(m, randomByte).next;
    assert FetchedOpCode(m) == 0x6005;
    assert first.cpuRegisters[0] == 5 && first.programCounter == 0x202;
    assert first.mainMemory[0x202] == 0x70 && first.mainMemory[0x203] == 0x03;
    assert FetchedOpCode(first.(cpuWait := false)) == 0x7003;
  }
}
