/** The CHIP-8 interpreter state and the semantics of every instruction, as
    pure functions from one machine state to the next. `Chip8Machine.Chip8`
    runs the same transitions in place on arrays and is proved against these
    functions; the properties of the instruction set are lemmas about them
    (module `Chip8Properties`). */
module Chip8Spec {
  import opened Words
  import opened Display

  /** `Chip8::RAM` is `uint8[4096]`. */
  const RamSize := 4096
  const RegisterCount := 16
  const StackDepth := 16
  /** VF, the flag register. */
  const Flag := 0xF
  const FontStartAddress: u16 := 0x000
  const ProgramStartAddress: u16 := 0x200
  /** Each font glyph is 5 bytes (8x5 pixels). */
  const GlyphSize := 5
  /** Microseconds between two display updates / timer decrements (about 60 Hz). */
  const DisplayPeriod := 16000
  /** Microseconds between two instructions (about 500 Hz). */
  const CpuPeriod := 2000

  datatype Option<T> = None | Some(value: T)

  /** The memory accesses the source performs without a bounds check. */
  datatype Access = Fetch | SpriteRead | SpriteDraw | BcdStore | RegisterStore | RegisterLoad

  /** Why the machine stopped: the three conditions the source halts on, and
      an access outside RAM or VRAM, which the source leaves undefined. */
  datatype HaltReason = UnknownOpCode | StackOverflow | NoSubroutine | OutOfRange(access: Access)

  datatype Outcome = Executed | Halted(reason: HaltReason)

  /** The fields of class `Chip8`, with RAM and VRAM as the byte sequences they point to. */
  datatype Machine = Machine(
    addressRegister: u16,
    cpuRegisters: seq<u8>,
    cpuWait: bool,
    lastCpuTick: int,
    mainMemory: seq<u8>,
    videoMemory: seq<u8>,
    isRunning: bool,
    programCounter: u16,
    stackPointer: u8,
    callStack: seq<u16>,
    opCode: u16,
    delayTimer: u8,
    soundTimer: u8,
    lastTick: int)

  /** The sizes fixed by the class declaration, and the stack pointer within the 16-entry stack. */
  predicate Valid(m: Machine) {
    |m.mainMemory| == RamSize && |m.videoMemory| == VramSize &&
    |m.cpuRegisters| == RegisterCount && |m.callStack| == StackDepth &&
    m.stackPointer < StackDepth
  }

  /** The state after an instruction and what became of it. */
  datatype Transition = Transition(next: Machine, outcome: Outcome)

  /** A halt changes nothing but the run flag: the program counter stays on the failing instruction. */
  predicate HaltOnlyStops(m: Machine, t: Transition) {
    t.outcome.Halted? ==> t.next == m.(isRunning := false)
  }

  // Opcode fields: [family][X][Y][N], [family][NNN] or [family][X][NN].

  /** `opCode >> 12`, the index into the 16-entry operations table. */
  function Family(op: u16): (f: nat)
    ensures f < 16
  {
    op / 0x1000
  }

  function RegX(op: u16): (x: nat)
    ensures x < RegisterCount
  {
    op / 0x100 % 0x10
  }

  function RegY(op: u16): (y: nat)
    ensures y < RegisterCount
  {
    op / 0x10 % 0x10
  }

  function Nibble(op: u16): nat {
    op % 0x10
  }

  function Byte(op: u16): u8 {
    op % 0x100
  }

  function Address(op: u16): u16 {
    op % 0x1000
  }

  /** Continue with the program counter advanced by `k` bytes (`programCounter += k` on a `uint16`). */
  function Advance(m: Machine, k: nat): Transition {
    Transition(m.(programCounter := Wrap16(m.programCounter + k)), Executed)
  }

  /** `Chip8::Halt`, without its message: only `isRunning` is cleared. */
  function Halt(m: Machine, reason: HaltReason): Transition {
    Transition(m.(isRunning := false), Halted(reason))
  }

  /** 00E0 (CLS) and 00EE (RTS); any other low byte halts. */
  function Op0x0(m: Machine): (t: Transition)
    requires Valid(m)
    ensures Valid(t.next) && HaltOnlyStops(m, t)
  {
    var b := Byte(m.opCode);
    if b == 0xE0 then
      Advance(m.(videoMemory := Blank()), 2)
    else if b == 0xEE then
      if m.stackPointer == 0 then Halt(m, NoSubroutine)
      else
        var sp := m.stackPointer - 1;
        Advance(m.(stackPointer := sp, programCounter := m.callStack[sp]), 2)
    else
      Halt(m, UnknownOpCode)
  }

  /** 1NNN (JMP). */
  function Op0x1(m: Machine): (t: Transition)
    requires Valid(m)
    ensures Valid(t.next) && HaltOnlyStops(m, t)
  {
    Transition(m.(programCounter := Address(m.opCode)), Executed)
  }

  /** 2NNN (JSR): pushes the address of the next instruction; halts when the stack pointer is 15. */
  function Op0x2(m: Machine): (t: Transition)
    requires Valid(m)
    ensures Valid(t.next) && HaltOnlyStops(m, t)
  {
    if m.stackPointer == 15 then Halt(m, StackOverflow)
    else
      Transition(m.(callStack := m.callStack[m.stackPointer := Wrap16(m.programCounter + 2)],
                    stackPointer := m.stackPointer + 1,
                    programCounter := Address(m.opCode)), Executed)
  }

  /** 3XNN (SKEQ immediate). */
  function Op0x3(m: Machine): (t: Transition)
    requires Valid(m)
    ensures Valid(t.next) && HaltOnlyStops(m, t)
  {
    Advance(m, if m.cpuRegisters[RegX(m.opCode)] == Byte(m.opCode) then 4 else 2)
  }

  /** 4XNN (SKNE immediate). */
  function Op0x4(m: Machine): (t: Transition)
    requires Valid(m)
    ensures Valid(t.next) && HaltOnlyStops(m, t)
  {
    Advance(m, if m.cpuRegisters[RegX(m.opCode)] != Byte(m.opCode) then 4 else 2)
  }

  /** 5XY? (SKEQ registers); the low nibble is not examined. */
  function Op0x5(m: Machine): (t: Transition)
    requires Valid(m)
    ensures Valid(t.next) && HaltOnlyStops(m, t)
  {
    Advance(m, if m.cpuRegisters[RegX(m.opCode)] == m.cpuRegisters[RegY(m.opCode)] then 4 else 2)
  }

  /** 6XNN (MOV immediate). */
  function Op0x6(m: Machine): (t: Transition)
    requires Valid(m)
    ensures Valid(t.next) && HaltOnlyStops(m, t)
  {
    Advance(m.(cpuRegisters := m.cpuRegisters[RegX(m.opCode) := Byte(m.opCode)]), 2)
  }

  /** 7XNN (ADD immediate), wrapping at 256, no flag. */
  function Op0x7(m: Machine): (t: Transition)
    requires Valid(m)
    ensures Valid(t.next) && HaltOnlyStops(m, t)
  {
    var x := RegX(m.opCode);
    Advance(m.(cpuRegisters := m.cpuRegisters[x := Wrap8(m.cpuRegisters[x] + Byte(m.opCode))]), 2)
  }

  /** The registers after 8XYN, or None for an unknown N. Where a flag is
      produced it is written to VF first, and the result is then computed
      from the registers as they are after that write. */
  function Alu(v: seq<u8>, x: nat, y: nat, n: nat): (r: Option<seq<u8>>)
    requires |v| == RegisterCount && x < RegisterCount && y < RegisterCount
    ensures r.Some? ==> |r.value| == RegisterCount
  {
    if n == 0x0 then Some(v[x := v[y]])
    else if n == 0x1 then Some(v[x := Or8(v[x], v[y])])
    else if n == 0x2 then Some(v[x := And8(v[x], v[y])])
    else if n == 0x3 then Some(v[x := Xor8(v[x], v[y])])
    else if n == 0x4 then
      var w := v[Flag := if v[x] as int + v[y] > 255 then 1 else 0];
      Some(w[x := Wrap8(w[x] + w[y])])
    else if n == 0x5 then
      var w := v[Flag := if v[x] < v[y] then 0 else 1];
      Some(w[x := Wrap8(w[x] - w[y])])
    else if n == 0x6 then
      var w := v[Flag := v[x] % 2];
      Some(w[x := w[x] / 2])
    else if n == 0x7 then
      var w := v[Flag := if v[y] < v[x] then 0 else 1];
      Some(w[x := Wrap8(w[y] - w[x])])
    else if n == 0xE then
      var w := v[Flag := v[x] / 128];
      Some(w[x := Wrap8(w[x] * 2)])
    else None
  }

  /** 8XYN (register ALU); an unknown N halts. */
  function Op0x8(m: Machine): (t: Transition)
    requires Valid(m)
    ensures Valid(t.next) && HaltOnlyStops(m, t)
  {
    match Alu(m.cpuRegisters, RegX(m.opCode), RegY(m.opCode), Nibble(m.opCode))
    case None => Halt(m, UnknownOpCode)
    case Some(v) => Advance(m.(cpuRegisters := v), 2)
  }

  /** 9XY? (SKNE registers); the low nibble is not examined. */
  function Op0x9(m: Machine): (t: Transition)
    requires Valid(m)
    ensures Valid(t.next) && HaltOnlyStops(m, t)
  {
    Advance(m, if m.cpuRegisters[RegX(m.opCode)] != m.cpuRegisters[RegY(m.opCode)] then 4 else 2)
  }

  /** ANNN (MVI). */
  function Op0xA(m: Machine): (t: Transition)
    requires Valid(m)
    ensures Valid(t.next) && HaltOnlyStops(m, t)
  {
    Advance(m.(addressRegister := Address(m.opCode)), 2)
  }

  /** BNNN (JMI): NNN + V0, not reduced to 12 bits. */
  function Op0xB(m: Machine): (t: Transition)
    requires Valid(m)
    ensures Valid(t.next) && HaltOnlyStops(m, t)
  {
    Transition(m.(programCounter := Address(m.opCode) + m.cpuRegisters[0]), Executed)
  }

  /** CXNN (RAND); `randomByte` stands for `rand() % 256`. */
  function Op0xC(m: Machine, randomByte: u8): (t: Transition)
    requires Valid(m)
    ensures Valid(t.next) && HaltOnlyStops(m, t)
  {
    Advance(m.(cpuRegisters := m.cpuRegisters[RegX(m.opCode) := And8(randomByte, Byte(m.opCode))]), 2)
  }

  /** The N + 1 bytes DXYN reads, `I` to `I + N`: the N sprite rows and the
      byte after them, which the loop fetches after its last row. */
  predicate SpriteReadable(m: Machine) {
    m.addressRegister + Nibble(m.opCode) < RamSize
  }

  /** The N sprite rows DXYN draws: the bytes at I to I + N - 1. */
  function SpriteRows(m: Machine): (rows: seq<u8>)
    requires Valid(m) && SpriteReadable(m)
    ensures |rows| == Nibble(m.opCode)
  {
    m.mainMemory[m.addressRegister .. m.addressRegister + Nibble(m.opCode)]
  }

  /** DXYN (SPRITE): draws N rows from memory at I, at (VX, VY), row by row and
      column by column; VF is the collision flag. A read past the end of RAM or a
      pixel past the end of VRAM halts before anything is drawn. */
  function Op0xD(m: Machine): (t: Transition)
    requires Valid(m)
    ensures Valid(t.next) && HaltOnlyStops(m, t)
  {
    if !SpriteReadable(m) then Halt(m, OutOfRange(SpriteRead))
    else
      var rows, x, y := SpriteRows(m), m.cpuRegisters[RegX(m.opCode)], m.cpuRegisters[RegY(m.opCode)];
      if !SpriteOnScreen(rows, x, y) then Halt(m, OutOfRange(SpriteDraw))
      else
        Advance(m.(videoMemory := DrawRows(m.videoMemory, rows, x, y, |rows|),
                   cpuRegisters := m.cpuRegisters[Flag := if RowsCollision(m.videoMemory, rows, x, y, |rows|) then 1 else 0]), 2)
  }

  /** EX9E (SKPR) and EXA1 (SKUP): key state is never read, so SKPR never skips
      and SKUP always does; any other low byte halts. */
  function Op0xE(m: Machine): (t: Transition)
    requires Valid(m)
    ensures Valid(t.next) && HaltOnlyStops(m, t)
  {
    var b := Byte(m.opCode);
    if b == 0x9E then Advance(m, 2)
    else if b == 0xA1 then Advance(m, 4)
    else Halt(m, UnknownOpCode)
  }

  /** RAM after FX55: V0..VX copied to `base .. base + x`. */
  function StoreRegisters(ram: seq<u8>, base: nat, v: seq<u8>, x: nat): (r: seq<u8>)
    requires base + x < |ram| && x < |v|
    ensures |r| == |ram|
  {
    seq(|ram|, j requires 0 <= j < |ram| => if base <= j <= base + x then v[j - base] else ram[j])
  }

  /** Registers after FX65: V0..VX loaded from `base .. base + x`. */
  function LoadRegisters(v: seq<u8>, ram: seq<u8>, base: nat, x: nat): (r: seq<u8>)
    requires base + x < |ram| && x < |v|
    ensures |r| == |v|
  {
    seq(|v|, k requires 0 <= k < |v| => if k <= x then ram[base + k] else v[k])
  }

  /** Where FX55 and FX65 start in RAM: the program start is added to I. */
  function BlockBase(m: Machine): nat {
    ProgramStartAddress + m.addressRegister
  }

  /** FX?? (timers, I, font, BCD, register block store/load); any other low byte halts. */
  function Op0xF(m: Machine): (t: Transition)
    requires Valid(m)
    ensures Valid(t.next) && HaltOnlyStops(m, t)
  {
    var x, b := RegX(m.opCode), Byte(m.opCode);
    var v, i := m.cpuRegisters, m.addressRegister;
    if b == 0x07 then Advance(m.(cpuRegisters := v[x := m.delayTimer]), 2)
    else if b == 0x0A then Advance(m, 2)
    else if b == 0x15 then Advance(m.(delayTimer := v[x]), 2)
    else if b == 0x18 then Advance(m.(soundTimer := v[x]), 2)
    else if b == 0x1E then Advance(m.(addressRegister := Wrap16(i + v[x])), 2)
    else if b == 0x29 then Advance(m.(addressRegister := FontStartAddress + v[x] * GlyphSize), 2)
    else if b == 0x33 then
      if i + 2 >= RamSize then Halt(m, OutOfRange(BcdStore))
      else
        Advance(m.(mainMemory := m.mainMemory[i := v[x] / 100][i + 1 := v[x] % 100 / 10][i + 2 := v[x] % 100 % 10]), 2)
    else if b == 0x55 then
      if BlockBase(m) + x >= RamSize then Halt(m, OutOfRange(RegisterStore))
      else Advance(m.(mainMemory := StoreRegisters(m.mainMemory, BlockBase(m), v, x)), 2)
    else if b == 0x65 then
      if BlockBase(m) + x >= RamSize then Halt(m, OutOfRange(RegisterLoad))
      else Advance(m.(cpuRegisters := LoadRegisters(v, m.mainMemory, BlockBase(m), x)), 2)
    else Halt(m, UnknownOpCode)
  }

  /** The operations table: the handler for `opCode >> 12`. */
  function Dispatch(m: Machine, randomByte: u8): (t: Transition)
    requires Valid(m)
    ensures Valid(t.next) && HaltOnlyStops(m, t)
    ensures t.next.opCode == m.opCode && t.next.cpuWait == m.cpuWait
  {
    match Family(m.opCode)
    case 0x0 => Op0x0(m)
    case 0x1 => Op0x1(m)
    case 0x2 => Op0x2(m)
    case 0x3 => Op0x3(m)
    case 0x4 => Op0x4(m)
    case 0x5 => Op0x5(m)
    case 0x6 => Op0x6(m)
    case 0x7 => Op0x7(m)
    case 0x8 => Op0x8(m)
    case 0x9 => Op0x9(m)
    case 0xA => Op0xA(m)
    case 0xB => Op0xB(m)
    case 0xC => Op0xC(m, randomByte)
    case 0xD => Op0xD(m)
    case 0xE => Op0xE(m)
    case _ => Op0xF(m) // Family(m.opCode) == 0xF
  }

  /** The big-endian opcode at the program counter, when both bytes are in RAM. */
  function FetchedOpCode(m: Machine): (op: u16)
    requires Valid(m) && m.programCounter + 1 < RamSize
    ensures Family(op) == m.mainMemory[m.programCounter] / 0x10
    ensures Byte(op) == m.mainMemory[m.programCounter + 1]
  {
    m.mainMemory[m.programCounter] as int * 0x100 + m.mainMemory[m.programCounter + 1]
  }

  /** One executed instruction of the run loop: fetch, dispatch, close the CPU gate. */
  function Step(m: Machine, randomByte: u8): (t: Transition)
    requires Valid(m)
    ensures Valid(t.next)
  {
    if m.programCounter + 1 >= RamSize then Halt(m, OutOfRange(Fetch))
    else
      var d := Dispatch(m.(opCode := FetchedOpCode(m)), randomByte);
      Transition(d.next.(cpuWait := true), d.outcome)
  }

  /** Microseconds since `last`, stored into a 32-bit `uint` as the source does. */
  function Elapsed(now: int, last: int): u32 {
    Wrap32(now - last)
  }

  /** A countdown timer step: decrement only while positive. */
  function CountDown(t: u8): u8 {
    if t > 0 then t - 1 else t
  }

  /** `Chip8::Tick` at clock reading `now`: on the display cadence the display is
      updated (which stops the machine when it saw a close request) and both timers
      count down; on the CPU cadence the gate opens. Each cadence restarts from `now`. */
  function Tick(m: Machine, now: int, quitRequested: bool): (r: Machine)
    ensures r.mainMemory == m.mainMemory && r.videoMemory == m.videoMemory
    ensures r.cpuRegisters == m.cpuRegisters && r.programCounter == m.programCounter
  {
    var shown :=
      if Elapsed(now, m.lastTick) >= DisplayPeriod then
        m.(isRunning := m.isRunning && !quitRequested,
           soundTimer := CountDown(m.soundTimer),
           delayTimer := CountDown(m.delayTimer),
           lastTick := now)
      else m;
    if Elapsed(now, m.lastCpuTick) >= CpuPeriod then shown.(cpuWait := false, lastCpuTick := now)
    else shown
  }

  /** `Chip8::Reset` with the clock reading `now`: registers, stack, timers and
      screen cleared, program counter at the program start; RAM is kept. */
  function Reset(m: Machine, now: int): (r: Machine)
    requires Valid(m)
    ensures Valid(r)
  {
    m.(addressRegister := 0,
       programCounter := ProgramStartAddress,
       stackPointer := 0,
       opCode := 0,
       delayTimer := 0,
       soundTimer := 0,
       cpuWait := false,
       lastTick := now,
       lastCpuTick := now,
       cpuRegisters := seq(RegisterCount, _ => 0),
       callStack := seq(StackDepth, _ => 0),
       videoMemory := Blank())
  }

  /** What one pass of the run loop is given from outside: the clock reading,
      whether the display saw a close request, and the next `rand()` byte. */
  datatype Input = Input(now: int, quitRequested: bool, randomByte: u8)

  /** One pass of the run loop: tick, then execute one instruction if the gate is open. */
  function Iterate(m: Machine, input: Input): (r: Machine)
    requires Valid(m)
    ensures Valid(r)
  {
    var ticked := Tick(m, input.now, input.quitRequested);
    if ticked.cpuWait then ticked else Step(ticked, input.randomByte).next
  }

  /** The run loop over a finite sequence of inputs; it ends early once the machine stops. */
  function RunLoop(m: Machine, inputs: seq<Input>): (r: Machine)
    requires Valid(m)
    ensures Valid(r)
    decreases |inputs|
  {
    if !m.isRunning || inputs == [] then m else RunLoop(Iterate(m, inputs[0]), inputs[1..])
  }

  /** `Chip8::Run`: reset at clock reading `start`, mark running, loop. */
  function Run(m: Machine, start: int, inputs: seq<Input>): (r: Machine)
    requires Valid(m)
    ensures Valid(r)
  {
    RunLoop(Reset(m, start).(isRunning := true), inputs)
  }
}
