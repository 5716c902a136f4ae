/**
 * The meaning of one interpreter step, as a function on a value of the
 * whole machine state. The Chip8 class in module Emulator is proved to
 * change its arrays and fields exactly as Step says.
 */
module Semantics {
  import opened Bits
  import opened Wrappers
  import opened Errors
  import opened Decoder
  import Keypad

  const MEMORY_BYTES := 0x1000
  const NUM_REGISTERS := 16
  const STACK_SIZE := 16
  /** The flag register. */
  const VF: Nibble := 0xF
  const FONT_ADDRESS := 0x50
  const PROGRAM_ADDRESS := 0x200
  const DISPLAY_X := 64
  const DISPLAY_Y := 32

  /** The glyphs of the hex digits 0..F, five rows each. */
  const DEFAULT_FONT: seq<Uint8> := [
    0xF0, 0x90, 0x90, 0x90, 0xF0, // 0
    0x20, 0x60, 0x20, 0x20, 0x70, // 1
    0xF0, 0x10, 0xF0, 0x80, 0xF0, // 2
    0xF0, 0x10, 0xF0, 0x10, 0xF0, // 3
    0x90, 0x90, 0xF0, 0x10, 0x10, // 4
    0xF0, 0x80, 0xF0, 0x10, 0xF0, // 5
    0xF0, 0x80, 0xF0, 0x90, 0xF0, // 6
    0xF0, 0x10, 0x20, 0x40, 0x40, // 7
    0xF0, 0x90, 0xF0, 0x90, 0xF0, // 8
    0xF0, 0x90, 0xF0, 0x10, 0xF0, // 9
    0xF0, 0x90, 0xF0, 0x90, 0x90, // A
    0xE0, 0x90, 0xE0, 0x90, 0xE0, // B
    0xF0, 0x80, 0x80, 0x80, 0xF0, // C
    0xE0, 0x90, 0x90, 0x90, 0xE0, // D
    0xF0, 0x80, 0xF0, 0x80, 0xF0, // E
    0xF0, 0x80, 0xF0, 0x80, 0x80  // F
  ]

  /** The state Step reads and writes; pixels[x][y] is the framebuffer. */
  datatype Machine = Machine(
    memory: seq<Uint8>,
    regs: seq<Uint8>,
    pc: Uint16,
    index: Uint16,
    stack: seq<Uint16>,
    sp: Uint8,
    delay: Uint8,
    sound: Uint8,
    keypad: seq<bool>,
    pixels: seq<seq<bool>>)

  /** A 64x32 grid, indexed [x][y]. */
  predicate IsScreen(pixels: seq<seq<bool>>)
  {
    |pixels| == DISPLAY_X && forall x | 0 <= x < DISPLAY_X :: |pixels[x]| == DISPLAY_Y
  }

  /** The fixed sizes of the machine's arrays. */
  predicate Valid(m: Machine)
  {
    && |m.memory| == MEMORY_BYTES
    && |m.regs| == NUM_REGISTERS
    && |m.stack| == STACK_SIZE
    && |m.keypad| == Keypad.NUM_KEYS
    && IsScreen(m.pixels)
  }

  function Blank(): (s: seq<seq<bool>>)
    ensures IsScreen(s)
  {
    seq(DISPLAY_X, _ => seq(DISPLAY_Y, _ => false))
  }

  /** The common PC += 2 at the end of Step. */
  function Advance(m: Machine): Machine
  {
    m.(pc := Add16(m.pc, 2))
  }

  /** A skip instruction's own PC += 2 when its condition holds. */
  function SkipIf(m: Machine, cond: bool): Machine
  {
    if cond then Advance(m) else m
  }

  /** Go's fall-through to the common PC += 2, unless the instruction failed. */
  function Continue(r: Result<Machine, StepError>): Result<Machine, StepError>
  {
    match r
    case Ok(m) => Ok(Advance(m))
    case Err(e) => Err(e)
  }

  function SetReg(m: Machine, k: Nibble, v: Uint8): Machine
    requires Valid(m)
  {
    m.(regs := m.regs[k := v])
  }

  // ---------------------------------------------------------------- stack

  /**
   * StackPush: the overflow check compares with 16, then the index is
   * incremented before the store, so slot 0 is never used from a fresh
   * machine and a push at index 15 stores out of range (a panic).
   */
  function Push(m: Machine, val: Uint16): (r: Result<Machine, StepError>)
    requires Valid(m)
    ensures r == Err(StackOverflow) <==> m.sp == STACK_SIZE
    ensures r.Ok? <==> m.sp < STACK_SIZE - 1 || m.sp == 0xFF
    ensures r.Ok? ==>
      && Valid(r.value)
      && r.value.sp == (m.sp + 1) % 0x100
      && r.value.stack[r.value.sp] == val
      && (forall i | 0 <= i < STACK_SIZE && i != r.value.sp :: r.value.stack[i] == m.stack[i])
      && r.value.(sp := m.sp, stack := m.stack) == m
  {
    if m.sp == STACK_SIZE then Err(StackOverflow)
    else
      var sp := Add8(m.sp, 1);
      if sp >= STACK_SIZE then Err(Panic(StackOutOfRange))
      else Ok(m.(sp := sp, stack := m.stack[sp := val]))
  }

  /** StackPop: reads the top slot, then decrements the uint8 index (0 wraps to 255). */
  function Pop(m: Machine): (r: Result<(Uint16, Machine), StepError>)
    requires Valid(m)
    ensures r.Ok? <==> m.sp < STACK_SIZE
    ensures r.Err? ==> r.error == Panic(StackOutOfRange)
    ensures r.Ok? ==>
      && r.value.0 == m.stack[m.sp]
      && Valid(r.value.1)
      && (r.value.1.sp + 1) % 0x100 == m.sp
      && r.value.1.(sp := m.sp) == m
  {
    if m.sp >= STACK_SIZE then Err(Panic(StackOutOfRange))
    else Ok((m.stack[m.sp], m.(sp := Sub8(m.sp, 1))))
  }

  // ---------------------------------------------------------------- opcode families

  /** 00E0 clears the screen and 00EE returns; only NN is looked at. */
  function System(m: Machine, ins: Instruction): (r: Result<Machine, StepError>)
    requires Valid(m)
    ensures r.Ok? ==> Valid(r.value)
    ensures r.Ok? <==> ins.nn == 0xE0 || (ins.nn == 0xEE && m.sp < STACK_SIZE)
    ensures r.Err? ==> r.error.Panic?
    ensures ins.nn == 0xE0 ==> r.Ok? && r.value.pixels == Blank() && r.value.(pixels := m.pixels) == m
    ensures ins.nn == 0xEE && r.Ok? ==>
      && r.value.pc == m.stack[m.sp]
      && (r.value.sp + 1) % 0x100 == m.sp
      && r.value.(pc := m.pc, sp := m.sp) == m
  {
    if ins.nn == 0xE0 then Ok(m.(pixels := Blank()))
    else if ins.nn == 0xEE then
      match Pop(m)
      case Ok((ret, m')) => Ok(m'.(pc := ret))
      case Err(e) => Err(e)
    else Err(Panic(BadSystemInstruction(ins.raw)))
  }

  /** 2NNN pushes the address of the call itself and jumps to NNN. */
  function Call(m: Machine, ins: Instruction): (r: Result<Machine, StepError>)
    requires Valid(m)
    ensures r.Err? <==> Push(m, m.pc).Err?
    ensures r.Ok? ==>
      && Valid(r.value)
      && r.value.pc == ins.nnn
      && r.value.sp == (m.sp + 1) % 0x100
      && r.value.sp < STACK_SIZE && r.value.stack[r.value.sp] == m.pc
      && (forall i | 0 <= i < STACK_SIZE && i != r.value.sp :: r.value.stack[i] == m.stack[i])
      && r.value.(pc := m.pc, sp := m.sp, stack := m.stack) == m
  {
    match Push(m, m.pc)
    case Ok(m') => Ok(m'.(pc := ins.nnn))
    case Err(e) => Err(e)
  }

  /**
   * The 8XY? family. For 8XY4, 8XY5 and 8XY7 the result is stored before
   * VF; for the shifts VF is stored first. Y plays no part in the shifts.
   */
  function Alu(m: Machine, ins: Instruction): (r: Result<Machine, StepError>)
    requires Valid(m)
    ensures r.Ok? ==> Valid(r.value)
    ensures r.Err? <==> ins.n !in {0x0, 0x1, 0x2, 0x3, 0x4, 0x5, 0x6, 0x7, 0xE}
    ensures r.Err? ==> r.error == BadInstruction(ins.raw)
    ensures r.Ok? ==>
      && r.value.(regs := m.regs) == m
      && forall k | 0 <= k < NUM_REGISTERS && k != ins.x && k != VF :: r.value.regs[k] == m.regs[k]
  {
    var x, y := m.regs[ins.x], m.regs[ins.y];
    if ins.n == 0x0 then Ok(SetReg(m, ins.x, y))
    else if ins.n == 0x1 then Ok(SetReg(m, ins.x, Or8(x, y)))
    else if ins.n == 0x2 then Ok(SetReg(m, ins.x, And8(x, y)))
    else if ins.n == 0x3 then Ok(SetReg(m, ins.x, Xor8(x, y)))
    else if ins.n == 0x4 then
      var result := Add8(x, y);
      Ok(m.(regs := m.regs[ins.x := result][VF := if result < x then 1 else 0]))
    else if ins.n == 0x5 then
      Ok(m.(regs := m.regs[ins.x := Sub8(x, y)][VF := if x > y then 1 else 0]))
    else if ins.n == 0x6 then
      // x & 1, then x >> 1
      Ok(m.(regs := m.regs[VF := x % 2][ins.x := x / 2]))
    else if ins.n == 0xE then
      // x >> 7, then x << 1 truncated to uint8
      Ok(m.(regs := m.regs[VF := x / 0x80][ins.x := (x as int * 2) % 0x100]))
    else if ins.n == 0x7 then
      Ok(m.(regs := m.regs[ins.x := Sub8(y, x)][VF := if y > x then 1 else 0]))
    else Err(BadInstruction(ins.raw))
  }

  // ---------------------------------------------------------------- draw

  /** Whether the sprite, placed at (x0, y0), has an on bit over pixel (px, py). */
  predicate Covers(sprite: seq<Uint8>, x0: int, y0: int, px: int, py: int)
  {
    x0 <= px < x0 + 8 && y0 <= py < y0 + |sprite| && SpriteBit(sprite[py - y0], px - x0)
  }

  /** Whether an on bit of the sprite lands on a pixel that is on. */
  predicate Collides(pixels: seq<seq<bool>>, sprite: seq<Uint8>, x0: int, y0: int)
    requires IsScreen(pixels)
  {
    exists px, py | 0 <= px < DISPLAY_X && 0 <= py < DISPLAY_Y ::
      Covers(sprite, x0, y0, px, py) && pixels[px][py]
  }

  /** The screen with every pixel under an on sprite bit flipped. */
  function XorSprite(pixels: seq<seq<bool>>, sprite: seq<Uint8>, x0: int, y0: int): (r: seq<seq<bool>>)
    requires IsScreen(pixels)
    ensures IsScreen(r)
  {
    seq(DISPLAY_X, px requires 0 <= px < DISPLAY_X =>
      seq(DISPLAY_Y, py requires 0 <= py < DISPLAY_Y =>
        pixels[px][py] != Covers(sprite, x0, y0, px, py)))
  }

  /** The number of sprite rows DXYN reads: N, cut at the bottom edge. */
  function SpriteRows(m: Machine, ins: Instruction): (rows: nat)
    requires Valid(m)
    ensures rows <= ins.n && m.regs[ins.y] % DISPLAY_Y + rows <= DISPLAY_Y
    ensures rows == ins.n || m.regs[ins.y] % DISPLAY_Y + rows == DISPLAY_Y
  {
    var y0 := m.regs[ins.y] % DISPLAY_Y;
    if ins.n < DISPLAY_Y - y0 then ins.n else DISPLAY_Y - y0
  }

  /** The rows DXYN reads from memory at I, when they lie inside memory. */
  function Sprite(m: Machine, ins: Instruction): (s: seq<Uint8>)
    requires Valid(m)
    requires SpriteRows(m, ins) == 0 || m.index + SpriteRows(m, ins) <= MEMORY_BYTES
    ensures |s| == SpriteRows(m, ins)
    ensures forall r | 0 <= r < |s| :: s[r] == m.memory[m.index + r]
  {
    var rows := SpriteRows(m, ins);
    if rows == 0 then [] else m.memory[m.index .. m.index + rows]
  }

  /**
   * DXYN: XOR the N-row sprite at I onto the screen at (VX mod 64, VY mod 32),
   * clipped at the right and bottom edges. VF ends 1 iff a lit pixel was hit.
   */
  function Draw(m: Machine, ins: Instruction): (r: Result<Machine, StepError>)
    requires Valid(m)
    ensures r.Ok? ==> Valid(r.value)
    ensures r.Err? ==> r.error == Panic(MemoryOutOfRange)
    ensures r.Ok? ==>
      && r.value.(pixels := m.pixels, regs := m.regs) == m
      && r.value.regs[VF] <= 1
      && forall k | 0 <= k < NUM_REGISTERS && k != VF :: r.value.regs[k] == m.regs[k]
  {
    var x0 := m.regs[ins.x] % DISPLAY_X;
    var y0 := m.regs[ins.y] % DISPLAY_Y;
    var rows := SpriteRows(m, ins);
    if rows > 0 && m.index + rows > MEMORY_BYTES then Err(Panic(MemoryOutOfRange))
    else
      var sprite := Sprite(m, ins);
      Ok(m.(pixels := XorSprite(m.pixels, sprite, x0, y0),
            regs := m.regs[VF := if Collides(m.pixels, sprite, x0, y0) then 1 else 0]))
  }

  // ---------------------------------------------------------------- keys

  /** EX9E and EXA1 skip on the state of the key numbered VX. */
  function KeySkip(m: Machine, ins: Instruction): (r: Result<Machine, StepError>)
    requires Valid(m)
    ensures r.Ok? ==> Valid(r.value)
    ensures r.Ok? <==> (ins.nn == 0x9E || ins.nn == 0xA1) && m.regs[ins.x] < Keypad.NUM_KEYS
    ensures r.Ok? ==> r.value.(pc := m.pc) == m && (r.value.pc == m.pc || r.value.pc == Add16(m.pc, 2))
  {
    var key := m.regs[ins.x];
    if ins.nn == 0x9E then
      if key >= Keypad.NUM_KEYS then Err(Panic(KeyOutOfRange)) else Ok(SkipIf(m, m.keypad[key]))
    else if ins.nn == 0xA1 then
      if key >= Keypad.NUM_KEYS then Err(Panic(KeyOutOfRange)) else Ok(SkipIf(m, !m.keypad[key]))
    else Err(BadInstruction(ins.raw))
  }

  /** The highest-numbered pressed key, which the FX0A scan leaves in VX. */
  function LastPressed(keys: seq<bool>): (r: Option<nat>)
    ensures r.Some? ==> r.value < |keys| && keys[r.value]
    ensures r.Some? ==> forall j | r.value < j < |keys| :: !keys[j]
    ensures r.None? <==> forall j | 0 <= j < |keys| :: !keys[j]
  {
    if |keys| == 0 then None
    else if keys[|keys| - 1] then Some(|keys| - 1)
    else LastPressed(keys[..|keys| - 1])
  }

  // ---------------------------------------------------------------- FX??

  /** The hundreds, tens and ones digits FX33 stores. */
  function BcdDigits(v: Uint8): (d: (Uint8, Uint8, Uint8))
    ensures d.0 <= 9 && d.1 <= 9 && d.2 <= 9
    ensures 100 * d.0 + 10 * d.1 + d.2 == v
  {
    (v / 100, (v / 10) % 10, v % 10)
  }

  /** `memory` with `bytes` written from address `at` on: FX55, Load and loadFont. */
  function Overwrite(memory: seq<Uint8>, at: nat, bytes: seq<Uint8>): (r: seq<Uint8>)
    requires at + |bytes| <= |memory|
    ensures |r| == |memory|
    ensures forall a | 0 <= a < |memory| :: r[a] == if at <= a < at + |bytes| then bytes[a - at] else memory[a]
  {
    memory[..at] + bytes + memory[at + |bytes|..]
  }

  /** The FX?? family: timers, index register, keypad wait, BCD and block copies. */
  function Misc(m: Machine, ins: Instruction): (r: Result<Machine, StepError>)
    requires Valid(m)
    ensures r.Ok? ==> Valid(r.value)
    ensures r.Err? ==> r.error == BadInstruction(ins.raw) || r.error == Panic(MemoryOutOfRange)
    ensures r.Ok? ==>
      && r.value.stack == m.stack && r.value.sp == m.sp
      && r.value.pixels == m.pixels && r.value.keypad == m.keypad
  {
    var vx := m.regs[ins.x];
    if ins.nn == 0x07 then Ok(SetReg(m, ins.x, m.delay))
    else if ins.nn == 0x15 then Ok(m.(delay := vx))
    else if ins.nn == 0x18 then Ok(m.(sound := vx))
    else if ins.nn == 0x1E then Ok(m.(index := Add16(m.index, vx)))
    else if ins.nn == 0x0A then
      match LastPressed(m.keypad)
      case Some(k) => Ok(SetReg(m, ins.x, k))
      // no key: PC -= 2, so the common PC += 2 fetches FX0A again
      case None => Ok(m.(pc := Sub16(m.pc, 2)))
    else if ins.nn == 0x29 then Ok(m.(index := FONT_ADDRESS + 5 * vx as int))
    else if ins.nn == 0x33 then
      if m.index + 2 >= MEMORY_BYTES then Err(Panic(MemoryOutOfRange))
      else
        var d := BcdDigits(vx);
        Ok(m.(memory := m.memory[m.index := d.0][m.index + 1 := d.1][m.index + 2 := d.2]))
    else if ins.nn == 0x55 then
      if m.index + NUM_REGISTERS > MEMORY_BYTES then Err(Panic(MemoryOutOfRange))
      else Ok(m.(memory := Overwrite(m.memory, m.index, m.regs)))
    else if ins.nn == 0x65 then
      if m.index + NUM_REGISTERS > MEMORY_BYTES then Err(Panic(MemoryOutOfRange))
      else Ok(m.(regs := m.memory[m.index .. m.index + NUM_REGISTERS]))
    else Err(BadInstruction(ins.raw))
  }

  // ---------------------------------------------------------------- step

  /**
   * What an instruction of a family other than 1NNN and 2NNN does before
   * the common PC += 2; an error return comes before any change. `rnd` is
   * the byte CXNN draws with rand.Intn(0xFF), which lies in 0..254.
   */
  function Effect(m: Machine, ins: Instruction, rnd: Uint8): (r: Result<Machine, StepError>)
    requires Valid(m) && rnd < 0xFF
    requires ins.prefix != 0x1 && ins.prefix != 0x2
    ensures r.Ok? ==> Valid(r.value)
  {
    match ins.prefix
    case 0x0 => System(m, ins)
    case 0x3 => Ok(SkipIf(m, m.regs[ins.x] == ins.nn))
    case 0x4 => Ok(SkipIf(m, m.regs[ins.x] != ins.nn))
    case 0x5 => Ok(SkipIf(m, m.regs[ins.x] == m.regs[ins.y]))
    case 0x6 => Ok(SetReg(m, ins.x, ins.nn))
    case 0x7 => Ok(SetReg(m, ins.x, Add8(m.regs[ins.x], ins.nn)))
    case 0x8 => Alu(m, ins)
    case 0x9 => Ok(SkipIf(m, m.regs[ins.x] != m.regs[ins.y]))
    case 0xA => Ok(m.(index := ins.nnn))
    // uint16(VX) + NNN cannot wrap
    case 0xB => Ok(m.(pc := m.regs[ins.x] + ins.nnn))
    case 0xC => Ok(SetReg(m, ins.x, And8(rnd, ins.nn)))
    case 0xD => Draw(m, ins)
    case 0xE => KeySkip(m, ins)
    // the prefix is a nibble other than 1 and 2: this is 0xF, so Go's
    // outer default branch is unreachable
    case _ => Misc(m, ins)
  }

  /**
   * Executes a decoded instruction on the state whose PC is the
   * instruction's own address. 1NNN and 2NNN return before the common
   * PC += 2; every other family falls through to it.
   */
  function Execute(m: Machine, ins: Instruction, rnd: Uint8): (r: Result<Machine, StepError>)
    requires Valid(m) && rnd < 0xFF
    ensures r.Ok? ==> Valid(r.value)
  {
    if ins.prefix == 0x1 then Ok(m.(pc := ins.nnn))
    else if ins.prefix == 0x2 then Call(m, ins)
    else Continue(Effect(m, ins, rnd))
  }

  /** One fetch-decode-execute step. An error leaves the state as it was. */
  function Step(m: Machine, rnd: Uint8): (r: Result<Machine, StepError>)
    requires Valid(m) && rnd < 0xFF
    ensures r.Ok? ==> Valid(r.value)
  {
    match Fetch(m.memory, m.pc)
    case Ok(ins) => Execute(m, ins, rnd)
    case Err(e) => Err(e)
  }

  /**
   * The interpreter loop `run`: one Step per tick, the i-th step drawing
   * the random byte rnds[i], until a step fails.
   */
  function Run(m: Machine, rnds: seq<Uint8>): (r: Result<Machine, StepError>)
    requires Valid(m) && forall i | 0 <= i < |rnds| :: rnds[i] < 0xFF
    ensures r.Ok? ==> Valid(r.value)
    decreases |rnds|
  {
    if |rnds| == 0 then Ok(m)
    else
      match Step(m, rnds[0])
      case Ok(m') => Run(m', rnds[1..])
      case Err(e) => Err(e)
  }
}
