/**
 * The Chip8 record of the Go program as a class over arrays. Every method
 * that changes the machine is proved to leave it in the state that module
 * Semantics gives for the same operation.
 */
module Emulator {
  import opened Bits
  import opened Wrappers
  import opened Errors
  import opened Decoder
  import opened Semantics
  import Keypad
  import Timers

  /** Pixel (px, py) is handled before the draw loop's cursor (col, row), in row-major order. */
  predicate Done(px: int, py: int, col: int, row: int)
  {
    py < row || (py == row && px < col)
  }

  /** The column of the draw cursor, held at the right edge once it leaves the screen. */
  function Clip(col: int): int
  {
    if col < DISPLAY_X then col else DISPLAY_X
  }

  /** A lit pixel handled before the cursor lies under an on sprite bit. */
  ghost predicate CollidesBefore(pixels: seq<seq<bool>>, sprite: seq<Uint8>, x0: int, y0: int, col: int, row: int)
    requires IsScreen(pixels)
  {
    exists px, py | 0 <= px < DISPLAY_X && 0 <= py < DISPLAY_Y ::
      Done(px, py, col, row) && Covers(sprite, x0, y0, px, py) && pixels[px][py]
  }

  /** Moving the cursor one pixel right adds that pixel to the collisions seen. */
  lemma CollidesBeforeStep(pixels: seq<seq<bool>>, sprite: seq<Uint8>, x0: int, y0: int, col: int, row: int)
    requires IsScreen(pixels) && 0 <= col < DISPLAY_X && 0 <= row < DISPLAY_Y
    ensures CollidesBefore(pixels, sprite, x0, y0, col + 1, row) <==>
      CollidesBefore(pixels, sprite, x0, y0, col, row) || (Covers(sprite, x0, y0, col, row) && pixels[col][row])
  {
    if Covers(sprite, x0, y0, col, row) && pixels[col][row] {
      assert Done(col, row, col + 1, row);
    }
    if CollidesBefore(pixels, sprite, x0, y0, col + 1, row) {
      var px, py :| 0 <= px < DISPLAY_X && 0 <= py < DISPLAY_Y &&
        Done(px, py, col + 1, row) && Covers(sprite, x0, y0, px, py) && pixels[px][py];
      if !(px == col && py == row) {
        assert Done(px, py, col, row);
      }
    }
  }

  /** A cursor past every sprite bit of its row may move to the start of the next row. */
  lemma CollidesBeforeNextRow(pixels: seq<seq<bool>>, sprite: seq<Uint8>, x0: int, y0: int, col: int, row: int)
    requires IsScreen(pixels) && (col >= x0 + 8 || col >= DISPLAY_X)
    ensures CollidesBefore(pixels, sprite, x0, y0, col, row) <==> CollidesBefore(pixels, sprite, x0, y0, 0, row + 1)
  {
    if CollidesBefore(pixels, sprite, x0, y0, 0, row + 1) {
      var px, py :| 0 <= px < DISPLAY_X && 0 <= py < DISPLAY_Y &&
        Done(px, py, 0, row + 1) && Covers(sprite, x0, y0, px, py) && pixels[px][py];
      assert Done(px, py, col, row);
    }
    if CollidesBefore(pixels, sprite, x0, y0, col, row) {
      var px, py :| 0 <= px < DISPLAY_X && 0 <= py < DISPLAY_Y &&
        Done(px, py, col, row) && Covers(sprite, x0, y0, px, py) && pixels[px][py];
      assert Done(px, py, 0, row + 1);
    }
  }

  /** Once every sprite row is handled, the collisions seen are all collisions. */
  lemma CollidesBeforeEnd(pixels: seq<seq<bool>>, sprite: seq<Uint8>, x0: int, y0: int)
    requires IsScreen(pixels)
    ensures CollidesBefore(pixels, sprite, x0, y0, 0, y0 + |sprite|) <==> Collides(pixels, sprite, x0, y0)
  {
    if Collides(pixels, sprite, x0, y0) {
      var px, py :| 0 <= px < DISPLAY_X && 0 <= py < DISPLAY_Y &&
        Covers(sprite, x0, y0, px, py) && pixels[px][py];
      assert Done(px, py, 0, y0 + |sprite|);
    }
  }

  class Chip8 {
    const memory: array<Uint8>
    const registers: array<Uint8>
    const stack: array<Uint16>
    const keypad: array<bool>
    /** Display.Pixels, indexed [x, y]. */
    const pixels: array2<bool>
    var pc: Uint16
    var indexRegister: Uint16
    var stackIndex: Uint8
    var delayTimer: Uint8
    var soundTimer: Uint8

    /** The array sizes of the Go record; memory and registers are distinct arrays. */
    ghost predicate Valid()
    {
      && memory.Length == MEMORY_BYTES
      && registers.Length == NUM_REGISTERS
      && stack.Length == STACK_SIZE
      && keypad.Length == Keypad.NUM_KEYS
      && pixels.Length0 == DISPLAY_X && pixels.Length1 == DISPLAY_Y
      && memory != registers
    }

    ghost function Pixels(): (s: seq<seq<bool>>)
      requires Valid()
      reads pixels
      ensures IsScreen(s)
    {
      seq(DISPLAY_X, px requires 0 <= px < DISPLAY_X reads pixels =>
        seq(DISPLAY_Y, py requires 0 <= py < DISPLAY_Y reads pixels => pixels[px, py]))
    }

    /** The machine state held by this object. */
    ghost function State(): (m: Machine)
      requires Valid()
      reads this, memory, registers, stack, keypad, pixels
      ensures Semantics.Valid(m)
    {
      Machine(memory[..], registers[..], pc, indexRegister, stack[..], stackIndex,
              delayTimer, soundTimer, keypad[..], Pixels())
    }

    /**
     * The outcome `r` of the specification: on success no error and the
     * state it gives, on failure the same error and the state `before`.
     */
    ghost predicate Reflects(r: Result<Machine, StepError>, err: Option<StepError>, before: Machine)
      requires Valid()
      reads this, memory, registers, stack, keypad, pixels
    {
      match r
      case Ok(m) => err == None && State() == m
      case Err(e) => err == Some(e) && State() == before
    }

    lemma PixelsEqual(s: seq<seq<bool>>)
      requires Valid() && IsScreen(s)
      requires forall px, py | 0 <= px < DISPLAY_X && 0 <= py < DISPLAY_Y :: pixels[px, py] == s[px][py]
      ensures Pixels() == s
    {
      forall px | 0 <= px < DISPLAY_X
        ensures Pixels()[px] == s[px]
      {
        assert forall py | 0 <= py < DISPLAY_Y :: Pixels()[px][py] == s[px][py];
      }
    }

    /**
     * NewChip8 followed by InitDisplay: everything zero, the default font at
     * 0x50, PC at the program base 0x200 and a blank screen.
     */
    constructor ()
      ensures Valid()
      ensures fresh(memory) && fresh(registers) && fresh(stack) && fresh(keypad) && fresh(pixels)
      ensures memory[..] == Overwrite(seq(MEMORY_BYTES, _ => 0), FONT_ADDRESS, DEFAULT_FONT)
      ensures registers[..] == seq(NUM_REGISTERS, _ => 0)
      ensures stack[..] == seq(STACK_SIZE, _ => 0)
      ensures keypad[..] == seq(Keypad.NUM_KEYS, _ => false)
      ensures Pixels() == Blank()
      ensures pc == PROGRAM_ADDRESS && indexRegister == 0 && stackIndex == 0
      ensures delayTimer == 0 && soundTimer == 0
    {
      memory := new Uint8[MEMORY_BYTES](_ => 0);
      registers := new Uint8[NUM_REGISTERS](_ => 0);
      stack := new Uint16[STACK_SIZE](_ => 0);
      keypad := new bool[Keypad.NUM_KEYS](_ => false);
      pixels := new bool[DISPLAY_X, DISPLAY_Y]((_, _) => false);
      pc, indexRegister, stackIndex, delayTimer, soundTimer := 0, 0, 0, 0, 0;
      new;
      assert memory[..] == seq(MEMORY_BYTES, _ => 0);
      PixelsEqual(Blank());
      LoadFont(DEFAULT_FONT);
      pc := PROGRAM_ADDRESS;
    }

    /** loadFont: the glyph bytes go to memory from 0x50 on. */
    method LoadFont(font: seq<Uint8>)
      requires Valid() && FONT_ADDRESS + |font| <= MEMORY_BYTES
      modifies memory
      ensures memory[..] == Overwrite(old(memory[..]), FONT_ADDRESS, font)
    {
      for i := 0 to |font|
        invariant forall a | 0 <= a < MEMORY_BYTES ::
          memory[a] == if FONT_ADDRESS <= a < FONT_ADDRESS + i then font[a - FONT_ADDRESS] else old(memory[a])
      {
        memory[FONT_ADDRESS + i] := font[i];
      }
      assert memory[..] == Overwrite(old(memory[..]), FONT_ADDRESS, font);
    }

    /**
     * Load: the program bytes go to memory from 0x200 on, and PC is reset to
     * 0x200. A program longer than the 3584 bytes above 0x200 is an index panic.
     */
    method Load(program: seq<Uint8>) returns (fault: Option<Fault>)
      requires Valid()
      modifies this`pc, memory
      ensures PROGRAM_ADDRESS + |program| > MEMORY_BYTES ==>
        fault == Some(MemoryOutOfRange) && memory[..] == old(memory[..]) && pc == old(pc)
      ensures PROGRAM_ADDRESS + |program| <= MEMORY_BYTES ==>
        fault == None && memory[..] == Overwrite(old(memory[..]), PROGRAM_ADDRESS, program) && pc == PROGRAM_ADDRESS
    {
      if PROGRAM_ADDRESS + |program| > MEMORY_BYTES {
        return Some(MemoryOutOfRange);
      }
      for i := 0 to |program|
        invariant forall a | 0 <= a < MEMORY_BYTES ::
          memory[a] == if PROGRAM_ADDRESS <= a < PROGRAM_ADDRESS + i then program[a - PROGRAM_ADDRESS] else old(memory[a])
      {
        memory[PROGRAM_ADDRESS + i] := program[i];
      }
      assert memory[..] == Overwrite(old(memory[..]), PROGRAM_ADDRESS, program);
      pc := PROGRAM_ADDRESS;
      fault := None;
    }

    /** Clear: every pixel off. */
    method Clear()
      requires Valid()
      modifies pixels
      ensures Pixels() == Blank()
    {
      for px := 0 to DISPLAY_X
        invariant forall a, b | 0 <= a < px && 0 <= b < DISPLAY_Y :: !pixels[a, b]
      {
        for py := 0 to DISPLAY_Y
          invariant forall a, b | 0 <= a < px && 0 <= b < DISPLAY_Y :: !pixels[a, b]
          invariant forall b | 0 <= b < py :: !pixels[px, b]
        {
          pixels[px, py] := false;
        }
      }
      PixelsEqual(Blank());
    }

    /** PushButton: marks the hex key of `button` pressed; other keys are ignored. */
    method PushButton(button: Keypad.Keycode)
      requires Valid()
      modifies keypad
      ensures var idx := Keypad.KeyToKeyIndex(button);
        keypad[..] == if idx == Keypad.KEY_UNSUPPORTED then old(keypad[..]) else old(keypad[..])[idx := true]
    {
      var idx := Keypad.KeyToKeyIndex(button);
      if idx == Keypad.KEY_UNSUPPORTED {
        return;
      }
      keypad[idx] := true;
    }

    /** ReleaseButton: marks the hex key of `button` released; other keys are ignored. */
    method ReleaseButton(button: Keypad.Keycode)
      requires Valid()
      modifies keypad
      ensures var idx := Keypad.KeyToKeyIndex(button);
        keypad[..] == if idx == Keypad.KEY_UNSUPPORTED then old(keypad[..]) else old(keypad[..])[idx := false]
    {
      var idx := Keypad.KeyToKeyIndex(button);
      if idx == Keypad.KEY_UNSUPPORTED {
        return;
      }
      keypad[idx] := false;
    }

    /** One tick of RunTimers; `beep` stands for the call to Beep. */
    method TickTimers() returns (beep: bool)
      modifies this`delayTimer, this`soundTimer
      ensures (Timers.Countdown(delayTimer, soundTimer), beep) ==
        Timers.Tick(Timers.Countdown(old(delayTimer), old(soundTimer)))
    {
      if delayTimer != 0 {
        delayTimer := delayTimer - 1;
      }
      beep := false;
      if soundTimer != 0 {
        beep := true;
        soundTimer := soundTimer - 1;
      }
    }

    /** StackPush, with the out-of-range store reported as a panic. */
    method StackPush(val: Uint16) returns (err: Option<StepError>)
      requires Valid()
      modifies this`stackIndex, stack
      ensures Reflects(Push(old(State()), val), err, old(State()))
    {
      if stackIndex == STACK_SIZE {
        return Some(StackOverflow);
      }
      var next := Add8(stackIndex, 1);
      if next >= STACK_SIZE {
        return Some(Panic(StackOutOfRange));
      }
      stackIndex := next;
      stack[stackIndex] := val;
      err := None;
    }

    /** StackPop, with the out-of-range read reported as a panic. */
    method StackPop() returns (r: Result<Uint16, StepError>)
      requires Valid()
      modifies this`stackIndex
      ensures match Pop(old(State()))
        case Ok((val, m)) => r == Ok(val) && State() == m
        case Err(e) => r == Err(e) && State() == old(State())
    {
      if stackIndex >= STACK_SIZE {
        return Err(Panic(StackOutOfRange));
      }
      var val := stack[stackIndex];
      stackIndex := Sub8(stackIndex, 1);
      r := Ok(val);
    }

    /** Step: fetch, decode and execute one instruction. */
    method Step(rnd: Uint8) returns (err: Option<StepError>)
      requires Valid() && rnd < 0xFF
      modifies this, memory, registers, stack, pixels
      ensures Reflects(Semantics.Step(old(State()), rnd), err, old(State()))
    {
      var fetched := Fetch(memory[..], pc);
      if fetched.Err? {
        return Some(fetched.error);
      }
      var ins := fetched.value;
      if ins.prefix == 0x1 {
        pc := ins.nnn;
        return None;
      }
      if ins.prefix == 0x2 {
        err := StackPush(pc);
        if err.Some? {
          return;
        }
        pc := ins.nnn;
        return;
      }
      err := Effect(ins, rnd);
      if err.Some? {
        return;
      }
      pc := Add16(pc, 2);
    }

    /** The body of Step's switch for every family except 1NNN and 2NNN. */
    method Effect(ins: Instruction, rnd: Uint8) returns (err: Option<StepError>)
      requires Valid() && rnd < 0xFF && ins.prefix != 0x1 && ins.prefix != 0x2
      modifies this, memory, registers, pixels
      ensures Reflects(Semantics.Effect(old(State()), ins, rnd), err, old(State()))
    {
      err := None;
      match ins.prefix
      case 0x0 =>
        err := System(ins);
      case 0x3 =>
        if registers[ins.x] == ins.nn {
          pc := Add16(pc, 2);
        }
      case 0x4 =>
        if registers[ins.x] != ins.nn {
          pc := Add16(pc, 2);
        }
      case 0x5 =>
        if registers[ins.x] == registers[ins.y] {
          pc := Add16(pc, 2);
        }
      case 0x6 =>
        registers[ins.x] := ins.nn;
      case 0x7 =>
        registers[ins.x] := Add8(registers[ins.x], ins.nn);
      case 0x8 =>
        err := Alu(ins);
      case 0x9 =>
        if registers[ins.x] != registers[ins.y] {
          pc := Add16(pc, 2);
        }
      case 0xA =>
        indexRegister := ins.nnn;
      case 0xB =>
        pc := registers[ins.x] + ins.nnn;
      case 0xC =>
        registers[ins.x] := And8(rnd, ins.nn);
      case 0xD =>
        err := Draw(ins);
      case 0xE =>
        err := KeySkip(ins);
      case _ =>
        err := Misc(ins);
    }

    /** 00E0 and 00EE. */
    method System(ins: Instruction) returns (err: Option<StepError>)
      requires Valid()
      modifies this`pc, this`stackIndex, pixels
      ensures Reflects(Semantics.System(old(State()), ins), err, old(State()))
    {
      if ins.nn == 0xE0 {
        Clear();
        err := None;
      } else if ins.nn == 0xEE {
        var r := StackPop();
        if r.Err? {
          return Some(r.error);
        }
        pc := r.value;
        err := None;
      } else {
        err := Some(Panic(BadSystemInstruction(ins.raw)));
      }
    }

    /** The 8XY? family. */
    method Alu(ins: Instruction) returns (err: Option<StepError>)
      requires Valid()
      modifies registers
      ensures Reflects(Semantics.Alu(old(State()), ins), err, old(State()))
    {
      var x, y := registers[ins.x], registers[ins.y];
      err := None;
      if ins.n == 0x0 {
        registers[ins.x] := y;
      } else if ins.n == 0x1 {
        registers[ins.x] := Or8(x, y);
      } else if ins.n == 0x2 {
        registers[ins.x] := And8(x, y);
      } else if ins.n == 0x3 {
        registers[ins.x] := Xor8(x, y);
      } else if ins.n == 0x4 {
        var result := Add8(x, y);
        registers[ins.x] := result;
        if result < x {
          registers[VF] := 1;
        } else {
          registers[VF] := 0;
        }
      } else if ins.n == 0x5 {
        registers[ins.x] := Sub8(x, y);
        if x > y {
          registers[VF] := 1;
        } else {
          registers[VF] := 0;
        }
      } else if ins.n == 0x6 {
        registers[VF] := x % 2;
        registers[ins.x] := x / 2;
      } else if ins.n == 0xE {
        registers[VF] := x / 0x80;
        registers[ins.x] := (x as int * 2) % 0x100;
      } else if ins.n == 0x7 {
        registers[ins.x] := Sub8(y, x);
        if y > x {
          registers[VF] := 1;
        } else {
          registers[VF] := 0;
        }
      } else {
        err := Some(BadInstruction(ins.raw));
      }
    }

    /** The pixels handled before cursor (col, row) are flipped under the sprite; the rest are as `before`. */
    ghost predicate DrawnUpTo(before: seq<seq<bool>>, sprite: seq<Uint8>, x0: int, y0: int, col: int, row: int)
      requires Valid() && IsScreen(before)
      reads pixels
    {
      forall px, py | 0 <= px < DISPLAY_X && 0 <= py < DISPLAY_Y ::
        pixels[px, py] ==
          if Done(px, py, col, row) then before[px][py] != Covers(sprite, x0, y0, px, py) else before[px][py]
    }

    /** A cursor past every sprite bit of its row may move to the start of the next row. */
    lemma DrawnUpToNextRow(before: seq<seq<bool>>, sprite: seq<Uint8>, x0: int, y0: int, col: int, row: int)
      requires Valid() && IsScreen(before) && (col >= x0 + 8 || col >= DISPLAY_X)
      ensures DrawnUpTo(before, sprite, x0, y0, col, row) <==> DrawnUpTo(before, sprite, x0, y0, 0, row + 1)
    {
      CollidesBeforeNextRow(before, sprite, x0, y0, col, row);
    }

    /** The body of the inner DXYN loop for an on-screen column. */
    method DrawBit(row: Uint8, x: int, y: int, xLine: int, yLine: int, ghost before: seq<seq<bool>>, ghost sprite: seq<Uint8>)
      requires Valid() && IsScreen(before)
      requires 0 <= x && 0 <= xLine < 8 && x + xLine < DISPLAY_X
      requires 0 <= y && 0 <= yLine < |sprite| && y + yLine < DISPLAY_Y
      requires row == sprite[yLine]
      requires DrawnUpTo(before, sprite, x, y, x + xLine, y + yLine)
      requires registers[VF] == if CollidesBefore(before, sprite, x, y, x + xLine, y + yLine) then 1 else 0
      modifies registers, pixels
      ensures DrawnUpTo(before, sprite, x, y, x + xLine + 1, y + yLine)
      ensures registers[VF] == if CollidesBefore(before, sprite, x, y, x + xLine + 1, y + yLine) then 1 else 0
      ensures forall k | 0 <= k < NUM_REGISTERS && k != VF :: registers[k] == old(registers[k])
    {
      CollidesBeforeStep(before, sprite, x, y, x + xLine, y + yLine);
      var cx, cy := x + xLine, y + yLine;
      assert Covers(sprite, x, y, cx, cy) == SpriteBit(row, xLine);
      ghost var pre := Pixels();
      var lit := pixels[cx, cy];
      assert lit == before[cx][cy];
      if SpriteBit(row, xLine) {
        pixels[cx, cy] := !lit;
        if lit {
          registers[VF] := 1;
        }
      }
      forall px, py | 0 <= px < DISPLAY_X && 0 <= py < DISPLAY_Y
        ensures pixels[px, py] ==
          if Done(px, py, cx + 1, cy) then before[px][py] != Covers(sprite, x, y, px, py) else before[px][py]
      {
        if px != cx || py != cy {
          assert pixels[px, py] == pre[px][py];
          assert Done(px, py, cx + 1, cy) == Done(px, py, cx, cy);
        }
      }
    }

    /** One pass of the inner DXYN loop: the eight bits of sprite row `yLine`. */
    method DrawRow(row: Uint8, x: int, y: int, yLine: int, ghost before: seq<seq<bool>>, ghost sprite: seq<Uint8>)
      requires Valid() && IsScreen(before)
      requires 0 <= x < DISPLAY_X && 0 <= y && 0 <= yLine < |sprite| && y + yLine < DISPLAY_Y
      requires row == sprite[yLine]
      requires DrawnUpTo(before, sprite, x, y, 0, y + yLine)
      requires registers[VF] == if CollidesBefore(before, sprite, x, y, 0, y + yLine) then 1 else 0
      modifies registers, pixels
      ensures DrawnUpTo(before, sprite, x, y, 0, y + yLine + 1)
      ensures registers[VF] == if CollidesBefore(before, sprite, x, y, 0, y + yLine + 1) then 1 else 0
      ensures forall k | 0 <= k < NUM_REGISTERS && k != VF :: registers[k] == old(registers[k])
    {
      var xLine := 0;
      while xLine < 8
        invariant 0 <= xLine <= 8
        invariant forall k | 0 <= k < NUM_REGISTERS && k != VF :: registers[k] == old(registers[k])
        invariant DrawnUpTo(before, sprite, x, y, Clip(x + xLine), y + yLine)
        invariant registers[VF] == if CollidesBefore(before, sprite, x, y, Clip(x + xLine), y + yLine) then 1 else 0
      {
        if SpriteBit(row, xLine) {
          if x + xLine >= DISPLAY_X {
            // the rest of the row is off the right edge
            break;
          }
          DrawBit(row, x, y, xLine, yLine, before, sprite);
        } else if x + xLine < DISPLAY_X {
          DrawBit(row, x, y, xLine, yLine, before, sprite);
        }
        xLine := xLine + 1;
      }
      CollidesBeforeNextRow(before, sprite, x, y, Clip(x + xLine), y + yLine);
      DrawnUpToNextRow(before, sprite, x, y, Clip(x + xLine), y + yLine);
    }

    /**
     * The outer DXYN loop: VF cleared, then one pass of DrawRow per sprite row
     * above the bottom edge. `sprite` holds the bytes the loop reads at I.
     */
    method DrawSprite(x: int, y: int, n: Nibble, ghost before: seq<seq<bool>>, ghost sprite: seq<Uint8>)
      requires Valid() && IsScreen(before)
      requires 0 <= x < DISPLAY_X && 0 <= y < DISPLAY_Y
      requires |sprite| == if n < DISPLAY_Y - y then n else DISPLAY_Y - y
      requires |sprite| == 0 || indexRegister as int + |sprite| <= MEMORY_BYTES
      requires forall r | 0 <= r < |sprite| :: sprite[r] == memory[indexRegister as int + r]
      requires forall px, py | 0 <= px < DISPLAY_X && 0 <= py < DISPLAY_Y :: pixels[px, py] == before[px][py]
      modifies registers, pixels
      ensures DrawnUpTo(before, sprite, x, y, 0, y + |sprite|)
      ensures registers[VF] == if Collides(before, sprite, x, y) then 1 else 0
      ensures forall k | 0 <= k < NUM_REGISTERS && k != VF :: registers[k] == old(registers[k])
    {
      registers[VF] := 0;
      var yLine := 0;
      while yLine < n
        invariant 0 <= yLine <= |sprite|
        invariant forall k | 0 <= k < NUM_REGISTERS && k != VF :: registers[k] == old(registers[k])
        invariant DrawnUpTo(before, sprite, x, y, 0, y + yLine)
        invariant registers[VF] == if CollidesBefore(before, sprite, x, y, 0, y + yLine) then 1 else 0
      {
        if y + yLine >= DISPLAY_Y {
          // the rest of the sprite is off the bottom edge
          break;
        }
        var row := memory[indexRegister as int + yLine];
        DrawRow(row, x, y, yLine, before, sprite);
        yLine := yLine + 1;
      }
      CollidesBeforeEnd(before, sprite, x, y);
    }

    /** DXYN: the bounds check on the sprite rows, then the draw loop. */
    method Draw(ins: Instruction) returns (err: Option<StepError>)
      requires Valid()
      modifies registers, pixels
      ensures Reflects(Semantics.Draw(old(State()), ins), err, old(State()))
    {
      ghost var m := State();
      var x := registers[ins.x] % DISPLAY_X;
      var y := registers[ins.y] % DISPLAY_Y;
      var rows := if ins.n < DISPLAY_Y - y then ins.n else DISPLAY_Y - y;
      if rows > 0 && indexRegister as int + rows > MEMORY_BYTES {
        // reading a sprite row past the end of memory panics in Go
        return Some(Panic(MemoryOutOfRange));
      }
      ghost var sprite := Sprite(m, ins);
      DrawSprite(x, y, ins.n, m.pixels, sprite);
      PixelsEqual(XorSprite(m.pixels, sprite, x, y));
      assert registers[..] == m.regs[VF := registers[VF]];
      err := None;
    }

    /** EX9E and EXA1. */
    method KeySkip(ins: Instruction) returns (err: Option<StepError>)
      requires Valid()
      modifies this`pc
      ensures Reflects(Semantics.KeySkip(old(State()), ins), err, old(State()))
    {
      var key := registers[ins.x];
      err := None;
      if ins.nn == 0x9E {
        if key >= Keypad.NUM_KEYS {
          return Some(Panic(KeyOutOfRange));
        }
        if keypad[key] {
          pc := Add16(pc, 2);
        }
      } else if ins.nn == 0xA1 {
        if key >= Keypad.NUM_KEYS {
          return Some(Panic(KeyOutOfRange));
        }
        if !keypad[key] {
          pc := Add16(pc, 2);
        }
      } else {
        err := Some(BadInstruction(ins.raw));
      }
    }

    /** FX0A: scans the keypad; VX gets the last pressed key, or PC steps back to repeat. */
    method WaitForKey(x: Nibble)
      requires Valid()
      modifies this`pc, registers
      ensures match LastPressed(keypad[..])
        case Some(k) => registers[..] == old(registers[..])[x := k] && pc == old(pc)
        case None => registers[..] == old(registers[..]) && pc == Sub16(old(pc), 2)
    {
      var anyPressed := false;
      for idx := 0 to Keypad.NUM_KEYS
        invariant anyPressed <==> LastPressed(keypad[..idx]).Some?
        invariant anyPressed ==> registers[..] == old(registers[..])[x := LastPressed(keypad[..idx]).value]
        invariant !anyPressed ==> registers[..] == old(registers[..])
        invariant pc == old(pc)
      {
        assert keypad[..idx + 1][..idx] == keypad[..idx];
        if keypad[idx] {
          registers[x] := idx;
          anyPressed := true;
        }
      }
      assert keypad[..Keypad.NUM_KEYS] == keypad[..];
      if !anyPressed {
        pc := Sub16(pc, 2);
      }
    }

    /** FX55: the 16 registers, whatever X is, go to memory at I..I+15. */
    method StoreRegisters()
      requires Valid() && indexRegister + NUM_REGISTERS <= MEMORY_BYTES
      modifies memory
      ensures memory[..] == Overwrite(old(memory[..]), indexRegister, registers[..])
    {
      for idx := 0 to NUM_REGISTERS
        invariant forall a | 0 <= a < MEMORY_BYTES ::
          memory[a] == if indexRegister <= a < indexRegister + idx then registers[a - indexRegister] else old(memory[a])
      {
        memory[indexRegister + idx] := registers[idx];
      }
      assert memory[..] == Overwrite(old(memory[..]), indexRegister, registers[..]);
    }

    /** FX65: the 16 registers, whatever X is, are loaded from memory at I..I+15. */
    method LoadRegisters()
      requires Valid() && indexRegister + NUM_REGISTERS <= MEMORY_BYTES
      modifies registers
      ensures registers[..] == memory[indexRegister .. indexRegister + NUM_REGISTERS]
    {
      for idx := 0 to NUM_REGISTERS
        invariant forall k | 0 <= k < idx :: registers[k] == memory[indexRegister + k]
      {
        registers[idx] := memory[indexRegister + idx];
      }
    }

    /** The FX?? family. */
    method Misc(ins: Instruction) returns (err: Option<StepError>)
      requires Valid()
      modifies this`delayTimer, this`soundTimer, this`indexRegister, this`pc, registers, memory
      ensures Reflects(Semantics.Misc(old(State()), ins), err, old(State()))
    {
      err := None;
      if ins.nn == 0x07 {
        registers[ins.x] := delayTimer;
      } else if ins.nn == 0x15 {
        delayTimer := registers[ins.x];
      } else if ins.nn == 0x18 {
        soundTimer := registers[ins.x];
      } else if ins.nn == 0x1E {
        indexRegister := Add16(indexRegister, registers[ins.x]);
      } else if ins.nn == 0x0A {
        WaitForKey(ins.x);
      } else if ins.nn == 0x29 {
        indexRegister := FONT_ADDRESS + 5 * registers[ins.x] as int;
      } else if ins.nn == 0x33 {
        if indexRegister + 2 >= MEMORY_BYTES {
          // Memory[I], Memory[I+1] or Memory[I+2] is out of range
          return Some(Panic(MemoryOutOfRange));
        }
        var val := registers[ins.x];
        memory[indexRegister] := val / 100;
        memory[indexRegister + 1] := (val / 10) % 10;
        memory[indexRegister + 2] := val % 10;
      } else if ins.nn == 0x55 {
        if indexRegister + NUM_REGISTERS > MEMORY_BYTES {
          return Some(Panic(MemoryOutOfRange));
        }
        StoreRegisters();
      } else if ins.nn == 0x65 {
        if indexRegister + NUM_REGISTERS > MEMORY_BYTES {
          return Some(Panic(MemoryOutOfRange));
        }
        LoadRegisters();
      } else {
        err := Some(BadInstruction(ins.raw));
      }
    }
  }
}
