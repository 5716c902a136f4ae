/**
 * What the interpreter promises, proved about the step function of module
 * Semantics: program-counter discipline, the error cases, the stack, the
 * arithmetic flags, drawing, and the memory instructions.
 */
module Properties {
  import opened Bits
  import opened Wrappers
  import opened Errors
  import opened Decoder
  import opened Semantics
  import Keypad

  // ---------------------------------------------------------------- program counter

  /** The instructions that neither jump nor skip nor wait. */
  predicate Sequential(ins: Instruction)
  {
    || ins.prefix in {0x6, 0x7, 0x8, 0xA, 0xC, 0xD}
    || (ins.prefix == 0x0 && ins.nn == 0xE0)
    || (ins.prefix == 0xF && ins.nn != 0x0A)
  }

  /** A sequential instruction that succeeds moves PC to the next word and leaves the stack alone. */
  lemma SequentialAdvances(m: Machine, ins: Instruction, rnd: Uint8)
    requires Valid(m) && rnd < 0xFF && Sequential(ins)
    ensures var r := Execute(m, ins, rnd);
      r.Ok? ==> r.value.pc == Add16(m.pc, 2) && r.value.sp == m.sp && r.value.stack == m.stack
  {
  }

  /** The condition of the skip families 3XNN, 4XNN, 5XY0 and 9XY0. */
  predicate SkipTaken(m: Machine, ins: Instruction)
    requires Valid(m)
  {
    match ins.prefix
    case 0x3 => m.regs[ins.x] == ins.nn
    case 0x4 => m.regs[ins.x] != ins.nn
    case 0x5 => m.regs[ins.x] == m.regs[ins.y]
    case _ => m.regs[ins.x] != m.regs[ins.y]
  }

  lemma Add16Twice(a: Uint16)
    ensures Add16(Add16(a, 2), 2) == Add16(a, 4)
  {
  }

  /** A skip moves PC on by four bytes when its condition holds and by two otherwise; nothing else changes. */
  lemma SkipsByFourOrTwo(m: Machine, ins: Instruction, rnd: Uint8)
    requires Valid(m) && rnd < 0xFF && ins.prefix in {0x3, 0x4, 0x5, 0x9}
    ensures Execute(m, ins, rnd) == Ok(m.(pc := Add16(m.pc, if SkipTaken(m, ins) then 4 else 2)))
  {
    Add16Twice(m.pc);
  }

  /**
   * EX9E and EXA1 skip on the key numbered VX being pressed or released;
   * a key number past 15 panics and any other EX?? form is an error.
   */
  lemma KeySkipOutcome(m: Machine, ins: Instruction, rnd: Uint8)
    requires Valid(m) && rnd < 0xFF && ins.prefix == 0xE
    ensures var key := m.regs[ins.x];
      Execute(m, ins, rnd) ==
        if ins.nn != 0x9E && ins.nn != 0xA1 then Err(BadInstruction(ins.raw))
        else if key >= Keypad.NUM_KEYS then Err(Panic(KeyOutOfRange))
        else Ok(m.(pc := Add16(m.pc, if m.keypad[key] == (ins.nn == 0x9E) then 4 else 2)))
  {
    Add16Twice(m.pc);
  }

  /** FX0A with no key pressed leaves the whole machine as it was, so the same word runs again. */
  lemma WaitForKeyRepeats(m: Machine, ins: Instruction, rnd: Uint8)
    requires Valid(m) && rnd < 0xFF && ins.prefix == 0xF && ins.nn == 0x0A
    requires forall k | 0 <= k < Keypad.NUM_KEYS :: !m.keypad[k]
    ensures Execute(m, ins, rnd) == Ok(m)
  {
    assert LastPressed(m.keypad) == None;
    var waiting := m.(pc := Sub16(m.pc, 2));
    assert Misc(m, ins) == Ok(waiting);
    assert Execute(m, ins, rnd) == Ok(Advance(waiting));
    assert Add16(Sub16(m.pc, 2), 2) == m.pc;
  }

  /** FX0A with a key pressed stores the highest pressed key number in VX and moves on. */
  lemma WaitForKeyTakesHighest(m: Machine, ins: Instruction, rnd: Uint8, k: nat)
    requires Valid(m) && rnd < 0xFF && ins.prefix == 0xF && ins.nn == 0x0A
    requires k < Keypad.NUM_KEYS && m.keypad[k] && forall j | k < j < Keypad.NUM_KEYS :: !m.keypad[j]
    ensures Execute(m, ins, rnd) == Ok(m.(regs := m.regs[ins.x := k], pc := Add16(m.pc, 2)))
  {
    assert LastPressed(m.keypad) == Some(k);
  }

  /** 1NNN and BXNN transfer control; 1NNN does not step past its target. */
  lemma JumpTargets(m: Machine, ins: Instruction, rnd: Uint8)
    requires Valid(m) && rnd < 0xFF
    ensures ins.prefix == 0x1 ==> Execute(m, ins, rnd) == Ok(m.(pc := ins.nnn))
    ensures ins.prefix == 0xB ==> Execute(m, ins, rnd) == Ok(m.(pc := (m.regs[ins.x] + ins.nnn + 2) % 0x1_0000))
  {
  }

  /**
   * 6XNN, 8XY0-8XY3, CXNN and FX07 write VX and nothing else: no flag is
   * touched (8XY1-8XY3 leave VF as it was), and PC moves on by 2.
   */
  lemma SingleRegister(m: Machine, ins: Instruction, rnd: Uint8)
    requires Valid(m) && rnd < 0xFF
    requires ins.prefix in {0x6, 0xC} || (ins.prefix == 0x8 && ins.n <= 3) || (ins.prefix == 0xF && ins.nn == 0x07)
    ensures var r := Execute(m, ins, rnd);
      var x, y := m.regs[ins.x], m.regs[ins.y];
      && r.Ok?
      && r.value.(regs := m.regs) == m.(pc := Add16(m.pc, 2))
      && (forall k | 0 <= k < NUM_REGISTERS && k != ins.x :: r.value.regs[k] == m.regs[k])
      && r.value.regs[ins.x] ==
        if ins.prefix == 0x6 then ins.nn
        else if ins.prefix == 0xC then And8(rnd, ins.nn)
        else if ins.prefix == 0xF then m.delay
        else if ins.n == 0 then y
        else if ins.n == 1 then Or8(x, y)
        else if ins.n == 2 then And8(x, y)
        else Xor8(x, y)
  {
  }

  /**
   * ANNN, FX15, FX18, FX1E and FX29 write one of I, the delay timer and the
   * sound timer, leave every register and the rest of the machine alone, and
   * move PC on by 2.
   */
  lemma SingleField(m: Machine, ins: Instruction, rnd: Uint8)
    requires Valid(m) && rnd < 0xFF
    requires ins.prefix == 0xA || (ins.prefix == 0xF && ins.nn in {0x15, 0x18, 0x1E, 0x29})
    ensures var r := Execute(m, ins, rnd);
      var vx := m.regs[ins.x];
      && r.Ok?
      && r.value.(delay := m.delay, sound := m.sound, index := m.index) == m.(pc := Add16(m.pc, 2))
      && (ins.prefix == 0xA ==> r.value.index == ins.nnn && r.value.delay == m.delay && r.value.sound == m.sound)
      && (ins.prefix == 0xF && ins.nn == 0x15 ==> r.value.delay == vx && r.value.index == m.index && r.value.sound == m.sound)
      && (ins.prefix == 0xF && ins.nn == 0x18 ==> r.value.sound == vx && r.value.index == m.index && r.value.delay == m.delay)
      && (ins.prefix == 0xF && ins.nn == 0x1E ==> r.value.index == Add16(m.index, vx) && r.value.delay == m.delay && r.value.sound == m.sound)
      && (ins.prefix == 0xF && ins.nn == 0x29 ==> r.value.index == FONT_ADDRESS + 5 * vx as int && r.value.delay == m.delay && r.value.sound == m.sound)
  {
  }

  // ---------------------------------------------------------------- errors

  /** The undefined forms of the 8XY?, EX?? and FX?? families. */
  predicate Undefined(ins: Instruction)
  {
    || (ins.prefix == 0x8 && ins.n !in {0x0, 0x1, 0x2, 0x3, 0x4, 0x5, 0x6, 0x7, 0xE})
    || (ins.prefix == 0xE && ins.nn !in {0x9E, 0xA1})
    || (ins.prefix == 0xF && ins.nn !in {0x07, 0x15, 0x18, 0x1E, 0x0A, 0x29, 0x33, 0x55, 0x65})
  }

  /** A step returns the bad-instruction error exactly for the undefined forms, carrying the word. */
  lemma BadInstructionExactly(m: Machine, ins: Instruction, rnd: Uint8)
    requires Valid(m) && rnd < 0xFF
    ensures (Execute(m, ins, rnd).Err? && Execute(m, ins, rnd).error.BadInstruction?) <==> Undefined(ins)
    ensures Undefined(ins) ==> Execute(m, ins, rnd) == Err(BadInstruction(ins.raw))
  {
    if ins.prefix == 0x0 {
      assert Execute(m, ins, rnd).Err? ==> Execute(m, ins, rnd).error.Panic?;
    } else if ins.prefix == 0x2 {
      assert Execute(m, ins, rnd).Err? ==> !Execute(m, ins, rnd).error.BadInstruction?;
    }
  }

  /** An 0x0 word other than 00E0 and 00EE panics; only its low byte is looked at. */
  lemma SystemPanics(m: Machine, ins: Instruction, rnd: Uint8)
    requires Valid(m) && rnd < 0xFF && ins.prefix == 0x0
    ensures ins.nn == 0xE0 ==> Execute(m, ins, rnd) == Ok(m.(pixels := Blank(), pc := Add16(m.pc, 2)))
    ensures ins.nn != 0xE0 && ins.nn != 0xEE ==>
      Execute(m, ins, rnd) == Err(Panic(BadSystemInstruction(ins.raw)))
  {
  }

  // ---------------------------------------------------------------- stack

  /** The stack indices a machine can reach from a fresh one: 0..15, and 255 after a pop at 0. */
  predicate SaneStack(m: Machine)
  {
    m.sp < STACK_SIZE || m.sp == 0xFF
  }

  /**
   * StackPush succeeds exactly when the incremented index is a slot; the
   * overflow error needs index 16, and index 15 panics.
   */
  lemma PushOutcome(m: Machine, val: Uint16)
    requires Valid(m)
    ensures Push(m, val).Ok? <==> m.sp < STACK_SIZE - 1 || m.sp == 0xFF
    ensures Push(m, val) == Err(StackOverflow) <==> m.sp == STACK_SIZE
    ensures Push(m, val).Ok? ==>
      var sp := (m.sp + 1) % 0x100;
      Push(m, val).value == m.(sp := sp, stack := m.stack[sp := val])
  {
  }

  /** Pop after Push returns the pushed value and restores the index. */
  lemma PopAfterPush(m: Machine, val: Uint16)
    requires Valid(m) && Push(m, val).Ok?
    ensures var pushed := Push(m, val).value;
      Pop(pushed) == Ok((val, pushed.(sp := m.sp)))
  {
  }

  /** 2NNN then 00EE returns to the word after the call with the stack index restored. */
  lemma CallThenReturn(m: Machine, call: Instruction, ret: Instruction, rnd: Uint8)
    requires Valid(m) && rnd < 0xFF
    requires call.prefix == 0x2 && ret.prefix == 0x0 && ret.nn == 0xEE
    requires Execute(m, call, rnd).Ok?
    ensures var called := Execute(m, call, rnd).value;
      && called.pc == call.nnn
      && Execute(called, ret, rnd) == Ok(called.(sp := m.sp, pc := Add16(m.pc, 2)))
  {
    PushOutcome(m, m.pc);
    PopAfterPush(m, m.pc);
  }

  /** A call at stack index 16 is the overflow error and changes nothing. */
  lemma CallOverflow(m: Machine, call: Instruction, rnd: Uint8)
    requires Valid(m) && rnd < 0xFF && call.prefix == 0x2 && m.sp == STACK_SIZE
    ensures Execute(m, call, rnd) == Err(StackOverflow)
  {
  }

  /** Only 2NNN and 00EE move the stack index, so every step keeps it in the reachable set. */
  lemma {:induction false} StepKeepsSaneStack(m: Machine, rnd: Uint8)
    requires Valid(m) && rnd < 0xFF && SaneStack(m)
    ensures Step(m, rnd) != Err(StackOverflow)
    ensures Step(m, rnd).Ok? ==> SaneStack(Step(m, rnd).value)
  {
    match Fetch(m.memory, m.pc)
    case Err(_) =>
    case Ok(ins) =>
      if ins.prefix == 0x2 {
        PushOutcome(m, m.pc);
      } else if ins.prefix != 0x1 {
        EffectKeepsStack(m, ins, rnd);
      }
  }

  lemma EffectKeepsStack(m: Machine, ins: Instruction, rnd: Uint8)
    requires Valid(m) && rnd < 0xFF && ins.prefix != 0x1 && ins.prefix != 0x2 && SaneStack(m)
    ensures Effect(m, ins, rnd) != Err(StackOverflow)
    ensures Effect(m, ins, rnd).Ok? ==> SaneStack(Effect(m, ins, rnd).value)
  {
  }

  /** From a machine with a reachable stack index, the interpreter loop never reports stack overflow. */
  lemma {:induction false} RunNeverOverflows(m: Machine, rnds: seq<Uint8>)
    requires Valid(m) && SaneStack(m) && forall i | 0 <= i < |rnds| :: rnds[i] < 0xFF
    ensures Run(m, rnds) != Err(StackOverflow)
    ensures Run(m, rnds).Ok? ==> SaneStack(Run(m, rnds).value)
    decreases |rnds|
  {
    if |rnds| > 0 {
      StepKeepsSaneStack(m, rnds[0]);
      if Step(m, rnds[0]).Ok? {
        RunNeverOverflows(Step(m, rnds[0]).value, rnds[1..]);
      }
    }
  }

  // ---------------------------------------------------------------- arithmetic

  /** 7XNN adds modulo 256 into VX and changes nothing else, the flag included. */
  lemma AddImmediateKeepsFlag(m: Machine, ins: Instruction, rnd: Uint8)
    requires Valid(m) && rnd < 0xFF && ins.prefix == 0x7
    ensures var r := Execute(m, ins, rnd);
      && r.Ok?
      && r.value.(regs := m.regs) == m.(pc := Add16(m.pc, 2))
      && (forall k | 0 <= k < NUM_REGISTERS && k != ins.x :: r.value.regs[k] == m.regs[k])
      && (ins.x != VF ==> r.value.regs[VF] == m.regs[VF])
      && r.value.regs[ins.x] as int + 0x100 * (if m.regs[ins.x] + ins.nn > 0xFF then 1 else 0) == m.regs[ins.x] + ins.nn
  {
  }

  /** 8XY4: VF is the carry out of the eight-bit sum, and VX the sum without it. */
  lemma AddCarry(m: Machine, ins: Instruction, rnd: Uint8)
    requires Valid(m) && rnd < 0xFF && ins.prefix == 0x8 && ins.n == 0x4
    ensures var r := Execute(m, ins, rnd);
      var x: int, y: int := m.regs[ins.x], m.regs[ins.y];
      var carry := if x + y > 0xFF then 1 else 0;
      && r.Ok?
      && r.value.regs[VF] == carry
      && (ins.x != VF ==> r.value.regs[ins.x] as int + 0x100 * carry == x + y)
  {
    var x: int, y: int := m.regs[ins.x], m.regs[ins.y];
    assert (Add8(x, y) < x) <==> x + y > 0xFF;
  }

  /**
   * 8XY5: VF is 1 exactly when VX > VY. Equal operands give VF = 0 with no
   * borrow: the flag is not the complement of a borrow.
   */
  lemma SubtractFlag(m: Machine, ins: Instruction, rnd: Uint8)
    requires Valid(m) && rnd < 0xFF && ins.prefix == 0x8 && ins.n == 0x5
    ensures var r := Execute(m, ins, rnd);
      var x: int, y: int := m.regs[ins.x], m.regs[ins.y];
      && r.Ok?
      && (r.value.regs[VF] == 1 <==> x > y)
      && (r.value.regs[VF] == 0 <==> x <= y)
      && (ins.x != VF ==> r.value.regs[ins.x] == if x >= y then x - y else x - y + 0x100)
  {
  }

  /** 8XY7: VF is 1 exactly when VY > VX, and VX becomes VY - VX modulo 256. */
  lemma ReverseSubtractFlag(m: Machine, ins: Instruction, rnd: Uint8)
    requires Valid(m) && rnd < 0xFF && ins.prefix == 0x8 && ins.n == 0x7
    ensures var r := Execute(m, ins, rnd);
      var x: int, y: int := m.regs[ins.x], m.regs[ins.y];
      && r.Ok?
      && (r.value.regs[VF] == 1 <==> y > x)
      && (r.value.regs[VF] == 0 <==> y <= x)
      && (ins.x != VF ==> r.value.regs[ins.x] == if y >= x then y - x else y - x + 0x100)
  {
  }

  /** 8XY6: VX halves and VF holds the bit shifted out; with X = F the shifted value wins. */
  lemma ShiftRightSplits(m: Machine, ins: Instruction, rnd: Uint8)
    requires Valid(m) && rnd < 0xFF && ins.prefix == 0x8 && ins.n == 0x6
    ensures var r := Execute(m, ins, rnd);
      var x: int := m.regs[ins.x];
      && r.Ok?
      && (ins.x != VF ==> r.value.regs[VF] <= 1 && 2 * r.value.regs[ins.x] + r.value.regs[VF] == x)
      && (ins.x == VF ==> 2 * r.value.regs[VF] <= x <= 2 * r.value.regs[VF] + 1)
      && forall k | 0 <= k < NUM_REGISTERS && k != ins.x && k != VF :: r.value.regs[k] == m.regs[k]
  {
  }

  /** 8XYE: VX doubles modulo 256 and VF holds the bit shifted out; with X = F the shifted value wins. */
  lemma ShiftLeftSplits(m: Machine, ins: Instruction, rnd: Uint8)
    requires Valid(m) && rnd < 0xFF && ins.prefix == 0x8 && ins.n == 0xE
    ensures var r := Execute(m, ins, rnd);
      var x: int := m.regs[ins.x];
      && r.Ok?
      && (ins.x != VF ==> r.value.regs[VF] <= 1 && r.value.regs[ins.x] as int + 0x100 * r.value.regs[VF] as int == 2 * x)
      && (ins.x == VF ==> r.value.regs[VF] as int + 0x100 * (x / 0x80) == 2 * x)
      && forall k | 0 <= k < NUM_REGISTERS && k != ins.x && k != VF :: r.value.regs[k] == m.regs[k]
  {
  }

  /** The 8XY6 cases of the repository's tests: word 0x8126 at 0x200, V1 = 4 or 1. */
  lemma ShiftRightTestCases(m: Machine, rnd: Uint8)
    requires Valid(m) && rnd < 0xFF && m.pc == PROGRAM_ADDRESS
    requires m.memory[PROGRAM_ADDRESS] == 0x81 && m.memory[PROGRAM_ADDRESS + 1] == 0x26
    ensures m.regs[1] == 4 ==> Step(m, rnd).Ok? && Step(m, rnd).value.regs[1] == 2 && Step(m, rnd).value.regs[VF] == 0
    ensures m.regs[1] == 1 ==> Step(m, rnd).Ok? && Step(m, rnd).value.regs[1] == 0 && Step(m, rnd).value.regs[VF] == 1
  {
    var ins := Fetch(m.memory, m.pc).value;
    assert ins.prefix == 0x8 && ins.x == 1 && ins.n == 0x6;
    ShiftRightSplits(m, ins, rnd);
  }

  /** The 8XYE cases of the repository's tests: word 0x812E at 0x200, V1 = 4 or 255. */
  lemma ShiftLeftTestCases(m: Machine, rnd: Uint8)
    requires Valid(m) && rnd < 0xFF && m.pc == PROGRAM_ADDRESS
    requires m.memory[PROGRAM_ADDRESS] == 0x81 && m.memory[PROGRAM_ADDRESS + 1] == 0x2E
    ensures m.regs[1] == 4 ==> Step(m, rnd).Ok? && Step(m, rnd).value.regs[1] == 8 && Step(m, rnd).value.regs[VF] == 0
    ensures m.regs[1] == 0xFF ==> Step(m, rnd).Ok? && Step(m, rnd).value.regs[1] == 0xFE && Step(m, rnd).value.regs[VF] == 1
  {
    var ins := Fetch(m.memory, m.pc).value;
    assert ins.prefix == 0x8 && ins.x == 1 && ins.n == 0xE;
    ShiftLeftSplits(m, ins, rnd);
  }

  // ---------------------------------------------------------------- drawing

  /** Every pixel outside the sprite's clipped rectangle is left as it was. */
  lemma DrawStaysInRect(m: Machine, ins: Instruction)
    requires Valid(m) && Draw(m, ins).Ok?
    ensures var x0, y0 := m.regs[ins.x] % DISPLAY_X, m.regs[ins.y] % DISPLAY_Y;
      forall px, py | 0 <= px < DISPLAY_X && 0 <= py < DISPLAY_Y ::
        !(x0 <= px < x0 + 8 && y0 <= py < y0 + SpriteRows(m, ins)) ==>
          Draw(m, ins).value.pixels[px][py] == m.pixels[px][py]
  {
  }

  /**
   * Inside the clipped rectangle each pixel is flipped exactly when the
   * sprite byte read from memory at I + row has its bit for that column on.
   */
  lemma DrawFlipsSpriteBits(m: Machine, ins: Instruction)
    requires Valid(m) && Draw(m, ins).Ok?
    ensures var x0, y0 := m.regs[ins.x] % DISPLAY_X, m.regs[ins.y] % DISPLAY_Y;
      forall px, py | x0 <= px < DISPLAY_X && x0 <= px < x0 + 8 && y0 <= py < y0 + SpriteRows(m, ins) ::
        && m.index + (py - y0) < MEMORY_BYTES
        && Draw(m, ins).value.pixels[px][py] ==
             (m.pixels[px][py] != SpriteBit(m.memory[m.index + (py - y0)], px - x0))
  {
  }

  /** DXYN panics exactly when a sprite row to be read lies past the end of memory. */
  lemma DrawPanicsIff(m: Machine, ins: Instruction)
    requires Valid(m)
    ensures Draw(m, ins).Err? <==> SpriteRows(m, ins) > 0 && m.index + SpriteRows(m, ins) > MEMORY_BYTES
    ensures Draw(m, ins).Err? ==> Draw(m, ins) == Err(Panic(MemoryOutOfRange))
  {
  }

  /** VF is 1 after DXYN exactly when the draw turned some pixel off, and only VF among the registers changes. */
  lemma DrawFlagsErasure(m: Machine, ins: Instruction)
    requires Valid(m) && Draw(m, ins).Ok?
    ensures var d := Draw(m, ins).value;
      && (d.regs[VF] == 1 <==> exists px, py | 0 <= px < DISPLAY_X && 0 <= py < DISPLAY_Y ::
            m.pixels[px][py] && !d.pixels[px][py])
      && d.regs[VF] <= 1
      && forall k | 0 <= k < NUM_REGISTERS && k != VF :: d.regs[k] == m.regs[k]
  {
    var d := Draw(m, ins).value;
    var x0, y0 := m.regs[ins.x] % DISPLAY_X, m.regs[ins.y] % DISPLAY_Y;
    var sprite := Sprite(m, ins);
    if Collides(m.pixels, sprite, x0, y0) {
      var px, py :| 0 <= px < DISPLAY_X && 0 <= py < DISPLAY_Y && Covers(sprite, x0, y0, px, py) && m.pixels[px][py];
      assert !d.pixels[px][py];
    }
  }

  /**
   * Drawing the same sprite twice at the same place restores the screen.
   * The second draw reports a collision exactly when the first turned some
   * pixel on.
   */
  lemma DrawTwiceRestores(m: Machine, ins: Instruction)
    requires Valid(m) && ins.x != VF && ins.y != VF && Draw(m, ins).Ok?
    ensures var once := Draw(m, ins).value;
      && Draw(once, ins).Ok?
      && Draw(once, ins).value.pixels == m.pixels
      && (Draw(once, ins).value.regs[VF] == 1 <==> exists px, py | 0 <= px < DISPLAY_X && 0 <= py < DISPLAY_Y ::
            !m.pixels[px][py] && once.pixels[px][py])
  {
    var once := Draw(m, ins).value;
    assert once.regs[ins.x] == m.regs[ins.x] && once.regs[ins.y] == m.regs[ins.y];
    assert Sprite(once, ins) == Sprite(m, ins);
    var twice := Draw(once, ins).value;
    forall px | 0 <= px < DISPLAY_X
      ensures twice.pixels[px] == m.pixels[px]
    {
    }
    var x0, y0 := m.regs[ins.x] % DISPLAY_X, m.regs[ins.y] % DISPLAY_Y;
    var sprite := Sprite(m, ins);
    if Collides(once.pixels, sprite, x0, y0) {
      var px, py :| 0 <= px < DISPLAY_X && 0 <= py < DISPLAY_Y && Covers(sprite, x0, y0, px, py) && once.pixels[px][py];
      assert !m.pixels[px][py];
    }
  }

  // ---------------------------------------------------------------- memory instructions

  /** The decimal digits of a byte are unique: any three digits spelling `v` are the ones BcdDigits gives. */
  lemma BcdUnique(v: Uint8, h: int, t: int, o: int)
    requires 0 <= h <= 9 && 0 <= t <= 9 && 0 <= o <= 9 && 100 * h + 10 * t + o == v
    ensures BcdDigits(v) == (h, t, o)
  {
    assert v / 100 == h;
    assert (v / 10) == 10 * h + t;
  }

  /**
   * FX33 panics when I + 2 is past the end of memory; otherwise it stores
   * the three decimal digits of VX at I, I + 1 and I + 2 and no other byte.
   */
  lemma BcdStoresDigits(m: Machine, ins: Instruction, rnd: Uint8)
    requires Valid(m) && rnd < 0xFF && ins.prefix == 0xF && ins.nn == 0x33
    ensures var r := Execute(m, ins, rnd);
      var i := m.index;
      && (r.Err? <==> i + 2 >= MEMORY_BYTES)
      && (r.Ok? ==>
        && r.value.memory[i] <= 9 && r.value.memory[i + 1] <= 9 && r.value.memory[i + 2] <= 9
        && 100 * r.value.memory[i] + 10 * r.value.memory[i + 1] + r.value.memory[i + 2] == m.regs[ins.x]
        && (forall a | 0 <= a < MEMORY_BYTES && !(i <= a <= i + 2) :: r.value.memory[a] == m.memory[a])
        && r.value.(memory := m.memory) == m.(pc := Add16(m.pc, 2)))
  {
  }

  /** The BCD cases of the repository's tests: word 0xF133 at 0x200, I = 0x500. */
  lemma BcdTestCases(m: Machine, rnd: Uint8)
    requires Valid(m) && rnd < 0xFF && m.pc == PROGRAM_ADDRESS && m.index == 0x500
    requires m.memory[PROGRAM_ADDRESS] == 0xF1 && m.memory[PROGRAM_ADDRESS + 1] == 0x33
    ensures Step(m, rnd).Ok?
    ensures m.regs[1] == 123 ==> Step(m, rnd).value.memory[0x500 .. 0x503] == [1, 2, 3]
    ensures m.regs[1] == 10 ==> Step(m, rnd).value.memory[0x500 .. 0x503] == [0, 1, 0]
    ensures m.regs[1] == 255 ==> Step(m, rnd).value.memory[0x500 .. 0x503] == [2, 5, 5]
    ensures m.regs[1] == 0 ==> Step(m, rnd).value.memory[0x500 .. 0x503] == [0, 0, 0]
    ensures m.regs[1] == 7 ==> Step(m, rnd).value.memory[0x500 .. 0x503] == [0, 0, 7]
  {
    var d := Step(m, rnd).value.memory;
    assert d[0x500 .. 0x503] == [d[0x500], d[0x501], d[0x502]];
  }

  /** FX55 panics when the block runs past memory; otherwise memory I..I+15 holds V0..VF. */
  lemma StoreRegistersBlock(m: Machine, ins: Instruction, rnd: Uint8)
    requires Valid(m) && rnd < 0xFF && ins.prefix == 0xF && ins.nn == 0x55
    ensures var r := Execute(m, ins, rnd);
      && (r.Err? <==> m.index + NUM_REGISTERS > MEMORY_BYTES)
      && (r.Ok? ==>
        && r.value.memory[m.index .. m.index + NUM_REGISTERS] == m.regs
        && (forall a | 0 <= a < MEMORY_BYTES && !(m.index <= a < m.index + NUM_REGISTERS) ::
              r.value.memory[a] == m.memory[a])
        && r.value.(memory := m.memory) == m.(pc := Add16(m.pc, 2)))
  {
  }

  /** FX65 panics when the block runs past memory; otherwise V0..VF hold memory I..I+15. */
  lemma LoadRegistersBlock(m: Machine, ins: Instruction, rnd: Uint8)
    requires Valid(m) && rnd < 0xFF && ins.prefix == 0xF && ins.nn == 0x65
    ensures var r := Execute(m, ins, rnd);
      && (r.Err? <==> m.index + NUM_REGISTERS > MEMORY_BYTES)
      && (r.Ok? ==> forall k | 0 <= k < NUM_REGISTERS :: r.value.regs[k] == m.memory[m.index + k])
      && (r.Ok? ==> r.value.(regs := m.regs) == m.(pc := Add16(m.pc, 2)))
  {
  }

  /** FX55 then FX65 with I unchanged gives back the registers. */
  lemma StoreThenLoadRegisters(m: Machine, store: Instruction, load: Instruction, rnd: Uint8)
    requires Valid(m) && rnd < 0xFF
    requires store.prefix == 0xF && store.nn == 0x55 && load.prefix == 0xF && load.nn == 0x65
    requires Execute(m, store, rnd).Ok?
    ensures var stored := Execute(m, store, rnd).value;
      Execute(stored, load, rnd).Ok? && Execute(stored, load, rnd).value.regs == m.regs
  {
    StoreRegistersBlock(m, store, rnd);
  }

  /** FX65 then FX55 with I unchanged leaves memory as it was. */
  lemma LoadThenStoreRegisters(m: Machine, load: Instruction, store: Instruction, rnd: Uint8)
    requires Valid(m) && rnd < 0xFF
    requires store.prefix == 0xF && store.nn == 0x55 && load.prefix == 0xF && load.nn == 0x65
    requires Execute(m, load, rnd).Ok?
    ensures var loaded := Execute(m, load, rnd).value;
      Execute(loaded, store, rnd).Ok? && Execute(loaded, store, rnd).value.memory == m.memory
  {
    var i := m.index;
    var loaded := Execute(m, load, rnd).value;
    assert loaded == m.(regs := m.memory[i .. i + NUM_REGISTERS], pc := Add16(m.pc, 2));
    var stored := Execute(loaded, store, rnd);
    assert stored == Ok(loaded.(memory := Overwrite(m.memory, i, m.memory[i .. i + NUM_REGISTERS]), pc := Add16(loaded.pc, 2)));
    assert Overwrite(m.memory, i, m.memory[i .. i + NUM_REGISTERS]) == m.memory;
  }

  /** The default font is where FX29 looks: five bytes per hex digit from 0x50 on. */
  predicate FontLoaded(m: Machine)
    requires Valid(m)
  {
    m.memory[FONT_ADDRESS .. FONT_ADDRESS + |DEFAULT_FONT|] == DEFAULT_FONT
  }

  /** A fresh machine's memory, zeros with the font written at 0x50, has the font loaded. */
  lemma FreshMemoryHasFont(memory: seq<Uint8>)
    requires memory == Overwrite(seq(MEMORY_BYTES, _ => 0), FONT_ADDRESS, DEFAULT_FONT)
    ensures memory[FONT_ADDRESS .. FONT_ADDRESS + |DEFAULT_FONT|] == DEFAULT_FONT
    ensures forall a | 0 <= a < MEMORY_BYTES && !(FONT_ADDRESS <= a < FONT_ADDRESS + |DEFAULT_FONT|) :: memory[a] == 0
  {
  }

  /** With a font loaded at 0x50, the five bytes from 0x50 + 5·d are its glyph d. */
  lemma GlyphInFont(memory: seq<Uint8>, font: seq<Uint8>, digit: nat)
    requires FONT_ADDRESS + |font| <= |memory| && 5 * digit + 5 <= |font|
    requires memory[FONT_ADDRESS .. FONT_ADDRESS + |font|] == font
    ensures memory[FONT_ADDRESS + 5 * digit .. FONT_ADDRESS + 5 * digit + 5] == font[5 * digit .. 5 * digit + 5]
  {
    var o := 5 * digit;
    var glyph, want := memory[FONT_ADDRESS + o .. FONT_ADDRESS + o + 5], font[o .. o + 5];
    forall j | 0 <= j < 5
      ensures glyph[j] == want[j]
    {
      assert glyph[j] == memory[FONT_ADDRESS .. FONT_ADDRESS + |font|][o + j];
    }
    assert glyph == want;
  }

  /** FX29 points I at the five-byte glyph of the hex digit in VX. */
  lemma FontGlyph(m: Machine, ins: Instruction, rnd: Uint8)
    requires Valid(m) && rnd < 0xFF && ins.prefix == 0xF && ins.nn == 0x29
    requires FontLoaded(m) && m.regs[ins.x] < 16
    ensures var r := Execute(m, ins, rnd);
      var digit := m.regs[ins.x];
      && r.Ok?
      && r.value.index + 5 <= MEMORY_BYTES
      && m.memory[r.value.index .. r.value.index + 5] == DEFAULT_FONT[5 * digit .. 5 * digit + 5]
  {
    var digit := m.regs[ins.x];
    assert Execute(m, ins, rnd) == Ok(m.(index := FONT_ADDRESS + 5 * digit, pc := Add16(m.pc, 2)));
    GlyphInFont(m.memory, DEFAULT_FONT, digit);
  }

}
