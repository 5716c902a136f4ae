# CHIP-8 interpreter core, modelled in Dafny

This project models the virtual machine of the chip8go CHIP-8 emulator. The machine has:

- 4 KiB of memory;
- sixteen 8-bit registers, with VF as the flag register;
- a 16-bit program counter and index register;
- a 16-slot call stack;
- delay and sound timers;
- a 16-key keypad;
- a 64×32 monochrome framebuffer.

The model has three layers.

- **Pure functions.** `Decoder.Fetch` decodes the word at PC. `Keypad.KeyToKeyIndex` maps host keys to hex keys. `Timers.Tick` is one tick of the timer loop.
- **A specification.** `Semantics.Step` is one fetch–decode–execute transition. It is a function on a `Machine` value and covers every opcode family 0x0–0xF, with Go's 8- and 16-bit wrap-around written out. An undefined form gives the interpreter's error return. A Go runtime panic (an index out of range, or an unknown 0x0 word) gives an explicit `Panic` fault. Both leave the state as it was.
- **An imperative class.** `Emulator.Chip8` keeps the Go record's arrays (memory, registers, stack, keypad and the pixel grid) and its scalar fields. Each of its methods works on them in place with the Go code's own loops: the nested draw loop, the FX0A keypad scan, the FX55/FX65 copies, and the font, program and clear loops. Each method is proved to leave the object in exactly the state the specification gives, or in the state before it on an error.

Module `Properties` proves what the interpreter promises about `Semantics`:

- program-counter discipline;
- which words are errors;
- the stack, including its quirks;
- the arithmetic flags;
- drawing;
- BCD;
- the block copies;
- the font lookup.

The random byte of CXNN is a parameter `rnd`. Go draws it with `rand.Intn(0xFF)`, so it is required to be below 255.

## Model

| member | source | states |
|---|---|---|
| Decoder.Decode | chip8.go:262-272 | the fields recombine into the word: prefix·4096 + NNN = raw, X·256 + Y·16 + N = NNN, Y·16 + N = NN |
| Decoder.DecodeUnique | chip8.go:264-272 | any nibble split of a word is the one Decode returns, so the fields are determined by the word |
| Decoder.Fetch | chip8.go:255-273 | succeeds exactly when PC+1 is inside memory, else an index panic; raw = Memory[PC]·256 + Memory[PC+1], prefix and X are the nibbles of the first byte, Y and N of the second, NN is the second byte |
| Keypad.KeyToKeyIndex | chip8.go:65-102 | the unsupported index 0xFF is returned exactly for keys outside the 1234/QWER/ASDF/ZXCV block; every other key maps below 16 |
| Keypad.KeyForIndex | chip8.go:65-102 | every hex key has a host key in the block |
| Keypad.KeyTableIsBijective | chip8.go:65-102 | the table and its inverse compose to the identity both ways: the block is a bijection onto keys 0..15 |
| Timers.Tick | chip8.go:244-250 | each timer drops by one exactly when it is non-zero and never goes below zero; the tick beeps exactly when the sound timer is non-zero |
| Timers.Run | chip8.go:236-253 | k ticks of the timer loop: neither timer rises and at most k ticks beep |
| Timers.RunCountsDown | chip8.go:236-253 | after k ticks each timer is max(0, start − k) and the tone sounded on min(sound, k) ticks |
| Semantics.SpriteRows | chip8.go:433-436 | DXYN reads at most N rows and stops at the bottom edge of the screen; it reads all N unless the bottom edge comes first, so the count is min(N, 32 − VY mod 32) |
| Semantics.Sprite | chip8.go:437-438 | one byte per row read, and byte r is memory[I + r] |
| Semantics.Push | chip8.go:162-169 | the overflow error exactly at index 16; success exactly at index < 15 or 255, with the index incremented mod 256, the value in that slot, every other slot and the rest of the machine unchanged |
| Semantics.Pop | chip8.go:171-175 | success exactly at index < 16, else the index panic; the value is the top slot and only the index changes, to old − 1 mod 256 |
| Semantics.System | chip8.go:299-309 | succeeds exactly for 00E0 and for 00EE with a valid index, and every failure is a panic; 00E0 changes only the screen, to blank; 00EE sets PC to the top slot, decrements the index mod 256, and changes nothing else |
| Semantics.Call | chip8.go:315-322 | fails exactly when the push fails; on success PC = NNN, the index is incremented mod 256, the new top slot holds the call's own address, every other slot is unchanged, and so is the rest of the machine |
| Semantics.Alu | chip8.go:344-407 | the error return exactly for N outside 0–7 and E, carrying the word; on success only VX and VF may change |
| Semantics.Draw | chip8.go:425-457 | the only failure is the memory panic; on success only the screen and VF change, and VF ≤ 1 |
| Semantics.KeySkip | chip8.go:458-476 | succeeds exactly for EX9E/EXA1 with VX < 16; on success only PC changes, by 0 or 2 before the common PC += 2 |
| Semantics.Misc | chip8.go:477-539 | a failure is the error return or the memory panic; on success the stack, the screen and the keypad are unchanged |
| Semantics.LastPressed | chip8.go:494-500 | the FX0A scan result is a pressed key with no pressed key above it, and is absent exactly when no key is pressed |
| Semantics.BcdDigits | chip8.go:514-522 | three digits, each ≤ 9, with 100·h + 10·t + o = V |
| Semantics.Overwrite | chip8.go:136-140 | byte a of the result is bytes[a − at] inside the written block and the old byte elsewhere; the length is kept |
| Semantics.Effect | chip8.go:298-542 | a successful instruction keeps the machine's array sizes |
| Semantics.Execute | chip8.go:298-546 | a successful instruction, including the common PC += 2, keeps the machine's array sizes |
| Semantics.Step | chip8.go:283-547 | a successful step keeps the machine's array sizes |
| Semantics.Run | chip8.go:190-206 | a run of steps that all succeed keeps the machine's array sizes |
| Emulator.Chip8.constructor | chip8.go:120-128 | memory is zero except the default font at 0x50; registers, stack, keypad, timers, I and the stack index are zero; PC = 0x200; the screen is blank |
| Emulator.Chip8.LoadFont | chip8.go:136-140 | memory becomes the old memory with the font written from 0x50 |
| Emulator.Chip8.Load | chip8.go:562-567 | memory becomes the old memory with the program written from 0x200 and PC = 0x200; a program past the end of memory is an index panic |
| Emulator.Chip8.Clear | chip8.go:549-555 | every pixel is off |
| Emulator.Chip8.PushButton | chip8.go:104-110 | the mapped key becomes pressed and no other key changes; an unmapped key changes nothing |
| Emulator.Chip8.ReleaseButton | chip8.go:112-118 | the mapped key becomes released and no other key changes; an unmapped key changes nothing |
| Emulator.Chip8.TickTimers | chip8.go:243-251 | the timers and the beep are those of Timers.Tick |
| Emulator.Chip8.StackPush | chip8.go:162-169 | the new state is Semantics.Push of the old one: the overflow error at index 16, the panic at 15, otherwise the incremented index and the value in that slot |
| Emulator.Chip8.StackPop | chip8.go:171-175 | returns the top slot and the decremented uint8 index of Semantics.Pop, or the index panic past 15 |
| Emulator.Chip8.Step | chip8.go:283-547 | the object ends in the state Semantics.Step gives, or with the same error and the state unchanged |
| Emulator.Chip8.Effect | chip8.go:298-542 | the object ends as Semantics.Effect says for every family other than 1NNN and 2NNN |
| Emulator.Chip8.System | chip8.go:299-309 | 00E0 and 00EE as Semantics.System says |
| Emulator.Chip8.Alu | chip8.go:344-407 | the 8XY? family as Semantics.Alu says, flag write order included |
| Emulator.Chip8.DrawBit | chip8.go:440-455 | one on-screen sprite bit: the pixel under an on bit flips and VF records a collision; the draw cursor moves one pixel on |
| Emulator.Chip8.DrawRow | chip8.go:439-456 | one sprite row: every pixel of that screen row is flipped under the sprite, and VF records whether a lit pixel was hit so far |
| Emulator.Chip8.DrawSprite | chip8.go:432-457 | after the outer loop every pixel is flipped under the sprite and VF = 1 exactly when a lit pixel was hit |
| Emulator.Chip8.Draw | chip8.go:425-457 | the bounds check and the draw loop give the screen and VF of Semantics.Draw, or the index panic with nothing changed |
| Emulator.Chip8.KeySkip | chip8.go:458-476 | EX9E and EXA1 as Semantics.KeySkip says, with the panic for a key past 15 |
| Emulator.Chip8.WaitForKey | chip8.go:492-504 | the keypad scan leaves VX = the highest pressed key, or PC − 2 when none is pressed |
| Emulator.Chip8.StoreRegisters | chip8.go:523-529 | memory becomes the old memory with V0..VF written at I |
| Emulator.Chip8.LoadRegisters | chip8.go:530-536 | V0..VF become memory I..I+15 |
| Emulator.Chip8.Misc | chip8.go:477-539 | the FX?? family as Semantics.Misc says |
| Properties.SequentialAdvances | chip8.go:544-546 | a successful instruction that does not jump, skip or wait leaves PC at old + 2 and the stack alone |
| Properties.SkipsByFourOrTwo | chip8.go:323-337 | 3XNN, 4XNN, 5XY0 and 9XY0 move PC by 4 when their condition holds and by 2 otherwise, and change nothing else |
| Properties.KeySkipOutcome | chip8.go:458-476 | EX9E/EXA1 move PC by 4 when the key is pressed (released) and by 2 otherwise; a key past 15 panics; other EX?? forms are an error |
| Properties.WaitForKeyRepeats | chip8.go:492-504 | FX0A with no key pressed leaves the whole machine unchanged, PC included |
| Properties.WaitForKeyTakesHighest | chip8.go:492-504 | FX0A with keys pressed stores the highest pressed key in VX and moves PC on by 2 |
| Properties.JumpTargets | chip8.go:310-314 | 1NNN sets PC to exactly NNN; BXNN sets it to VX + NNN + 2 |
| Properties.SingleRegister | chip8.go:338-483 | 6XNN, 8XY0–8XY3, CXNN and FX07 write VX only (NN, VY, VX OR/AND/XOR VY, rnd AND NN, the delay timer); no other register, VF included, and nothing else changes; PC + 2 |
| Properties.SingleField | chip8.go:413-508 | ANNN, FX15, FX18, FX1E and FX29 each write one of I (NNN, I + VX mod 65536, 0x50 + 5·VX), the delay or the sound timer (VX); registers and the rest unchanged; PC + 2 |
| Properties.BadInstructionExactly | chip8.go:405-406 | the error return happens exactly for the undefined 8XY?, EX?? and FX?? forms, carrying the word, with the state unchanged |
| Properties.SystemPanics | chip8.go:299-309 | 00E0 blanks the screen and moves on; any 0x0 word other than 00E0/00EE panics |
| Properties.PushOutcome | chip8.go:162-169 | a push succeeds exactly at index < 15 or 255; the overflow error exactly at 16 |
| Properties.PopAfterPush | chip8.go:162-175 | pop after push returns the pushed value and restores the index |
| Properties.CallThenReturn | chip8.go:305-322 | 2NNN jumps to NNN, and a following 00EE ends at the call's address + 2 with the stack index restored |
| Properties.CallOverflow | chip8.go:315-319 | a call at stack index 16 is the overflow error and changes nothing |
| Properties.StepKeepsSaneStack | chip8.go:162-175 | a step from a stack index in {0..15, 255} never reports overflow and stays in that set |
| Properties.EffectKeepsStack | chip8.go:298-542 | no family other than 1NNN and 2NNN, 00EE included, moves the stack index out of {0..15, 255} |
| Properties.RunNeverOverflows | chip8.go:190-206 | the interpreter loop from such a machine never reports stack overflow |
| Properties.AddImmediateKeepsFlag | chip8.go:341-343 | 7XNN stores (VX + NN) mod 256 in VX for every X, 7FNN included; no other register (VF untouched when X ≠ F) and nothing else changes but PC + 2 |
| Properties.AddCarry | chip8.go:361-371 | 8XY4 sets VF = 1 exactly when VX + VY > 255, and VX + 256·VF = old VX + VY |
| Properties.SubtractFlag | chip8.go:373-381 | 8XY5 sets VF = 1 exactly when VX > VY, and VX = VX − VY mod 256 |
| Properties.ReverseSubtractFlag | chip8.go:395-404 | 8XY7 sets VF = 1 exactly when VY > VX, and VX = VY − VX mod 256 |
| Properties.ShiftRightSplits | chip8.go:383-388 | 8XY6: 2·VX + VF = old VX with VF ≤ 1; with X = F the shifted value wins; other registers unchanged |
| Properties.ShiftLeftSplits | chip8.go:389-394 | 8XYE: VX + 256·VF = 2·old VX with VF ≤ 1; with X = F the shifted value wins; other registers unchanged |
| Properties.ShiftRightTestCases | shift_opcode_test.go:10-41 | word 8126 takes V1 = 4 to 2 with VF = 0 and V1 = 1 to 0 with VF = 1 |
| Properties.ShiftLeftTestCases | shift_opcode_test.go:43-74 | word 812E takes V1 = 4 to 8 with VF = 0 and V1 = 255 to 254 with VF = 1 |
| Properties.DrawStaysInRect | chip8.go:425-457 | pixels outside the clipped sprite rectangle are unchanged |
| Properties.DrawFlipsSpriteBits | chip8.go:437-455 | inside the rectangle a pixel flips exactly when its bit in the sprite byte at I + row is on |
| Properties.DrawPanicsIff | chip8.go:437-438 | DXYN panics exactly when a sprite row it reads is past the end of memory |
| Properties.DrawFlagsErasure | chip8.go:432-454 | VF ≤ 1, and VF = 1 exactly when the draw turned some pixel off; no other register changes |
| Properties.DrawTwiceRestores | chip8.go:425-457 | drawing the same sprite twice (X, Y ≠ F) restores the screen; the second VF is 1 exactly when the first draw turned a pixel on |
| Properties.BcdUnique | chip8.go:514-522 | the decimal digits of a byte are unique |
| Properties.BcdStoresDigits | chip8.go:509-522 | FX33 stores the three digits of VX at I..I+2 and no other byte, and changes nothing else but memory and PC + 2; or panics when I + 2 is past memory |
| Properties.BcdTestCases | bcd_test.go:12-55 | 123 → 1,2,3; 10 → 0,1,0; 255 → 2,5,5; 0 → 0,0,0; 7 → 0,0,7 |
| Properties.StoreRegistersBlock | chip8.go:523-529 | FX55 writes V0..VF to I..I+15, whatever X is, changes no other byte, and changes nothing else but memory and PC + 2 (registers, I and timers stay); or panics past memory |
| Properties.LoadRegistersBlock | chip8.go:530-536 | FX65 loads V0..VF from I..I+15, whatever X is, and changes nothing else but the registers and PC + 2 (memory, I and timers stay); or panics past memory |
| Properties.StoreThenLoadRegisters | chip8.go:523-536 | FX55 then FX65 at the same I gives back the registers |
| Properties.LoadThenStoreRegisters | chip8.go:523-536 | FX65 then FX55 at the same I leaves memory as it was |
| Properties.FreshMemoryHasFont | chip8.go:120-140 | a fresh machine's memory holds the font at 0x50..0x9F and zero elsewhere |
| Properties.GlyphInFont | chip8.go:505-508 | with a font loaded at 0x50, the five bytes at 0x50 + 5·d are its glyph d |
| Properties.FontGlyph | chip8.go:505-508 | with the font loaded, FX29 points I at the five bytes of the glyph of the digit in VX |

## Left out

- `Run`, `run`, `ShowDisplay` and the goroutine, channel and errgroup coordination are not modelled, because they are concurrency and timing. `Semantics.Run` keeps only the sequence of steps that `run` performs until one fails.
- The `time.Ticker` and the `done` channel of `RunTimers` are not modelled, because they are timing and concurrency. Its loop body is `Timers.Tick` (`Chip8.TickTimers` on the object), and `Timers.Run` repeats that body k times. `Beep` is not modelled either: it prints a terminal bell, and it becomes the `beep` result.
- SDL window and renderer I/O is not modelled (`SetupDisplay`, `Display.Update`, `TearDown`, `InitDisplay`). The `Pixels` grid of `Display` is a field of `Chip8`, which the constructor allocates blank; in Go, `InitDisplay` allocates it.
- `DumpMemory`, `repeatStr` and the `DebugMode` trace print are not modelled. They only produce diagnostic output.
- `LoadFromFile` is not modelled, because it is file I/O. `Load` takes the bytes directly. main.go is not part of this model.
- The `math/rand` source and its seeding are not modelled. The random byte of CXNN is the parameter `rnd`, below 255.
- A Go runtime panic ends the program. The model returns `Panic(fault)` and leaves the state as it was before the step. Go may already have written part of the result before the failing index:
  - FX33 may have written one or two digits;
  - FX55 may have written the registers up to the end of memory;
  - FX65 may have loaded V0 onwards from the bytes up to the end of memory;
  - DXYN has set VF to 0 and drawn the rows read so far;
  - a push at stack index 15 (a 2NNN call) has already incremented the index to 16.
- Emulator.Chip8.Load: a program longer than the 3584 bytes from 0x200 to the end of memory returns the fault and leaves memory as it was. Go writes the first 3584 bytes and then panics, with PC not yet reset.
- Emulator.Chip8.LoadFont: requires the font to fit above 0x50. Go only ever calls it with the 80-byte default font.
- 8XY5 and 8XY7 follow this code, which differs from the original COSMAC VIP interpreter. There VF = NOT borrow, so VF = 1 when VX ≥ VY (VY ≥ VX for 8XY7). This code compares with a strict `>`, so equal operands give VF = 0 (`Properties.SubtractFlag`, `Properties.ReverseSubtractFlag`).
