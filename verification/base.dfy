/** Option and Result, used for the interpreter's error returns. */
module Wrappers {
  datatype Option<+T> = None | Some(value: T)

  datatype Result<+T, +E> = Ok(value: T) | Err(error: E)
}

/**
 * Go's fixed-width unsigned integers written out on unbounded integers:
 * uint8 and uint16 arithmetic wraps explicitly, and the bitwise operators
 * of the interpreter go through bv8.
 */
module Bits {
  /** Go's uint8. */
  type Uint8 = x: int | 0 <= x < 0x100
  /** Go's uint16. */
  type Uint16 = x: int | 0 <= x < 0x1_0000
  /** A 12-bit address immediate (NNN). */
  type Uint12 = x: int | 0 <= x < 0x1000
  /** A 4-bit field of an instruction word. */
  type Nibble = x: int | 0 <= x < 0x10

  /** uint8 addition, wrapping modulo 256. */
  function Add8(a: Uint8, b: Uint8): Uint8 { (a + b) % 0x100 }

  /** uint8 subtraction, wrapping modulo 256 (Dafny's % is never negative). */
  function Sub8(a: Uint8, b: Uint8): Uint8 { (a - b) % 0x100 }

  /** uint16 addition, wrapping modulo 65536. */
  function Add16(a: Uint16, b: Uint16): Uint16 { (a + b) % 0x1_0000 }

  /** uint16 subtraction, wrapping modulo 65536. */
  function Sub16(a: Uint16, b: Uint16): Uint16 { (a - b) % 0x1_0000 }

  function Or8(a: Uint8, b: Uint8): Uint8 { ((a as bv8) | (b as bv8)) as int }

  function And8(a: Uint8, b: Uint8): Uint8 { ((a as bv8) & (b as bv8)) as int }

  function Xor8(a: Uint8, b: Uint8): Uint8 { ((a as bv8) ^ (b as bv8)) as int }

  /** Bit `col` of a sprite row counted from the most significant bit: row & (0x80 >> col) != 0. */
  predicate SpriteBit(row: Uint8, col: int)
    requires 0 <= col < 8
  {
    ((row as bv8) & ((0x80 as bv8) >> col)) != 0
  }
}

/** What a step of the interpreter can fail with. */
module Errors {
  import opened Bits

  /** Conditions under which the Go interpreter panics instead of returning an error. */
  datatype Fault =
    | BadSystemInstruction(raw: Uint16)  // an 0x0 word other than 00E0 and 00EE
    | MemoryOutOfRange                   // a memory index past 4095
    | StackOutOfRange                    // a stack index past 15
    | KeyOutOfRange                      // a keypad index past 15

  datatype StepError =
    | BadInstruction(raw: Uint16)  // undefined 8XY?, EX?? or FX?? form: an error return
    | StackOverflow                // StackPush with a full stack: an error return
    | Panic(fault: Fault)          // a Go runtime panic, which ends the program
}
