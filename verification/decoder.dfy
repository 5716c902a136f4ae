/** The instruction decoder: the two bytes at PC become the fields of an Instruction. */
module Decoder {
  import opened Bits
  import opened Wrappers
  import opened Errors

  /**
   * A decoded instruction word. Prefix selects the opcode family; X and Y
   * are register indices; N, NN and NNN are the low 4, 8 and 12 bits.
   */
  datatype Instruction = Instruction(
    prefix: Nibble,
    x: Nibble,
    y: Nibble,
    n: Nibble,
    nn: Uint8,
    nnn: Uint12,
    raw: Uint16)

  /**
   * Splits a 16-bit word into its fields. The Go code shifts and masks;
   * on non-negative integers a shift right by k and a mask of width w are
   * a division by 2^k and a remainder modulo 2^w.
   */
  function Decode(raw: Uint16): (ins: Instruction)
    ensures ins.raw == raw
    ensures ins.prefix * 0x1000 + ins.nnn == raw
    ensures ins.x * 0x100 + ins.y * 0x10 + ins.n == ins.nnn
    ensures ins.y * 0x10 + ins.n == ins.nn
  {
    NibbleSplit(raw);
    Instruction(
      prefix := raw / 0x1000,
      x := (raw / 0x100) % 0x10,
      y := (raw / 0x10) % 0x10,
      n := raw % 0x10,
      nn := raw % 0x100,
      nnn := raw % 0x1000,
      raw := raw)
  }

  /** The shifts and masks of Decode, related to one another through successive divisions by 16. */
  lemma NibbleSplit(raw: Uint16)
    ensures raw / 0x1000 * 0x1000 + raw % 0x1000 == raw
    ensures (raw / 0x100) % 0x10 * 0x100 + (raw / 0x10) % 0x10 * 0x10 + raw % 0x10 == raw % 0x1000
    ensures (raw / 0x10) % 0x10 * 0x10 + raw % 0x10 == raw % 0x100
  {
    var t1 := raw / 0x10;
    var t2 := t1 / 0x10;
    var t3 := t2 / 0x10;
    assert raw == 0x10 * t1 + raw % 0x10;
    assert t1 == 0x10 * t2 + t1 % 0x10;
    assert t2 == 0x10 * t3 + t2 % 0x10;
    assert raw / 0x100 == t2 by {
      assert raw == 0x100 * t2 + (0x10 * (t1 % 0x10) + raw % 0x10);
    }
    assert raw / 0x1000 == t3 by {
      assert raw == 0x1000 * t3 + (0x100 * (t2 % 0x10) + 0x10 * (t1 % 0x10) + raw % 0x10);
    }
    assert raw % 0x1000 == 0x100 * (t2 % 0x10) + 0x10 * (t1 % 0x10) + raw % 0x10;
    assert raw % 0x100 == 0x10 * (t1 % 0x10) + raw % 0x10;
  }

  /** The fields are determined by the word: any nibble split of `raw` is the one Decode returns. */
  lemma DecodeUnique(raw: Uint16, prefix: Nibble, x: Nibble, y: Nibble, n: Nibble)
    requires prefix * 0x1000 + x * 0x100 + y * 0x10 + n == raw
    ensures Decode(raw) == Instruction(prefix, x, y, n, y * 0x10 + n, x * 0x100 + y * 0x10 + n, raw)
  {
    var ins := Decode(raw);
    assert ins.prefix == prefix by {
      assert raw == prefix * 0x1000 + (x * 0x100 + y * 0x10 + n);
      assert 0 <= x * 0x100 + y * 0x10 + n < 0x1000;
    }
    assert ins.nnn == x * 0x100 + y * 0x10 + n;
    assert ins.x == x by {
      assert ins.nnn == x * 0x100 + (y * 0x10 + n);
      assert 0 <= y * 0x10 + n < 0x100;
    }
    assert ins.nn == y * 0x10 + n;
    assert ins.y == y;
  }

  /**
   * Fetch reads the big-endian word at PC and PC+1 and decodes it. It does
   * not move PC. Reading past the end of memory is a Go index panic.
   */
  function Fetch(memory: seq<Uint8>, pc: Uint16): (r: Result<Instruction, StepError>)
    ensures r.Ok? <==> pc + 1 < |memory|
    ensures r.Err? ==> r.error == Panic(MemoryOutOfRange)
    ensures r.Ok? ==>
      && r.value.raw == memory[pc] as int * 0x100 + memory[pc + 1]
      && r.value.prefix == memory[pc] / 0x10
      && r.value.x == memory[pc] % 0x10
      && r.value.y == memory[pc + 1] / 0x10
      && r.value.n == memory[pc + 1] % 0x10
      && r.value.nn == memory[pc + 1]
  {
    if pc + 1 < |memory| then
      var hi: int, lo: int := memory[pc], memory[pc + 1];
      DecodeUnique(hi * 0x100 + lo, hi / 0x10, hi % 0x10, lo / 0x10, lo % 0x10);
      // uint16(hi) << 8 | uint16(lo): the two bytes do not overlap, so | is +.
      Ok(Decode(hi * 0x100 + lo))
    else
      Err(Panic(MemoryOutOfRange))
  }
}
