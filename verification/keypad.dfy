/** The mapping from host keyboard keys to the 16 hex keys of the keypad. */
module Keypad {
  import opened Bits

  /** The host key codes the table distinguishes; every other key is OtherKey. */
  datatype Keycode =
    | Key1 | Key2 | Key3 | Key4
    | KeyQ | KeyW | KeyE | KeyR
    | KeyA | KeyS | KeyD | KeyF
    | KeyZ | KeyX | KeyC | KeyV
    | OtherKey

  const NUM_KEYS := 16
  /** The index returned for a key that has no place on the keypad. */
  const KEY_UNSUPPORTED: Uint8 := 0xFF

  /**
   * The 4x4 block 1234/QWER/ASDF/ZXCV laid over the hex keypad
   * 123C/456D/789E/A0BF.
   */
  function KeyToKeyIndex(key: Keycode): (idx: Uint8)
    ensures idx == KEY_UNSUPPORTED <==> key == OtherKey
    ensures idx != KEY_UNSUPPORTED ==> idx < NUM_KEYS
  {
    match key
    case Key1 => 0x1
    case Key2 => 0x2
    case Key3 => 0x3
    case Key4 => 0xC
    case KeyQ => 0x4
    case KeyW => 0x5
    case KeyE => 0x6
    case KeyR => 0xD
    case KeyA => 0x7
    case KeyS => 0x8
    case KeyD => 0x9
    case KeyF => 0xE
    case KeyZ => 0xA
    case KeyX => 0x0
    case KeyC => 0xB
    case KeyV => 0xF
    case OtherKey => KEY_UNSUPPORTED
  }

  /** The host key that stands for each hex key. */
  function KeyForIndex(idx: Nibble): (key: Keycode)
    ensures key != OtherKey
  {
    match idx
    case 0x0 => KeyX
    case 0x1 => Key1
    case 0x2 => Key2
    case 0x3 => Key3
    case 0x4 => KeyQ
    case 0x5 => KeyW
    case 0x6 => KeyE
    case 0x7 => KeyA
    case 0x8 => KeyS
    case 0x9 => KeyD
    case 0xA => KeyZ
    case 0xB => KeyC
    case 0xC => Key4
    case 0xD => KeyR
    case 0xE => KeyF
    case _ => KeyV
  }

  /** Every hex key has exactly one host key: the table is a bijection onto 0..15. */
  lemma KeyTableIsBijective()
    ensures forall i: Nibble :: KeyToKeyIndex(KeyForIndex(i)) == i
    ensures forall k :: k != OtherKey ==> KeyForIndex(KeyToKeyIndex(k)) == k
  {
    forall i: Nibble ensures KeyToKeyIndex(KeyForIndex(i)) == i {
      if i < 8 {
        if i < 4 { assert i == 0 || i == 1 || i == 2 || i == 3; }
        else { assert i == 4 || i == 5 || i == 6 || i == 7; }
      } else {
        if i < 12 { assert i == 8 || i == 9 || i == 10 || i == 11; }
        else { assert i == 12 || i == 13 || i == 14 || i == 15; }
      }
    }
  }
}
