/** The mapping between the sixteen CHIP-8 key codes and host keyboard keys
    (src/chip8/hex_to_key.rs). The left four columns of a QWERTY keyboard
    stand for the 4x4 CHIP-8 keypad. */
module Chip8Keys {
  import opened Chip8Option

  /** The host keys the mapping names; every other host key is `Other`. */
  datatype Keycode =
    | Num1 | Num2 | Num3 | Num4
    | Q | W | E | R
    | A | S | D | F
    | Z | X | C | V
    | Other

  /** `hex_to_key`: the host key standing for a hex digit, `None` above 0xF. */
  function HexToKey(h: bv8): (k: Option<Keycode>)
    ensures k.Some? <==> h <= 0xF
    ensures k != Some(Other)
  {
    match h
    case 0x1 => Some(Num1)
    case 0x2 => Some(Num2)
    case 0x3 => Some(Num3)
    case 0xC => Some(Num4)

    case 0x4 => Some(Q)
    case 0x5 => Some(W)
    case 0x6 => Some(E)
    case 0xD => Some(R)

    case 0x7 => Some(A)
    case 0x8 => Some(S)
    case 0x9 => Some(D)
    case 0xE => Some(F)

    case 0xA => Some(Z)
    case 0x0 => Some(X)
    case 0xB => Some(C)
    case 0xF => Some(V)
    case _ => None
  }

  /** `key_to_hex`: the hex digit a host key stands for; `None` for any key
      outside the sixteen, and every digit it returns maps back to the key. */
  function KeyToHex(key: Keycode): (h: Option<bv8>)
    ensures h.Some? <==> key != Other
    ensures h.Some? ==> h.value <= 0xF && HexToKey(h.value) == Some(key)
  {
    match key
    case Num1 => Some(0x1)
    case Num2 => Some(0x2)
    case Num3 => Some(0x3)
    case Num4 => Some(0xC)

    case Q => Some(0x4)
    case W => Some(0x5)
    case E => Some(0x6)
    case R => Some(0xD)

    case A => Some(0x7)
    case S => Some(0x8)
    case D => Some(0x9)
    case F => Some(0xE)

    case Z => Some(0xA)
    case X => Some(0x0)
    case C => Some(0xB)
    case V => Some(0xF)
    case Other => None
  }

  /** Every hex digit survives the round trip through its key. */
  lemma HexRoundTrip(h: bv8)
    requires h <= 0xF
    ensures HexToKey(h).Some? && KeyToHex(HexToKey(h).value) == Some(h)
  {
  }

  /** Distinct digits are mapped to distinct keys. */
  lemma {:induction false} HexToKeyInjective(h1: bv8, h2: bv8)
    requires HexToKey(h1).Some? && HexToKey(h1) == HexToKey(h2)
    ensures h1 == h2
  {
    HexRoundTrip(h1);
    HexRoundTrip(h2);
  }
}
