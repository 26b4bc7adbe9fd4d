/** The opcode register of the interpreter (src/chip8/opcode.rs): a 16-bit
    word assembled from two program bytes, high byte first, and the pure
    mask-and-shift extractors of its operand fields. */
module Chip8Opcode {

  /** The word `set_from_u8` assembles: `l` is the high byte, `r` the low one. */
  function Word(l: bv8, r: bv8): (w: bv16)
    ensures w as int == l as int * 256 + r as int
  {
    assert (l as bv16 << 8) | r as bv16 == (l as bv16) * 256 + r as bv16;
    WordValue(l, r);
    (l as bv16 << 8) | r as bv16
  }

  /** `nnn()`: the low 12 bits, an address or a 12-bit immediate. */
  function Nnn(w: bv16): (r: nat)
    ensures r < 0x1000
  {
    (w & 0x0FFF) as nat
  }

  /** `nn()`: the low 8 bits, a byte immediate. */
  function Nn(w: bv16): (r: bv8)
    ensures r as int == w as int % 0x100
  {
    LowByte(w);
    (w & 0x00FF) as bv8
  }

  /** `n()`: the low 4 bits, the sprite height of `Dxyn`. */
  function N(w: bv16): (r: nat)
    ensures r < 0x10
  {
    (w & 0x000F) as nat
  }

  /** `x()`: bits 11-8, always a valid register index. */
  function X(w: bv16): (r: nat)
    ensures r < 0x10
  {
    ((w & 0x0F00) >> 8) as nat
  }

  /** `y()`: bits 7-4, always a valid register index. */
  function Y(w: bv16): (r: nat)
    ensures r < 0x10
  {
    ((w & 0x00F0) >> 4) as nat
  }

  /** `code() & 0xF000`: the instruction family the dispatcher matches first. */
  function Family(w: bv16): (r: bv16)
    ensures r & 0x0FFF == 0
  {
    w & 0xF000
  }

  /** The fields partition the word: family, x, y and n put back together give
      the word, the 12-bit address is x followed by the byte immediate, and the
      byte immediate is y followed by n. Together with the bounds on each
      field this determines every field from the word. */
  lemma {:induction false} FieldsRecombine(w: bv16)
    ensures Family(w) as int + X(w) * 0x100 + Y(w) * 0x10 + N(w) == w as int
    ensures Nnn(w) == X(w) * 0x100 + Nn(w) as int
    ensures Nn(w) as int == Y(w) * 0x10 + N(w)
  {
    SplitTop(w);
    SplitTwelve(w);
    SplitByte(w);
    TopNibble(w);
    NarrowByte(w);
    assert (w & 0x0FFF) >> 8 == (w & 0x0F00) >> 8;
    assert (w & 0x00FF) >> 4 == (w & 0x00F0) >> 4;
  }

  // The helpers below keep bit-vector steps and their integer values in
  // separate small facts, which the solver proves reliably one at a time.

  lemma WordValue(l: bv8, r: bv8)
    ensures ((l as bv16) * 256 + r as bv16) as int == l as int * 256 + r as int
  {
  }

  lemma SplitTop(w: bv16)
    ensures w as int == (w >> 12) as int * 0x1000 + (w & 0x0FFF) as int
  {
  }

  lemma SplitTwelve(w: bv16)
    ensures (w & 0x0FFF) as int == ((w & 0x0FFF) >> 8) as int * 0x100 + (w & 0x00FF) as int
  {
    assert (w & 0x0FFF) & 0xFF == w & 0xFF;
  }

  lemma SplitByte(w: bv16)
    ensures (w & 0x00FF) as int == ((w & 0x00FF) >> 4) as int * 0x10 + (w & 0x000F) as int
  {
    assert (w & 0x00FF) & 0xF == w & 0xF;
  }

  lemma TopNibble(w: bv16)
    ensures (w & 0xF000) as int == (w >> 12) as int * 0x1000
  {
    assert w & 0xF000 == (w >> 12) * 0x1000;
  }

  /** The low byte of a word is its value modulo 0x100. */
  lemma LowByte(w: bv16)
    ensures (w & 0x00FF) as int == w as int % 0x100
  {
    SplitTop(w);
    SplitTwelve(w);
    var top, mid, low := (w >> 12) as int, ((w & 0x0FFF) >> 8) as int, (w & 0x00FF) as int;
    ModBase(top * 0x10 + mid, low, w as int);
  }

  /** Adding a multiple of 0x100 to a value below 0x100 leaves it as the
      remainder. */
  lemma ModBase(q: int, c: int, n: int)
    requires 0 <= c < 0x100 && n == q * 0x100 + c
    ensures n % 0x100 == c
  {
  }

  lemma NarrowByte(w: bv16)
    ensures ((w & 0x00FF) as bv8) as int == (w & 0x00FF) as int
  {
  }

  /** The `Opcode` struct: one 16-bit field `lr` that the fetch overwrites. */
  class Opcode {
    var lr: bv16

    /** `Opcode::new`: the code starts at 0. */
    constructor ()
      ensures Code() == 0
    {
      lr := 0;
    }

    /** `code()`: the stored word. */
    function Code(): bv16
      reads this
    {
      lr
    }

    /** `set_from_u8`: the word becomes `l` followed by `r`. */
    method SetFromU8(l: bv8, r: bv8)
      modifies this
      ensures Code() as int == l as int * 256 + r as int
      ensures Code() == Word(l, r)
    {
      lr := Word(l, r);
    }

    /** `set_from_u16`: the word is stored unchanged. */
    method SetFromU16(w: bv16)
      modifies this
      ensures Code() == w
    {
      lr := w;
    }
  }
}
