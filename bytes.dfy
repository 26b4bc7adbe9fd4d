/** Byte arithmetic of Rust's `u8` on Dafny's `bv8`: the conversions between
    bytes and the integers they stand for, and the few bit-level facts the
    instructions of src/chip8/mod.rs rely on. Each fact is its own small
    lemma, so the solver proves it apart from any machine state. */
module Chip8Bytes {

  /** The byte holding the integer `n`. */
  function ByteOf(n: int): (b: bv8)
    requires 0 <= n < 256
    ensures b as int == n
  {
    ByteExists(n);
    var b: bv8 :| b as int == n; b
  }

  /** Every integer in 0..255 is the value of some byte. */
  lemma ByteExists(n: int)
    requires 0 <= n < 256
    ensures exists b: bv8 {:trigger b as int} :: b as int == n
  {
    var b := Count(n);
    assert b as int == n;
  }

  /** The byte holding `n`, counted up from 0 one increment at a time, so
      that no integer-to-bit-vector conversion is needed. */
  ghost function Count(n: int): (b: bv8)
    requires 0 <= n < 256
    ensures b as int == n
    decreases n
  {
    if n == 0 then 0 else Succ(Count(n - 1))
  }

  /** The byte after `b`, below the wrap-around. */
  function Succ(b: bv8): (r: bv8)
    requires b as int < 255
    ensures r as int == b as int + 1
  {
    b + 1
  }

  /** `a.wrapping_add(b)`, and `(a as u16 + b as u16) as u8`. */
  function WrappingAdd(a: bv8, b: bv8): (r: bv8)
    ensures r as int == (a as int + b as int) % 256
  {
    ByteOf((a as int + b as int) % 256)
  }

  /** `a.wrapping_sub(b)`. */
  function WrappingSub(a: bv8, b: bv8): (r: bv8)
    ensures r as int == (a as int - b as int) % 256
  {
    ByteOf((a as int - b as int) % 256)
  }

  /** The byte with only bit `k` set, counted from the least significant
      bit. */
  function Mask(k: nat): bv8
    requires k < 8
  {
    [0x01, 0x02, 0x04, 0x08, 0x10, 0x20, 0x40, 0x80][k]
  }

  /** Whether bit `k` of a byte is set. */
  function Bit(b: bv8, k: nat): bool
    requires k < 8
  {
    b & Mask(k) != 0
  }

  /** `|` sets exactly the bits set in either operand. */
  lemma OrBits(a: bv8, b: bv8, c: bv8)
    requires c == a | b
    ensures forall k :: 0 <= k < 8 ==> (Bit(c, k) <==> Bit(a, k) || Bit(b, k))
  {
    forall k | 0 <= k < 8 {
      OrBit(a, b, k);
    }
  }

  /** `&` sets exactly the bits set in both operands. */
  lemma AndBits(a: bv8, b: bv8, c: bv8)
    requires c == a & b
    ensures forall k :: 0 <= k < 8 ==> (Bit(c, k) <==> Bit(a, k) && Bit(b, k))
  {
    forall k | 0 <= k < 8 {
      AndBit(a, b, k);
    }
  }

  /** `^` sets exactly the bits on which its operands differ. */
  lemma XorBits(a: bv8, b: bv8, c: bv8)
    requires c == a ^ b
    ensures forall k :: 0 <= k < 8 ==> (Bit(c, k) <==> Bit(a, k) != Bit(b, k))
  {
    forall k | 0 <= k < 8 {
      XorBit(a, b, k);
    }
  }

  lemma OrBit(a: bv8, b: bv8, k: nat)
    requires k < 8
    ensures Bit(a | b, k) <==> Bit(a, k) || Bit(b, k)
  {
    var mask := Mask(k);
    assert (a | b) & mask == (a & mask) | (b & mask);
  }

  lemma AndBit(a: bv8, b: bv8, k: nat)
    requires k < 8
    ensures Bit(a & b, k) <==> Bit(a, k) && Bit(b, k)
  {
    var mask := Mask(k);
    SingleBit(a, k);
    SingleBit(b, k);
    assert (a & b) & mask == (a & mask) & (b & mask);
  }

  lemma XorBit(a: bv8, b: bv8, k: nat)
    requires k < 8
    ensures Bit(a ^ b, k) <==> Bit(a, k) != Bit(b, k)
  {
    var mask := Mask(k);
    SingleBit(a, k);
    SingleBit(b, k);
    XorMasked(a, b, mask);
  }

  lemma XorMasked(a: bv8, b: bv8, mask: bv8)
    requires mask != 0 && (a & mask == 0 || a & mask == mask) && (b & mask == 0 || b & mask == mask)
    ensures (a ^ b) & mask != 0 <==> (a & mask != 0) != (b & mask != 0)
  {
    assert (a ^ b) & mask == (a & mask) ^ (b & mask);
  }

  /** Masking a byte with one bit leaves either nothing or that bit. */
  lemma SingleBit(a: bv8, k: nat)
    requires k < 8
    ensures Mask(k) != 0 && (a & Mask(k) == 0 || a & Mask(k) == Mask(k))
  {
    if k == 0 {} else if k == 1 {} else if k == 2 {} else if k == 3 {}
    else if k == 4 {} else if k == 5 {} else if k == 6 {} else {}
  }

  /** The VF value of `add_8xy4`: 1 when `a + b` does not fit in a byte. */
  function Carry(a: bv8, b: bv8): bv8 {
    if a as int + b as int > 255 then 1 else 0
  }

  /** The VF value of `sub_8xy5` and `subn_8xy7`: 1 when `a > b`. */
  function NoBorrow(a: bv8, b: bv8): bv8 {
    if a > b then 1 else 0
  }

  /** Two bytes with the same value are the same byte. */
  lemma SameByte(a: bv8, b: bv8)
    requires a as int == b as int
    ensures a == b
  {
  }

  /** `b & 0x1` is the low bit and `b >> 1` halves; the low bit shifted
      right once is 0. */
  lemma LowBit(b: bv8)
    ensures (b & 1) as int == b as int % 2 && (b >> 1) as int == b as int / 2
    ensures (b & 1) >> 1 == 0
  {
  }

  /** `b << 1` doubles modulo 256; the low bit shifted right seven times is
      0. */
  lemma ShiftLeft(b: bv8)
    ensures (b << 1) as int == (b as int * 2) % 256
    ensures (b & 1) >> 7 == 0
  {
  }

  lemma XorCancels(a: bv8, b: bv8)
    ensures (a ^ b) ^ b == a
  {
  }

  lemma OrAndAbsorb(a: bv8, b: bv8)
    ensures (a | b) | b == a | b && (a & b) & b == a & b
    ensures (a | b) | (a | b) == a | b && (a & b) & (a & b) == a & b
  {
  }

  /** Wrapping addition is associative. */
  lemma WrappingAddAssoc(u: bv8, a: bv8, b: bv8)
    ensures WrappingAdd(WrappingAdd(u, a), b) == WrappingAdd(u, WrappingAdd(a, b))
  {
    var k := WrappingAdd(u, a);
    var w := WrappingAdd(k, b);
    var c := WrappingAdd(a, b);
    var z := WrappingAdd(u, c);
    AssocMod(u as int, a as int, b as int, k as int, w as int, c as int, z as int);
    SameByte(w, z);
  }

  /** Wrapping subtraction undoes wrapping addition. */
  lemma AddSubCancel(a: bv8, b: bv8)
    ensures WrappingSub(WrappingAdd(a, b), b) == a
  {
    var c := WrappingAdd(a, b);
    var d := WrappingSub(c, b);
    AddSubBack(a as int, b as int, c as int, d as int);
    SameByte(d, a);
  }

  /** `a - b` and `b - a` are each other's negation modulo 256. */
  lemma SubNegates(a: bv8, b: bv8)
    ensures WrappingAdd(WrappingSub(a, b), WrappingSub(b, a)) == 0
  {
    var s := WrappingSub(a, b);
    var t := WrappingSub(b, a);
    var z := WrappingAdd(s, t);
    NegMod(a as int, b as int, s as int, t as int, z as int);
    SameByte(z, 0);
  }

  /** Halving then doubling a byte clears its low bit. */
  lemma HalveDouble(a: bv8, h: bv8, r: bv8)
    requires h as int == a as int / 2 && r as int == (h as int * 2) % 256
    ensures r as int == a as int - a as int % 2
  {
    HalveDoubleInt(a as int, h as int, r as int);
  }

  /** Doubling a byte modulo 256 then halving it clears its high bit. */
  lemma DoubleHalve(a: bv8, d: bv8, r: bv8)
    requires d as int == (a as int * 2) % 256 && r as int == d as int / 2
    ensures r as int == a as int % 128
  {
    DoubleHalveInt(a as int, d as int, r as int);
  }

  /** Or-ing the same register twice is or-ing it once. */
  lemma OrTwice(v: seq<bv8>, w: seq<bv8>, x: nat, y: nat)
    requires x < |v| && y < |v| && w == v[x := v[x] | v[y]]
    ensures w[x := w[x] | w[y]] == w
  {
    OrAndAbsorb(v[x], v[y]);
    assert w[x] | w[y] == w[x];
  }

  /** And-ing the same register twice is and-ing it once. */
  lemma AndTwice(v: seq<bv8>, w: seq<bv8>, x: nat, y: nat)
    requires x < |v| && y < |v| && w == v[x := v[x] & v[y]]
    ensures w[x := w[x] & w[y]] == w
  {
    OrAndAbsorb(v[x], v[y]);
    assert w[x] & w[y] == w[x];
  }

  // Integer facts behind the three lemmas above, kept apart from bytes.

  lemma ModSum(a: int, b: int)
    ensures (a % 256 + b) % 256 == (a + b) % 256
  {
    var q := a / 256;
    assert a == q * 256 + a % 256;
    assert (a + b) - (a % 256 + b) == q * 256;
  }

  lemma AssocMod(u: int, a: int, b: int, k: int, w: int, c: int, z: int)
    requires k == (u + a) % 256 && w == (k + b) % 256
    requires c == (a + b) % 256 && z == (u + c) % 256
    ensures w == z
  {
    ModSum(u + a, b);
    ModSum(a + b, u);
    assert u + c == c + u;
    assert (u + a) + b == (a + b) + u;
  }

  lemma AddSubBack(a: int, b: int, c: int, d: int)
    requires 0 <= a < 256 && c == (a + b) % 256 && d == (c - b) % 256
    ensures d == a
  {
    ModSum(a + b, -b);
  }

  lemma NegMod(a: int, b: int, s: int, t: int, z: int)
    requires s == (a - b) % 256 && t == (b - a) % 256 && z == (s + t) % 256
    ensures z == 0
  {
    ModSum(a - b, t);
    assert (a - b) + t == t + (a - b);
    ModSum(b - a, a - b);
  }

  lemma HalveDoubleInt(a: int, h: int, r: int)
    requires 0 <= a < 256 && h == a / 2 && r == (h * 2) % 256
    ensures r == a - a % 2
  {
    assert h * 2 < 256;
  }

  lemma DoubleHalveInt(a: int, d: int, r: int)
    requires 0 <= a < 256 && d == (a * 2) % 256 && r == d / 2
    ensures r == a % 128
  {
    if a < 128 {
      assert d == a * 2;
    } else {
      assert d == a * 2 - 256;
    }
  }
}
