/** The inverse of the decoder in `run`: every instruction the dispatcher
    distinguishes has an opcode that decodes to exactly that instruction,
    operands included. This shows that the `match` arms of `run`
    (src/chip8/mod.rs:195-242) neither overlap nor lose operand bits. */
module Chip8Encode {
  import opened Chip8Bytes
  import opened Chip8Opcode
  import opened Chip8Semantics

  /** A field value below 16 as a bit-vector. */
  function Nibble(x: nat): (b: bv16)
    requires x < 0x10
    ensures b < 0x10 && b as nat == x
  {
    NibbleValue(x);
    x as bv16
  }

  lemma NibbleValue(x: nat)
    requires x < 0x10
    ensures (x as bv16) as nat == x
  {
  }

  /** The opcode with family `f` (a multiple of 0x1000) and nibbles `x`,
      `y`, `n`. */
  function Pack(f: bv16, x: nat, y: nat, n: nat): (w: bv16)
    requires f & 0x0FFF == 0 && x < 0x10 && y < 0x10 && n < 0x10
  {
    f | (Nibble(x) << 8) | (Nibble(y) << 4) | Nibble(n)
  }

  lemma PackBits(f: bv16, x: bv16, y: bv16, n: bv16)
    requires f & 0x0FFF == 0 && x < 0x10 && y < 0x10 && n < 0x10
    ensures var w := f | (x << 8) | (y << 4) | n;
      && (w & 0x0F00) >> 8 == x && (w & 0x00F0) >> 4 == y && w & 0x000F == n && w & 0xF000 == f
  {
  }

  /** Every extractor of `Opcode` reads back the field `Pack` put there. */
  lemma {:induction false} PackFields(f: bv16, x: nat, y: nat, n: nat)
    requires f & 0x0FFF == 0 && x < 0x10 && y < 0x10 && n < 0x10
    ensures var w := Pack(f, x, y, n);
      && Family(w) == f && X(w) == x && Y(w) == y && N(w) == n
      && Nn(w) as int == y * 0x10 + n && Nnn(w) == x * 0x100 + y * 0x10 + n
  {
    var w := Pack(f, x, y, n);
    PackBits(f, Nibble(x), Nibble(y), Nibble(n));
    FieldsRecombine(w);
  }

  /** The opcode of a byte immediate `nn` in family `f` with register `x`. */
  function PackByte(f: bv16, x: nat, nn: bv8): (w: bv16)
    requires f & 0x0FFF == 0 && x < 0x10
    ensures Family(w) == f && X(w) == x && Nn(w) == nn
  {
    var k := nn as nat;
    var hi := k / 0x10;
    var lo := k % 0x10;
    ByteDigits(k, hi, lo);
    var w := Pack(f, x, hi, lo);
    PackFields(f, x, hi, lo);
    SameByte(Nn(w), nn);
    w
  }

  lemma ByteDigits(k: int, hi: int, lo: int)
    requires 0 <= k < 0x100 && hi == k / 0x10 && lo == k % 0x10
    ensures 0 <= hi < 0x10 && 0 <= lo < 0x10 && hi * 0x10 + lo == k
  {
  }

  /** The opcode of a 12-bit address `nnn` in family `f`. */
  function PackAddress(f: bv16, nnn: nat): (w: bv16)
    requires f & 0x0FFF == 0 && nnn < 0x1000
    ensures Family(w) == f && Nnn(w) == nnn
  {
    var w := Pack(f, nnn / 0x100, (nnn / 0x10) % 0x10, nnn % 0x10);
    PackFields(f, nnn / 0x100, (nnn / 0x10) % 0x10, nnn % 0x10);
    HexDigits(nnn);
    w
  }

  lemma HexDigits(nnn: nat)
    requires nnn < 0x1000
    ensures nnn / 0x100 < 0x10 && (nnn / 0x10) % 0x10 < 0x10
    ensures (nnn / 0x100) * 0x100 + ((nnn / 0x10) % 0x10) * 0x10 + nnn % 0x10 == nnn
  {
  }

  /** The instructions of each part of `Decode`. */
  predicate IsSystem(ins: Instr) { ins.Cls? || ins.Ret? || ins.Nop? }
  predicate IsAddress(ins: Instr) { ins.Jp? || ins.Call? || ins.LdI? || ins.JpV0? }
  predicate IsByteOp(ins: Instr) { ins.SeByte? || ins.SneByte? || ins.LdByte? || ins.AddByte? || ins.Rnd? }
  predicate IsPair(ins: Instr) { ins.SeReg? || ins.SneReg? || ins.Drw? }
  predicate IsArith(ins: Instr) {
    ins.LdReg? || ins.Or? || ins.And? || ins.Xor? || ins.AddReg? || ins.Sub?
    || ins.Shr? || ins.Subn? || ins.Shl?
  }
  predicate IsKey(ins: Instr) { ins.Skp? || ins.Sknp? }

  /** An opcode for each instruction, built part by part as `Decode` takes
      it apart. `Shr` and `Shl` put 0 in the `y` field the interpreter
      ignores, and `Nop` is `0000`. */
  function Encode(ins: Instr): (w: bv16)
    requires WellFormed(ins)
  {
    if IsSystem(ins) then PackByte(0x0000, 0, SystemByte(ins))
    else if IsAddress(ins) then PackAddress(AddressFamily(ins), ins.nnn)
    else if IsByteOp(ins) then PackByte(ByteFamily(ins), ins.x, ins.nn)
    else if IsPair(ins) then Pack(PairFamily(ins), ins.x, ins.y, PairN(ins))
    else if IsArith(ins) then Pack(0x8000, ins.x, ArithY(ins), ArithNibble(ins))
    else if IsKey(ins) then PackByte(0xE000, ins.x, if ins.Skp? then 0x9E else 0xA1)
    else PackByte(0xF000, ins.x, MiscByte(ins))
  }

  function SystemByte(ins: Instr): (nn: bv8)
    requires IsSystem(ins)
    ensures DecodeSystem(nn) == ins
  {
    match ins
    case Cls => 0xE0
    case Ret => 0xEE
    case Nop => 0x00
  }

  function AddressFamily(ins: Instr): (f: bv16)
    requires IsAddress(ins)
    ensures f & 0x0FFF == 0 && f != 0x0000 && f != 0x8000 && f != 0xE000 && f != 0xF000
    ensures forall x, y, n, nn :: x < 16 && y < 16 && n < 16 && ins.nnn < 0x1000 ==>
      DecodeOperands(f, x, y, n, nn, ins.nnn) == ins
  {
    match ins
    case Jp(_) => 0x1000
    case Call(_) => 0x2000
    case LdI(_) => 0xA000
    case JpV0(_) => 0xB000
  }

  function ByteFamily(ins: Instr): (f: bv16)
    requires IsByteOp(ins)
    ensures f & 0x0FFF == 0 && f != 0x0000 && f != 0x8000 && f != 0xE000 && f != 0xF000
    ensures forall y, n, nnn :: ins.x < 16 && y < 16 && n < 16 && nnn < 0x1000 ==>
      DecodeOperands(f, ins.x, y, n, ins.nn, nnn) == ins
  {
    match ins
    case SeByte(_, _) => 0x3000
    case SneByte(_, _) => 0x4000
    case LdByte(_, _) => 0x6000
    case AddByte(_, _) => 0x7000
    case Rnd(_, _) => 0xC000
  }

  /** The `n` field of `5xy0`, `9xy0` and `Dxyn`. */
  function PairN(ins: Instr): (n: nat)
    requires WellFormed(ins) && IsPair(ins)
    ensures n < 16
  {
    if ins.Drw? then ins.n else 0
  }

  function PairFamily(ins: Instr): (f: bv16)
    requires WellFormed(ins) && IsPair(ins)
    ensures f & 0x0FFF == 0 && f != 0x0000 && f != 0x8000 && f != 0xE000 && f != 0xF000
    ensures forall nn, nnn :: nnn < 0x1000 ==> DecodeOperands(f, ins.x, ins.y, PairN(ins), nn, nnn) == ins
  {
    match ins
    case SeReg(_, _) => 0x5000
    case SneReg(_, _) => 0x9000
    case Drw(_, _, _) => 0xD000
  }

  /** The `y` field of an arithmetic opcode: 0 where the interpreter
      ignores it. */
  function ArithY(ins: Instr): nat
    requires IsArith(ins)
  {
    if ins.Shr? || ins.Shl? then 0 else ins.y
  }

  function ArithNibble(ins: Instr): (n: nat)
    requires IsArith(ins)
    ensures n < 16
    ensures ins.x < 16 && ArithY(ins) < 16 ==> DecodeArith(ins.x, ArithY(ins), n) == ins
  {
    match ins
    case LdReg(_, _) => 0x0
    case Or(_, _) => 0x1
    case And(_, _) => 0x2
    case Xor(_, _) => 0x3
    case AddReg(_, _) => 0x4
    case Sub(_, _) => 0x5
    case Shr(_) => 0x6
    case Subn(_, _) => 0x7
    case Shl(_) => 0xE
  }

  function MiscByte(ins: Instr): (nn: bv8)
    requires WellFormed(ins) && !IsSystem(ins) && !IsAddress(ins) && !IsByteOp(ins)
      && !IsPair(ins) && !IsArith(ins) && !IsKey(ins)
    ensures DecodeMisc(ins.x, nn) == ins
  {
    match ins
    case LdVxDt(_) => 0x07
    case WaitKey(_) => 0x0A
    case LdDtVx(_) => 0x15
    case LdStVx(_) => 0x18
    case AddI(_) => 0x1E
    case LdF(_) => 0x29
    case LdB(_) => 0x33
    case StoreRegs(_) => 0x55
    case LoadRegs(_) => 0x65
  }

  /** Decoding the opcode of any instruction gives that instruction back;
      hence no two instructions share a pattern of `run`'s `match`, and no
      operand bit is lost. */
  lemma DecodeEncode(ins: Instr)
    requires WellFormed(ins)
    ensures Decode(Encode(ins)) == ins
  {
    if IsSystem(ins) {
      RoundTripSystem(ins);
    } else if IsAddress(ins) {
      RoundTripAddress(ins);
    } else if IsByteOp(ins) {
      RoundTripByteOp(ins);
    } else if IsPair(ins) {
      RoundTripPair(ins);
    } else if IsArith(ins) {
      RoundTripArith(ins);
    } else if IsKey(ins) {
      RoundTripKey(ins);
    } else {
      RoundTripMisc(ins);
    }
  }

  lemma RoundTripSystem(ins: Instr)
    requires WellFormed(ins) && IsSystem(ins)
    ensures Decode(Encode(ins)) == ins
  {
    var w := PackByte(0x0000, 0, SystemByte(ins));
    assert Encode(ins) == w;
    assert Decode(w) == DecodeSystem(Nn(w));
  }

  lemma RoundTripAddress(ins: Instr)
    requires WellFormed(ins) && IsAddress(ins)
    ensures Decode(Encode(ins)) == ins
  {
    var w := PackAddress(AddressFamily(ins), ins.nnn);
    assert Encode(ins) == w;
    assert Decode(w) == DecodeOperands(Family(w), X(w), Y(w), N(w), Nn(w), Nnn(w));
  }

  lemma RoundTripByteOp(ins: Instr)
    requires WellFormed(ins) && !IsSystem(ins) && !IsAddress(ins) && IsByteOp(ins)
    ensures Decode(Encode(ins)) == ins
  {
    var w := PackByte(ByteFamily(ins), ins.x, ins.nn);
    assert Encode(ins) == w;
    assert Decode(w) == DecodeOperands(Family(w), X(w), Y(w), N(w), Nn(w), Nnn(w));
  }

  lemma RoundTripPair(ins: Instr)
    requires WellFormed(ins) && !IsSystem(ins) && !IsAddress(ins) && !IsByteOp(ins) && IsPair(ins)
    ensures Decode(Encode(ins)) == ins
  {
    var n := PairN(ins);
    var w := Pack(PairFamily(ins), ins.x, ins.y, n);
    assert Encode(ins) == w;
    PackFields(PairFamily(ins), ins.x, ins.y, n);
    assert Decode(w) == DecodeOperands(Family(w), X(w), Y(w), N(w), Nn(w), Nnn(w));
  }

  lemma RoundTripArith(ins: Instr)
    requires WellFormed(ins) && !IsSystem(ins) && !IsAddress(ins) && !IsByteOp(ins) && !IsPair(ins)
    requires IsArith(ins)
    ensures Decode(Encode(ins)) == ins
  {
    var w := Pack(0x8000, ins.x, ArithY(ins), ArithNibble(ins));
    assert Encode(ins) == w;
    PackFields(0x8000, ins.x, ArithY(ins), ArithNibble(ins));
    assert Decode(w) == DecodeArith(X(w), Y(w), N(w));
  }

  lemma RoundTripKey(ins: Instr)
    requires WellFormed(ins) && !IsSystem(ins) && !IsAddress(ins) && !IsByteOp(ins) && !IsPair(ins)
    requires !IsArith(ins) && IsKey(ins)
    ensures Decode(Encode(ins)) == ins
  {
    var w := PackByte(0xE000, ins.x, if ins.Skp? then 0x9E else 0xA1);
    assert Encode(ins) == w;
    assert Decode(w) == DecodeKey(X(w), Nn(w));
  }

  lemma RoundTripMisc(ins: Instr)
    requires WellFormed(ins) && !IsSystem(ins) && !IsAddress(ins) && !IsByteOp(ins) && !IsPair(ins)
    requires !IsArith(ins) && !IsKey(ins)
    ensures Decode(Encode(ins)) == ins
  {
    var w := PackByte(0xF000, ins.x, MiscByte(ins));
    assert Encode(ins) == w;
    assert Decode(w) == DecodeMisc(X(w), Nn(w));
  }
}
