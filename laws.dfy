/** Properties that relate the instructions of src/chip8/mod.rs to each other
    and to the fetch loop: what the first fetch reads, where a jump or call
    leads, which instruction pairs undo each other, and what `drw_dxyn` does
    to the screen as seen from the machine state. */
module Chip8Laws {
  import opened Chip8Bytes
  import opened Chip8Opcode
  import opened Chip8Screen
  import opened Chip8Draw
  import opened Chip8Semantics
  import opened Chip8Encode

  // ---------------------------------------------------------------------
  // Loading and fetching

  /** After `new` and `load_from_vec`, the first step fetches the second
      word of the program, at 0x202: `run` adds 2 to `pc` before it fetches,
      and `pc` starts at 0x200, so the word at 0x200 is never executed. */
  lemma FirstFetch(reserved: seq<bv8>, program: seq<bv8>)
    requires |reserved| == ProgramStart && |program| == MemorySize - ProgramStart
    ensures var f := Fetch(LoadFromVec(New(reserved), program));
      && f.pc == ProgramStart + 2
      && f.opcode as int == program[2] as int * 256 + program[3] as int
  {
    var m := LoadFromVec(New(reserved), program);
    assert m.memory[ProgramStart..][2] == program[2];
    assert m.memory[ProgramStart..][3] == program[3];
  }

  /** A step on a machine whose next word is the opcode of `ins` runs
      exactly `ins`, after advancing `pc` and storing the opcode. */
  lemma StepRuns(m: Machine, ins: Instr, rnd: bv8)
    requires Valid(m) && m.pc + 3 < MemorySize && WellFormed(ins)
    requires Word(m.memory[m.pc + 2], m.memory[m.pc + 3]) == Encode(ins)
    ensures Step(m, rnd) == Execute(Fetch(m), ins, rnd)
  {
    var f := Fetch(m);
    assert f.opcode == Encode(ins);
    DecodeEncode(ins);
    StepFetches(m, rnd);
  }

  /** The last branch of `Step`: advance, fetch and dispatch. */
  lemma StepFetches(m: Machine, rnd: bv8)
    requires Valid(m) && m.pc + 3 < MemorySize
    ensures Step(m, rnd) == Execute(Fetch(m), Decode(Fetch(m).opcode), rnd)
  {
  }

  /** Opcodes that match no arm of the dispatcher, and `Ex9E`/`ExA1` whose
      bodies are empty, change nothing but `pc` and the opcode. */
  lemma StepIgnores(m: Machine, rnd: bv8)
    requires Valid(m) && m.pc + 3 < MemorySize
    requires var ins := Decode(Word(m.memory[m.pc + 2], m.memory[m.pc + 3])); ins.Nop? || ins.Skp? || ins.Sknp?
    ensures Step(m, rnd) == Running(m.(pc := m.pc + 2, opcode := Word(m.memory[m.pc + 2], m.memory[m.pc + 3])))
  {
    StepFetches(m, rnd);
    var f := Fetch(m);
    assert f == m.(pc := m.pc + 2, opcode := Word(m.memory[m.pc + 2], m.memory[m.pc + 3]));
    ExecuteIgnores(f, Decode(f.opcode), rnd);
  }

  lemma ExecuteIgnores(m: Machine, ins: Instr, rnd: bv8)
    requires Valid(m) && WellFormed(ins) && (ins.Nop? || ins.Skp? || ins.Sknp?)
    ensures Execute(m, ins, rnd) == Running(m)
  {
    assert !IsRegisterOp(ins) && !IsMemoryOp(ins);
  }

  /** `ld_fx0a` ends the program: a step exits exactly when it fetches an
      `Fx0A` opcode. */
  lemma StepExits(m: Machine, rnd: bv8)
    requires Valid(m) && m.pc + 3 < MemorySize
    ensures Step(m, rnd).Exited? <==> Decode(Word(m.memory[m.pc + 2], m.memory[m.pc + 3])).WaitKey?
  {
    StepFetches(m, rnd);
    var f := Fetch(m);
    assert f.opcode == Word(m.memory[m.pc + 2], m.memory[m.pc + 3]);
  }

  // ---------------------------------------------------------------------
  // Jumps, calls and returns

  /** After `jp_1nnn`, the next step fetches the word at `nnn`. */
  lemma JumpThenFetch(m: Machine, nnn: nat)
    requires Valid(m) && 2 <= nnn && nnn + 1 < MemorySize
    ensures var f := Fetch(Jp1nnn(m, nnn));
      f.pc == nnn && f.opcode == Word(m.memory[nnn], m.memory[nnn + 1])
  {
  }

  /** After `jp_bnnn`, the next step fetches the word at `nnn + v[0]`. */
  lemma JumpV0ThenFetch(m: Machine, nnn: nat)
    requires Valid(m) && 2 <= nnn && nnn + m.v[0] as int + 1 < MemorySize
    ensures var a := nnn + m.v[0] as int; var f := Fetch(JpBnnn(m, nnn));
      f.pc == a && f.opcode == Word(m.memory[a], m.memory[a + 1])
  {
  }

  /** A jump to its own address is a fixed point of `Step`: the loop spins
      there for ever, the usual way a CHIP-8 program stops. */
  lemma JumpToSelfSpins(m: Machine, rnd: bv8)
    requires Valid(m) && 2 <= m.pc + 2 && m.pc + 3 < MemorySize
    requires m.opcode == Encode(Jp(m.pc + 2))
    requires Word(m.memory[m.pc + 2], m.memory[m.pc + 3]) == m.opcode
    ensures Step(m, rnd) == Running(m)
  {
    StepRepeats(m, Jp(m.pc + 2), rnd);
    ExecuteJump(m.(pc := m.pc + 2), m.pc + 2, rnd);
  }

  /** A step whose fetched word equals the opcode already latched runs the
      decoded instruction on `m` with only `pc` advanced. */
  lemma StepRepeats(m: Machine, ins: Instr, rnd: bv8)
    requires Valid(m) && m.pc + 3 < MemorySize && WellFormed(ins)
    requires m.opcode == Encode(ins) && Word(m.memory[m.pc + 2], m.memory[m.pc + 3]) == m.opcode
    ensures Step(m, rnd) == Execute(m.(pc := m.pc + 2), ins, rnd)
  {
    StepRuns(m, ins, rnd);
    assert Fetch(m) == m.(pc := m.pc + 2);
  }

  /** The dispatcher sends `1nnn` to `jp_1nnn`. */
  lemma ExecuteJump(m: Machine, nnn: nat, rnd: bv8)
    requires Valid(m) && 2 <= nnn < 0x1000
    ensures Execute(m, Jp(nnn), rnd) == Running(Jp1nnn(m, nnn))
  {
  }

  /** `call_2nnn` followed by `ret_00ee` restores the whole machine: the
      return address is the call's own `pc`, so the step after the return
      fetches the instruction after the call. */
  lemma CallThenRet(m: Machine, nnn: nat)
    requires Valid(m) && nnn >= 2
    ensures Ret00EE(Call2nnn(m, nnn)) == m
  {
    assert (m.stack + [m.pc])[..|m.stack|] == m.stack;
  }

  // ---------------------------------------------------------------------
  // Skips

  /** `se` and `sne` with the same operands skip in complementary cases. */
  lemma SkipsComplement(m: Machine, x: nat, y: nat, nn: bv8)
    requires Valid(m) && x < RegisterCount && y < RegisterCount
    ensures Se3xnn(m, x, nn).pc + Sne4xnn(m, x, nn).pc == 2 * m.pc + 2
    ensures Se5xy0(m, x, y).pc + Sne9xy0(m, x, y).pc == 2 * m.pc + 2
  {
  }

  /** After `ld_6xnn` loads `nn`, `se_3xnn` with the same byte skips. */
  lemma LoadThenSkip(m: Machine, x: nat, nn: bv8)
    requires Valid(m) && x < RegisterCount
    ensures Se3xnn(Ld6xnn(m, x, nn), x, nn).pc == m.pc + 2
  {
  }

  /** After `ld_8xy0` copies `v[y]` into `v[x]`, `se_5xy0` skips. */
  lemma CopyThenSkip(m: Machine, x: nat, y: nat)
    requires Valid(m) && x < RegisterCount && y < RegisterCount
    ensures Se5xy0(Ld8xy0(m, x, y), x, y).pc == m.pc + 2
  {
  }

  // ---------------------------------------------------------------------
  // Arithmetic

  /** Two `add_7xnn` on the same register are one `add_7xnn` of the
      wrapped sum. */
  lemma AddByteTwice(m: Machine, x: nat, a: bv8, b: bv8)
    requires Valid(m) && x < RegisterCount
    ensures Add7xnn(Add7xnn(m, x, a), x, b) == Add7xnn(m, x, WrappingAdd(a, b))
  {
    WrappingAddAssoc(m.v[x], a, b);
  }

  /** `sub_8xy5` undoes `add_8xy4` on `v[x]` when `x`, `y` and VF are three
      different registers. */
  lemma AddThenSub(m: Machine, x: nat, y: nat)
    requires Valid(m) && x < Flag && y < Flag && x != y
    ensures Sub8xy5(Add8xy4(m, x, y), x, y).v[x] == m.v[x]
  {
    var r1 := Add8xy4(m, x, y);
    assert r1.v[x] == WrappingAdd(m.v[x], m.v[y]) && r1.v[y] == m.v[y];
    AddSubCancel(m.v[x], m.v[y]);
  }

  /** The carry of `add_8xy4` and the low byte recombine into the sum. */
  lemma AddCarries(m: Machine, x: nat, y: nat)
    requires Valid(m) && x < Flag && y < RegisterCount
    ensures var r := Add8xy4(m, x, y);
      r.v[Flag] as int * 256 + r.v[x] as int == m.v[x] as int + m.v[y] as int
  {
    var r := Add8xy4(m, x, y);
    var sum := m.v[x] as int + m.v[y] as int;
    var carry, low := r.v[Flag] as int, r.v[x] as int;
    assert carry == if sum > 255 then 1 else 0;
    assert low == sum % 256;
    CarrySplit(sum, carry, low);
  }

  /** `sub_8xy5` and `subn_8xy7` on the same registers give results that
      add up to 0 modulo 256: each is the other's negation. */
  lemma SubSubnNegate(m: Machine, x: nat, y: nat)
    requires Valid(m) && x < Flag && y < RegisterCount
    ensures WrappingAdd(Sub8xy5(m, x, y).v[x], Subn8xy7(m, x, y).v[x]) == 0
  {
    var s, t := Sub8xy5(m, x, y), Subn8xy7(m, x, y);
    assert s.v[x] == WrappingSub(m.v[x], m.v[y]) && t.v[x] == WrappingSub(m.v[y], m.v[x]);
    SubNegates(m.v[x], m.v[y]);
  }

  /** `sub_8xy5` and `subn_8xy7` set VF in complementary cases, and both
      clear it when the registers are equal. */
  lemma SubSubnFlags(m: Machine, x: nat, y: nat)
    requires Valid(m) && x < Flag && y < RegisterCount
    ensures m.v[x] != m.v[y] ==> Sub8xy5(m, x, y).v[Flag] != Subn8xy7(m, x, y).v[Flag]
    ensures m.v[x] == m.v[y] ==> Sub8xy5(m, x, y).v[Flag] == 0 && Subn8xy7(m, x, y).v[Flag] == 0
  {
    var s, t := Sub8xy5(m, x, y), Subn8xy7(m, x, y);
    assert s.v[Flag] == 1 <==> m.v[x] > m.v[y];
    assert t.v[Flag] == 1 <==> m.v[y] > m.v[x];
    assert s.v[Flag] <= 1 && t.v[Flag] <= 1;
  }

  /** `xor_8xy3` twice with a different register restores the machine. */
  lemma XorTwice(m: Machine, x: nat, y: nat)
    requires Valid(m) && x < RegisterCount && y < RegisterCount && x != y
    ensures Xor8xy3(Xor8xy3(m, x, y), x, y) == m
  {
    XorCancels(m.v[x], m.v[y]);
    assert Xor8xy3(Xor8xy3(m, x, y), x, y).v == m.v;
  }

  /** `or_8xy1` is idempotent. */
  lemma OrIdempotent(m: Machine, x: nat, y: nat)
    requires Valid(m) && x < RegisterCount && y < RegisterCount
    ensures Or8xy1(Or8xy1(m, x, y), x, y) == Or8xy1(m, x, y)
  {
    var o1 := Or8xy1(m, x, y);
    OrTwice(m.v, o1.v, x, y);
  }

  /** `and_8xy2` is idempotent. */
  lemma AndIdempotent(m: Machine, x: nat, y: nat)
    requires Valid(m) && x < RegisterCount && y < RegisterCount
    ensures And8xy2(And8xy2(m, x, y), x, y) == And8xy2(m, x, y)
  {
    var n1 := And8xy2(m, x, y);
    AndTwice(m.v, n1.v, x, y);
  }

  /** `shr_8xy6` then `shl_8x0E` clears the low bit of `v[x]`. */
  lemma ShrThenShl(m: Machine, x: nat)
    requires Valid(m) && x < Flag
    ensures var r := Shl8x0E(Shr8xy6(m, x), x);
      r.v[x] as int == m.v[x] as int - m.v[x] as int % 2 && r.v[Flag] == 0
  {
    var r1 := Shr8xy6(m, x);
    HalveDouble(m.v[x], r1.v[x], Shl8x0E(r1, x).v[x]);
  }

  /** `shl_8x0E` then `shr_8xy6` clears the top bit of `v[x]`, and the bit
      shifted into VF is 0. */
  lemma ShlThenShr(m: Machine, x: nat)
    requires Valid(m) && x < Flag
    ensures var r := Shr8xy6(Shl8x0E(m, x), x);
      r.v[x] as int == m.v[x] as int % 128 && r.v[Flag] == 0
  {
    var r1 := Shl8x0E(m, x);
    DoubleHalve(m.v[x], r1.v[x], Shr8xy6(r1, x).v[x]);
  }

  /** `shr_8xy6` keeps every bit: twice the result plus VF is the old
      value. */
  lemma ShrKeepsBits(m: Machine, x: nat)
    requires Valid(m) && x < Flag
    ensures var r := Shr8xy6(m, x); 2 * r.v[x] as int + r.v[Flag] as int == m.v[x] as int
  {
  }

  // ---------------------------------------------------------------------
  // Memory and timers

  /** `ld_fx65` right after `ld_fx55` reads back what was stored and leaves
      the registers as they were. */
  lemma StoreThenLoad(m: Machine, x: nat)
    requires Valid(m) && x < RegisterCount && m.i + x < MemorySize
    ensures LdFx65(LdFx55(m, x), x) == LdFx55(m, x)
  {
    var s := LdFx55(m, x);
    var r := LdFx65(s, x);
    assert r.v == s.v;
  }

  /** `ld_fx55` right after `ld_fx65` writes back what was loaded and leaves
      memory as it was. */
  lemma LoadThenStore(m: Machine, x: nat)
    requires Valid(m) && x < RegisterCount && m.i + x < MemorySize
    ensures LdFx55(LdFx65(m, x), x) == LdFx65(m, x)
  {
    var l := LdFx65(m, x);
    var r := LdFx55(l, x);
    assert r.memory == l.memory;
  }

  /** `ld_fx15` then `ld_fx07` copies a register through the delay timer. */
  lemma DelayRoundTrip(m: Machine, x: nat, y: nat)
    requires Valid(m) && x < RegisterCount && y < RegisterCount
    ensures LdFx07(LdFx15(m, x), y).v[y] == m.v[x]
  {
  }

  /** `ld_fx33` writes the decimal digits of `v[x]` with leading zeros: the
      hundreds digit is at most 2, and a number below 100 or 10 starts with
      zeros. */
  lemma BcdReadsBack(m: Machine, x: nat)
    requires Valid(m) && x < RegisterCount && m.i + 2 < MemorySize
    ensures var r := LdFx33(m, x);
      && r.memory[m.i] <= 2
      && (m.v[x] < 100 ==> r.memory[m.i] == 0)
      && (m.v[x] < 10 ==> r.memory[m.i + 1] == 0 && r.memory[m.i + 2] == m.v[x])
  {
    var r := LdFx33(m, x);
    var d := r.memory[m.i] as int;
    assert d * 100 <= m.v[x] as int;
    if m.v[x] < 10 {
      SameByte(r.memory[m.i + 2], m.v[x]);
    }
  }

  // ---------------------------------------------------------------------
  // Drawing

  /** `drw_dxyn` with `x` and `y` other than VF XORs bit `bit` of sprite
      byte `memory[i + line]` onto pixel `((v[x] + bit) % 64, (v[y] + line)
      % 32)`. */
  lemma DrwXorsSprite(m: Machine, x: nat, y: nat, n: nat)
    requires Valid(m) && x < Flag && y < Flag && n < 16 && (n == 0 || m.i + n <= MemorySize)
    ensures var r := DrwDxyn(m, x, y, n); var vx, vy := m.v[x], m.v[y];
      forall line, bit :: 0 <= line < n && 0 <= bit < 8 ==>
        r.vram[RowOf(vy, line)][ColOf(vx, bit)]
          == (m.vram[RowOf(vy, line)][ColOf(vx, bit)] != SpriteBit(m.memory[m.i + line], bit))
  {
    forall line, bit | 0 <= line < n && 0 <= bit < 8 {
      DrwPixel(m, x, y, n, line, bit);
    }
  }

  lemma DrwPixel(m: Machine, x: nat, y: nat, n: nat, line: nat, bit: nat)
    requires Valid(m) && x < Flag && y < Flag && n < 16 && (n == 0 || m.i + n <= MemorySize)
    requires line < n && bit < 8
    ensures DrwDxyn(m, x, y, n).vram[RowOf(m.v[y], line)][ColOf(m.v[x], bit)]
      == (m.vram[RowOf(m.v[y], line)][ColOf(m.v[x], bit)] != SpriteBit(m.memory[m.i + line], bit))
  {
    var s := Sprite(m, n);
    var c := Draw(m.vram, m.v, x, y, s);
    assert DrwDxyn(m, x, y, n).vram == c.grid;
    DrawnAll(m.vram, m.v, x, y, s);
    DrawnPixel(m.vram, m.v[x], m.v[y], s, c, line, bit);
  }

  /** `drw_dxyn` leaves every pixel its sprite does not cover as it was. */
  lemma DrwKeepsRest(m: Machine, x: nat, y: nat, n: nat)
    requires Valid(m) && x < Flag && y < Flag && n < 16 && (n == 0 || m.i + n <= MemorySize)
    ensures var r := DrwDxyn(m, x, y, n);
      forall py, px :: 0 <= py < Height && 0 <= px < Width && Untouched(m.v[x], m.v[y], n, px, py) ==>
        r.vram[py][px] == m.vram[py][px]
  {
    var s := Sprite(m, n);
    var c := Draw(m.vram, m.v, x, y, s);
    assert DrwDxyn(m, x, y, n).vram == c.grid;
    DrawKeepsRest(m.vram, m.v, x, y, s);
  }

  /** `drw_dxyn` with `x` and `y` other than VF sets VF to 1 exactly when a
      set sprite bit lands on a set pixel. */
  lemma DrwFlagsCollision(m: Machine, x: nat, y: nat, n: nat)
    requires Valid(m) && x < Flag && y < Flag && n < 16 && (n == 0 || m.i + n <= MemorySize)
    ensures DrwDxyn(m, x, y, n).v[Flag] == 1 <==>
      exists line, bit :: 0 <= line < n && 0 <= bit < 8 && Collides(m.vram, m.v[x], m.v[y], Sprite(m, n), line, bit)
  {
    DrawFlagsCollision(m.vram, m.v, x, y, Sprite(m, n));
  }

  /** Drawing the same sprite twice at the same place restores the screen,
      even though the first draw changed VF. */
  lemma DrwTwiceRestores(m: Machine, x: nat, y: nat, n: nat)
    requires Valid(m) && x < Flag && y < Flag && n < 16 && (n == 0 || m.i + n <= MemorySize)
    ensures DrwDxyn(DrwDxyn(m, x, y, n), x, y, n).vram == m.vram
  {
    var once := DrwDxyn(m, x, y, n);
    assert Sprite(once, n) == Sprite(m, n);
    DrawTwiceRestores(m.vram, m.v, once.v, x, y, Sprite(m, n));
  }

  // ---------------------------------------------------------------------
  // Arithmetic helpers


  lemma CarrySplit(sum: int, carry: int, low: int)
    requires 0 <= sum < 512 && carry == (if sum > 255 then 1 else 0) && low == sum % 256
    ensures carry * 256 + low == sum
  {
  }
}
