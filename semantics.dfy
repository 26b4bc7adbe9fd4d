/** The interpreter of src/chip8/mod.rs as a function on machine states: one
    function per instruction method, the decoder that `run` applies to each
    fetched opcode, and one step of `run`'s loop. The `Chip8` class in
    chip8.dfy performs the same updates in place and is proved to agree with
    these functions; the properties of the instructions are proved here.

    Every place where the Rust code would panic (an index past the end of
    memory, `nnn - 2` below zero on `usize`, `unwrap` on an empty stack) is a
    `requires` of the instruction function and a `Panicked` outcome of
    `Execute` and `Step`. */
module Chip8Semantics {
  import opened Chip8Bytes
  import opened Chip8Opcode
  import opened Chip8Screen
  import opened Chip8Draw

  /** `memory: [u8; 1024 * 4]`. */
  const MemorySize: nat := 0x1000
  /** Programs are loaded, and `pc` starts, at 0x200. */
  const ProgramStart: nat := 0x200
  /** `v: [u8; 16]`. */
  const RegisterCount: nat := 16
  /** VF, the flag register. */
  const Flag: nat := 0xF

  /** Every field of `Chip8` that an instruction reads or writes. */
  datatype Machine = Machine(
    memory: seq<bv8>,
    v: seq<bv8>,
    pc: nat,
    i: nat,
    opcode: bv16,
    stack: seq<nat>,
    vram: Grid,
    delay: bv8,
    sound: bv8,
    redraw: bool)

  /** The fixed sizes of the arrays. */
  ghost predicate Valid(m: Machine) {
    |m.memory| == MemorySize && |m.v| == RegisterCount && IsGrid(m.vram)
  }

  /** Why the Rust code panics. */
  datatype Fault =
    | FetchOutOfRange    // `memory[pc]` or `memory[pc + 1]` past the end
    | StackUnderflow     // `ret` on an empty stack
    | AddressUnderflow   // `nnn - 2` below zero
    | MemoryOutOfRange   // `memory[i + k]` past the end

  /** The result of one instruction or one step of `run`. */
  datatype Outcome =
    | Running(m: Machine)   // the loop goes on
    | Halted(m: Machine)    // `while self.pc < self.memory.len()` is false
    | Exited(m: Machine)    // `ld_fx0a` calls `process::exit`
    | Panicked(fault: Fault)

  // ---------------------------------------------------------------------
  // Construction and loading

  /** `Chip8::new`. The font loader is not part of this model, so the
      first 0x200 bytes it leaves in memory are a parameter; the rest of
      memory, the registers, `i`, the stack, the screen and the timers are
      zero and `pc` is 0x200. */
  function New(reserved: seq<bv8>): (m: Machine)
    requires |reserved| == ProgramStart
    ensures Valid(m)
    ensures m.pc == ProgramStart && m.i == 0 && m.stack == [] && !m.redraw && m.opcode == 0
    ensures forall r :: 0 <= r < RegisterCount ==> m.v[r] == 0
    ensures m.memory[..ProgramStart] == reserved
    ensures forall a :: ProgramStart <= a < MemorySize ==> m.memory[a] == 0
    ensures m.vram == Blank() && m.delay == 0 && m.sound == 0
  {
    Machine(reserved + seq(MemorySize - ProgramStart, _ => 0), seq(RegisterCount, _ => 0),
      ProgramStart, 0, 0, [], Blank(), 0, 0, false)
  }

  /** `load_from_vec`: `copy_from_slice` into `memory[0x200..]`, which
      panics unless the program fills it exactly. */
  function LoadFromVec(m: Machine, program: seq<bv8>): (r: Machine)
    requires Valid(m) && |program| == MemorySize - ProgramStart
    ensures Valid(r)
    ensures r.memory[..ProgramStart] == m.memory[..ProgramStart]
    ensures r.memory[ProgramStart..] == program
    ensures r == m.(memory := r.memory)
  {
    m.(memory := m.memory[..ProgramStart] + program)
  }

  // ---------------------------------------------------------------------
  // The instruction methods (src/chip8/mod.rs:248-630), one function each.
  // `x` and `y` are register indices and `nn`, `nnn`, `n` the immediates,
  // as `Opcode` extracts them.

  /** `cls_00e0`: every pixel is cleared and a redraw is requested. */
  function Cls00E0(m: Machine): (r: Machine)
    requires Valid(m)
    ensures Valid(r) && r.redraw
    ensures forall row, col :: 0 <= row < Height && 0 <= col < Width ==> !r.vram[row][col]
    ensures r == m.(vram := r.vram, redraw := true)
  {
    m.(vram := Blank(), redraw := true)
  }

  /** `ret_00ee`: `pc` becomes the newest return address, which is popped. */
  function Ret00EE(m: Machine): (r: Machine)
    requires Valid(m) && |m.stack| > 0
    ensures Valid(r)
    ensures r.pc == m.stack[|m.stack| - 1] && r.stack == m.stack[..|m.stack| - 1]
    ensures r == m.(pc := r.pc, stack := r.stack)
  {
    m.(pc := m.stack[|m.stack| - 1], stack := m.stack[..|m.stack| - 1])
  }

  /** `jp_1nnn`: `pc` is set two bytes short of `nnn`, because the next
      step adds 2 before it fetches. */
  function Jp1nnn(m: Machine, nnn: nat): (r: Machine)
    requires Valid(m) && nnn >= 2
    ensures Valid(r) && r.pc + 2 == nnn
    ensures r == m.(pc := r.pc)
  {
    m.(pc := nnn - 2)
  }

  /** `call_2nnn`: the address of the call is pushed, then `pc` is set as
      by `jp_1nnn`. */
  function Call2nnn(m: Machine, nnn: nat): (r: Machine)
    requires Valid(m) && nnn >= 2
    ensures Valid(r) && r.pc + 2 == nnn
    ensures |r.stack| == |m.stack| + 1 && r.stack[..|m.stack|] == m.stack && r.stack[|m.stack|] == m.pc
    ensures r == m.(pc := r.pc, stack := r.stack)
  {
    m.(stack := m.stack + [m.pc], pc := nnn - 2)
  }

  /** `se_3xnn`: skip the next instruction exactly when `v[x] == nn`. */
  function Se3xnn(m: Machine, x: nat, nn: bv8): (r: Machine)
    requires Valid(m) && x < RegisterCount
    ensures r.pc == m.pc + 2 <==> m.v[x] == nn
    ensures r.pc == m.pc || r.pc == m.pc + 2
    ensures r == m.(pc := r.pc)
  {
    if m.v[x] == nn then m.(pc := m.pc + 2) else m
  }

  /** `sne_4xnn`: skip the next instruction exactly when `v[x] != nn`. */
  function Sne4xnn(m: Machine, x: nat, nn: bv8): (r: Machine)
    requires Valid(m) && x < RegisterCount
    ensures r.pc == m.pc + 2 <==> m.v[x] != nn
    ensures r.pc == m.pc || r.pc == m.pc + 2
    ensures r == m.(pc := r.pc)
  {
    if m.v[x] != nn then m.(pc := m.pc + 2) else m
  }

  /** `se_5xy0`: skip the next instruction exactly when `v[x] == v[y]`. */
  function Se5xy0(m: Machine, x: nat, y: nat): (r: Machine)
    requires Valid(m) && x < RegisterCount && y < RegisterCount
    ensures r.pc == m.pc + 2 <==> m.v[x] == m.v[y]
    ensures r.pc == m.pc || r.pc == m.pc + 2
    ensures r == m.(pc := r.pc)
  {
    if m.v[x] == m.v[y] then m.(pc := m.pc + 2) else m
  }

  /** `ld_6xnn`: `v[x]` becomes `nn`. */
  function Ld6xnn(m: Machine, x: nat, nn: bv8): (r: Machine)
    requires Valid(m) && x < RegisterCount
    ensures Valid(r) && r.v[x] == nn
    ensures forall j :: 0 <= j < RegisterCount && j != x ==> r.v[j] == m.v[j]
    ensures r == m.(v := r.v)
  {
    m.(v := m.v[x := nn])
  }

  /** `add_7xnn`: `v[x]` grows by `nn` modulo 256; VF is not touched unless
      it is `v[x]` itself. */
  function Add7xnn(m: Machine, x: nat, nn: bv8): (r: Machine)
    requires Valid(m) && x < RegisterCount
    ensures Valid(r) && r.v[x] as int == (m.v[x] as int + nn as int) % 256
    ensures forall j :: 0 <= j < RegisterCount && j != x ==> r.v[j] == m.v[j]
    ensures r == m.(v := r.v)
  {
    m.(v := m.v[x := WrappingAdd(m.v[x], nn)])
  }

  /** `ld_8xy0`: `v[x]` becomes `v[y]`. */
  function Ld8xy0(m: Machine, x: nat, y: nat): (r: Machine)
    requires Valid(m) && x < RegisterCount && y < RegisterCount
    ensures Valid(r) && r.v[x] == m.v[y]
    ensures forall j :: 0 <= j < RegisterCount && j != x ==> r.v[j] == m.v[j]
    ensures r == m.(v := r.v)
  {
    m.(v := m.v[x := m.v[y]])
  }

  /** `or_8xy1`: `v[x] |= v[y]`. */
  function Or8xy1(m: Machine, x: nat, y: nat): (r: Machine)
    requires Valid(m) && x < RegisterCount && y < RegisterCount
    ensures Valid(r)
    ensures forall k :: 0 <= k < 8 ==> (Bit(r.v[x], k) <==> (Bit(m.v[x], k) || Bit(m.v[y], k)))
    ensures forall j :: 0 <= j < RegisterCount && j != x ==> r.v[j] == m.v[j]
    ensures r == m.(v := r.v)
  {
    var w := m.v[x] | m.v[y];
    OrBits(m.v[x], m.v[y], w);
    m.(v := m.v[x := w])
  }

  /** `and_8xy2`: `v[x] &= v[y]`. */
  function And8xy2(m: Machine, x: nat, y: nat): (r: Machine)
    requires Valid(m) && x < RegisterCount && y < RegisterCount
    ensures Valid(r)
    ensures forall k :: 0 <= k < 8 ==> (Bit(r.v[x], k) <==> (Bit(m.v[x], k) && Bit(m.v[y], k)))
    ensures forall j :: 0 <= j < RegisterCount && j != x ==> r.v[j] == m.v[j]
    ensures r == m.(v := r.v)
  {
    var w := m.v[x] & m.v[y];
    AndBits(m.v[x], m.v[y], w);
    m.(v := m.v[x := w])
  }

  /** `xor_8xy3`: `v[x] ^= v[y]`. */
  function Xor8xy3(m: Machine, x: nat, y: nat): (r: Machine)
    requires Valid(m) && x < RegisterCount && y < RegisterCount
    ensures Valid(r)
    ensures forall k :: 0 <= k < 8 ==> (Bit(r.v[x], k) <==> (Bit(m.v[x], k) != Bit(m.v[y], k)))
    ensures forall j :: 0 <= j < RegisterCount && j != x ==> r.v[j] == m.v[j]
    ensures r == m.(v := r.v)
  {
    var w := m.v[x] ^ m.v[y];
    XorBits(m.v[x], m.v[y], w);
    m.(v := m.v[x := w])
  }

  /** `add_8xy4`: VF is set to the carry out of `v[x] + v[y]` and then
      `v[x]` to the low byte of the sum; when `x` is VF the sum overwrites
      the carry. */
  function Add8xy4(m: Machine, x: nat, y: nat): (r: Machine)
    requires Valid(m) && x < RegisterCount && y < RegisterCount
    ensures Valid(r)
    ensures r.v[x] as int == (m.v[x] as int + m.v[y] as int) % 256
    ensures x != Flag ==> (r.v[Flag] == 1 <==> m.v[x] as int + m.v[y] as int > 255) && r.v[Flag] <= 1
    ensures forall j :: 0 <= j < RegisterCount && j != x && j != Flag ==> r.v[j] == m.v[j]
    ensures r == m.(v := r.v)
  {
    m.(v := m.v[Flag := Carry(m.v[x], m.v[y])][x := WrappingAdd(m.v[x], m.v[y])])
  }

  /** `sub_8xy5`: VF is set to 1 exactly when `v[x] > v[y]` (no borrow) and
      then `v[x]` to `v[x] - v[y]` modulo 256. */
  function Sub8xy5(m: Machine, x: nat, y: nat): (r: Machine)
    requires Valid(m) && x < RegisterCount && y < RegisterCount
    ensures Valid(r)
    ensures r.v[x] as int == (m.v[x] as int - m.v[y] as int) % 256
    ensures x != Flag ==> (r.v[Flag] == 1 <==> m.v[x] > m.v[y]) && r.v[Flag] <= 1
    ensures forall j :: 0 <= j < RegisterCount && j != x && j != Flag ==> r.v[j] == m.v[j]
    ensures r == m.(v := r.v)
  {
    m.(v := m.v[Flag := NoBorrow(m.v[x], m.v[y])][x := WrappingSub(m.v[x], m.v[y])])
  }

  /** `shr_8xy6`: VF is set to the low bit of `v[x]`, then `v[x]` is
      shifted right once. The shift re-reads `v[x]`, so when `x` is VF it
      shifts the flag just written and VF ends up 0. */
  function Shr8xy6(m: Machine, x: nat): (r: Machine)
    requires Valid(m) && x < RegisterCount
    ensures Valid(r)
    ensures x != Flag ==> r.v[x] as int == m.v[x] as int / 2 && r.v[Flag] as int == m.v[x] as int % 2
    ensures x == Flag ==> r.v[Flag] == 0
    ensures forall j :: 0 <= j < RegisterCount && j != x && j != Flag ==> r.v[j] == m.v[j]
    ensures r == m.(v := r.v)
  {
    var v := m.v[Flag := m.v[x] & 1];
    LowBit(m.v[x]);
    m.(v := v[x := v[x] >> 1])
  }

  /** `subn_8xy7`: VF is set to 1 exactly when `v[y] > v[x]` and then
      `v[x]` to `v[y] - v[x]` modulo 256. */
  function Subn8xy7(m: Machine, x: nat, y: nat): (r: Machine)
    requires Valid(m) && x < RegisterCount && y < RegisterCount
    ensures Valid(r)
    ensures r.v[x] as int == (m.v[y] as int - m.v[x] as int) % 256
    ensures x != Flag ==> (r.v[Flag] == 1 <==> m.v[y] > m.v[x]) && r.v[Flag] <= 1
    ensures forall j :: 0 <= j < RegisterCount && j != x && j != Flag ==> r.v[j] == m.v[j]
    ensures r == m.(v := r.v)
  {
    m.(v := m.v[Flag := NoBorrow(m.v[y], m.v[x])][x := WrappingSub(m.v[y], m.v[x])])
  }

  /** `shl_8x0e`: VF is set to `(v[x] & 0x1) >> 7`, which is 0 for every
      byte, then `v[x]` is shifted left once, dropping its top bit. When `x`
      is VF the shift re-reads the 0 just written. */
  function Shl8x0E(m: Machine, x: nat): (r: Machine)
    requires Valid(m) && x < RegisterCount
    ensures Valid(r) && r.v[Flag] == 0
    ensures x != Flag ==> r.v[x] as int == (m.v[x] as int * 2) % 256
    ensures forall j :: 0 <= j < RegisterCount && j != x && j != Flag ==> r.v[j] == m.v[j]
    ensures r == m.(v := r.v)
  {
    var v := m.v[Flag := (m.v[x] & 1) >> 7];
    ShiftLeft(v[x]);
    m.(v := v[x := v[x] << 1])
  }

  /** `sne_9xy0`: skip the next instruction exactly when `v[x] != v[y]`. */
  function Sne9xy0(m: Machine, x: nat, y: nat): (r: Machine)
    requires Valid(m) && x < RegisterCount && y < RegisterCount
    ensures r.pc == m.pc + 2 <==> m.v[x] != m.v[y]
    ensures r.pc == m.pc || r.pc == m.pc + 2
    ensures r == m.(pc := r.pc)
  {
    if m.v[x] != m.v[y] then m.(pc := m.pc + 2) else m
  }

  /** `ld_annn`: `i` becomes `nnn`. */
  function LdAnnn(m: Machine, nnn: nat): (r: Machine)
    requires Valid(m)
    ensures Valid(r) && r.i == nnn
    ensures r == m.(i := r.i)
  {
    m.(i := nnn)
  }

  /** `jp_bnnn`: like `jp_1nnn`, with `v[0]` added to the target. */
  function JpBnnn(m: Machine, nnn: nat): (r: Machine)
    requires Valid(m) && nnn >= 2
    ensures Valid(r) && r.pc + 2 == nnn + m.v[0] as int
    ensures r == m.(pc := r.pc)
  {
    m.(pc := (nnn - 2) + m.v[0] as nat)
  }

  /** `rnd_cxnn` with the random byte `rnd` drawn by the generator: `v[x]`
      becomes `rnd & nn`, so it has no bit set outside `nn`. */
  function RndCxnn(m: Machine, x: nat, nn: bv8, rnd: bv8): (r: Machine)
    requires Valid(m) && x < RegisterCount
    ensures Valid(r) && r.v[x] == rnd & nn
    ensures r.v[x] & nn == r.v[x] && r.v[x] <= nn
    ensures forall j :: 0 <= j < RegisterCount && j != x ==> r.v[j] == m.v[j]
    ensures r == m.(v := r.v)
  {
    m.(v := m.v[x := rnd & nn])
  }

  /** The `n` sprite bytes `drw_dxyn` reads from `memory[i..]`. */
  function Sprite(m: Machine, n: nat): (s: seq<bv8>)
    requires Valid(m) && (n == 0 || m.i + n <= MemorySize)
    ensures |s| == n && forall k :: 0 <= k < n ==> s[k] == m.memory[m.i + k]
  {
    if n == 0 then [] else m.memory[m.i..m.i + n]
  }

  /** `drw_dxyn`: the sprite loop of Chip8Draw on the framebuffer and the
      registers, VF ending as the collision flag, and a redraw requested.
      Only VF, the framebuffer and `need_redraw` change. */
  function DrwDxyn(m: Machine, x: nat, y: nat, n: nat): (r: Machine)
    requires Valid(m) && x < RegisterCount && y < RegisterCount && n < 16
    requires n == 0 || m.i + n <= MemorySize
    ensures Valid(r) && r.redraw && (r.v[Flag] == 0 || r.v[Flag] == 1)
    ensures forall j :: 0 <= j < RegisterCount && j != Flag ==> r.v[j] == m.v[j]
    ensures r == m.(vram := r.vram, v := r.v, redraw := true)
  {
    var c := Draw(m.vram, m.v, x, y, Sprite(m, n));
    m.(vram := c.grid, v := m.v[Flag := FlagByte(c.collided)], redraw := true)
  }

  /** `ld_fx07`: `v[x]` becomes the delay timer. */
  function LdFx07(m: Machine, x: nat): (r: Machine)
    requires Valid(m) && x < RegisterCount
    ensures Valid(r) && r.v[x] == m.delay
    ensures forall j :: 0 <= j < RegisterCount && j != x ==> r.v[j] == m.v[j]
    ensures r == m.(v := r.v)
  {
    m.(v := m.v[x := m.delay])
  }

  /** `ld_fx15`: the delay timer becomes `v[x]`. */
  function LdFx15(m: Machine, x: nat): (r: Machine)
    requires Valid(m) && x < RegisterCount
    ensures Valid(r) && r.delay == m.v[x]
    ensures r == m.(delay := r.delay)
  {
    m.(delay := m.v[x])
  }

  /** `ld_fx18`: the sound timer becomes `v[x]`. */
  function LdFx18(m: Machine, x: nat): (r: Machine)
    requires Valid(m) && x < RegisterCount
    ensures Valid(r) && r.sound == m.v[x]
    ensures r == m.(sound := r.sound)
  {
    m.(sound := m.v[x])
  }

  /** `add_fx1e`: `i` grows by `v[x]`; `usize` does not overflow here. */
  function AddFx1E(m: Machine, x: nat): (r: Machine)
    requires Valid(m) && x < RegisterCount
    ensures Valid(r) && r.i == m.i + m.v[x] as int
    ensures r == m.(i := r.i)
  {
    m.(i := m.i + m.v[x] as nat)
  }

  /** `ld_fx29`: `i` becomes `v[x] * 5`, the offset of the 5-byte glyph of
      digit `v[x]`; the whole glyph lies inside memory. */
  function LdFx29(m: Machine, x: nat): (r: Machine)
    requires Valid(m) && x < RegisterCount
    ensures Valid(r) && r.i == m.v[x] as int * 5 && r.i % 5 == 0 && r.i + 5 <= MemorySize
    ensures r == m.(i := r.i)
  {
    m.(i := m.v[x] as nat * 5)
  }

  /** `ld_fx33`: the hundreds, tens and ones digits of `v[x]` are stored at
      `i`, `i + 1` and `i + 2`; the rest of memory keeps its bytes. */
  function LdFx33(m: Machine, x: nat): (r: Machine)
    requires Valid(m) && x < RegisterCount && m.i + 2 < MemorySize
    ensures Valid(r)
    ensures r.memory[m.i] as int * 100 + r.memory[m.i + 1] as int * 10 + r.memory[m.i + 2] as int == m.v[x] as int
    ensures r.memory[m.i] <= 9 && r.memory[m.i + 1] <= 9 && r.memory[m.i + 2] <= 9
    ensures forall a :: 0 <= a < MemorySize && (a < m.i || m.i + 2 < a) ==> r.memory[a] == m.memory[a]
    ensures r == m.(memory := r.memory)
  {
    var d := Bcd(m.v[x]);
    m.(memory := m.memory[m.i := d.0][m.i + 1 := d.1][m.i + 2 := d.2])
  }

  /** The hundreds, tens and ones digits of a byte, as bytes. */
  function Bcd(b: bv8): (d: (bv8, bv8, bv8))
    ensures d.0 <= 9 && d.1 <= 9 && d.2 <= 9
    ensures d.0 as int * 100 + d.1 as int * 10 + d.2 as int == b as int
  {
    var n := b as int;
    Digits(n);
    (ByteOf(n / 100), ByteOf((n / 10) % 10), ByteOf(n % 10))
  }

  /** The digit arithmetic behind `Bcd`. */
  lemma Digits(n: int)
    requires 0 <= n < 256
    ensures 0 <= n / 100 <= 2 && 0 <= (n / 10) % 10 <= 9 && 0 <= n % 10 <= 9
    ensures (n / 100) * 100 + ((n / 10) % 10) * 10 + n % 10 == n
  {
  }

  /** `ld_fx55`: `v[0..=x]` is copied to `memory[i..=i + x]`. */
  function LdFx55(m: Machine, x: nat): (r: Machine)
    requires Valid(m) && x < RegisterCount && m.i + x < MemorySize
    ensures Valid(r)
    ensures forall j :: 0 <= j <= x ==> r.memory[m.i + j] == m.v[j]
    ensures forall a :: 0 <= a < MemorySize && (a < m.i || m.i + x < a) ==> r.memory[a] == m.memory[a]
    ensures r == m.(memory := r.memory)
  {
    m.(memory := m.memory[..m.i] + m.v[..x + 1] + m.memory[m.i + x + 1..])
  }

  /** `ld_fx65`: `memory[i..=i + x]` is copied to `v[0..=x]`. */
  function LdFx65(m: Machine, x: nat): (r: Machine)
    requires Valid(m) && x < RegisterCount && m.i + x < MemorySize
    ensures Valid(r)
    ensures forall j :: 0 <= j <= x ==> r.v[j] == m.memory[m.i + j]
    ensures forall j :: x < j < RegisterCount ==> r.v[j] == m.v[j]
    ensures r == m.(v := r.v)
  {
    m.(v := m.memory[m.i..m.i + x + 1] + m.v[x + 1..])
  }

  // ---------------------------------------------------------------------
  // Decoding

  /** The instructions `run` dispatches to, with their operands; `Nop` is
      every opcode whose pattern matches no arm. */
  datatype Instr =
    | Cls | Ret | Jp(nnn: nat) | Call(nnn: nat)
    | SeByte(x: nat, nn: bv8) | SneByte(x: nat, nn: bv8) | SeReg(x: nat, y: nat)
    | LdByte(x: nat, nn: bv8) | AddByte(x: nat, nn: bv8)
    | LdReg(x: nat, y: nat) | Or(x: nat, y: nat) | And(x: nat, y: nat) | Xor(x: nat, y: nat)
    | AddReg(x: nat, y: nat) | Sub(x: nat, y: nat) | Shr(x: nat) | Subn(x: nat, y: nat) | Shl(x: nat)
    | SneReg(x: nat, y: nat) | LdI(nnn: nat) | JpV0(nnn: nat) | Rnd(x: nat, nn: bv8)
    | Drw(x: nat, y: nat, n: nat) | Skp(x: nat) | Sknp(x: nat)
    | LdVxDt(x: nat) | WaitKey(x: nat) | LdDtVx(x: nat) | LdStVx(x: nat)
    | AddI(x: nat) | LdF(x: nat) | LdB(x: nat) | StoreRegs(x: nat) | LoadRegs(x: nat)
    | Nop

  /** Register operands are register indices, addresses have 12 bits and
      sprite heights 4, as `Opcode`'s extractors guarantee. */
  predicate WellFormed(ins: Instr) {
    match ins
    case Cls | Ret | Nop => true
    case Jp(nnn) => nnn < 0x1000
    case Call(nnn) => nnn < 0x1000
    case LdI(nnn) => nnn < 0x1000
    case JpV0(nnn) => nnn < 0x1000
    case SeReg(x, y) => x < 16 && y < 16
    case LdReg(x, y) => x < 16 && y < 16
    case Or(x, y) => x < 16 && y < 16
    case And(x, y) => x < 16 && y < 16
    case Xor(x, y) => x < 16 && y < 16
    case AddReg(x, y) => x < 16 && y < 16
    case Sub(x, y) => x < 16 && y < 16
    case Subn(x, y) => x < 16 && y < 16
    case SneReg(x, y) => x < 16 && y < 16
    case Drw(x, y, n) => x < 16 && y < 16 && n < 16
    case _ => ins.x < 16
  }

  /** The `match` of `run` (src/chip8/mod.rs:195-242): first on
      `code & 0xF000`, then, for families 0x0, 0xE and 0xF, on
      `code & 0x00FF` and, for family 0x8, on `code & 0x000F`. Families 0x5
      and 0x9 do not look at the low nibble, and 0x8xy6 and 0x8xyE do not
      look at `y`. */
  function Decode(w: bv16): (ins: Instr)
    ensures WellFormed(ins)
  {
    var f := Family(w);
    if f == 0x0000 then DecodeSystem(Nn(w))
    else if f == 0x8000 then DecodeArith(X(w), Y(w), N(w))
    else if f == 0xE000 then DecodeKey(X(w), Nn(w))
    else if f == 0xF000 then DecodeMisc(X(w), Nn(w))
    else DecodeOperands(f, X(w), Y(w), N(w), Nn(w), Nnn(w))
  }

  /** Family 0x0: `00E0` and `00EE`; everything else, including `0nnn`, is
      ignored. */
  function DecodeSystem(nn: bv8): (ins: Instr)
    ensures ins == Cls || ins == Ret || ins == Nop
    ensures ins == Cls <==> nn == 0xE0
    ensures ins == Ret <==> nn == 0xEE
  {
    if nn == 0xE0 then Cls else if nn == 0xEE then Ret else Nop
  }

  /** The families whose instruction is fixed by the top nibble alone. */
  function DecodeOperands(f: bv16, x: nat, y: nat, n: nat, nn: bv8, nnn: nat): (ins: Instr)
    requires x < 16 && y < 16 && n < 16 && nnn < 0x1000
    ensures WellFormed(ins)
  {
    if f == 0x1000 then Jp(nnn)
    else if f == 0x2000 then Call(nnn)
    else if f == 0x3000 then SeByte(x, nn)
    else if f == 0x4000 then SneByte(x, nn)
    else if f == 0x5000 then SeReg(x, y)
    else if f == 0x6000 then LdByte(x, nn)
    else if f == 0x7000 then AddByte(x, nn)
    else if f == 0x9000 then SneReg(x, y)
    else if f == 0xA000 then LdI(nnn)
    else if f == 0xB000 then JpV0(nnn)
    else if f == 0xC000 then Rnd(x, nn)
    else if f == 0xD000 then Drw(x, y, n)
    else Nop
  }

  /** Family 0x8, matched on the low nibble; `8xy6` and `8xyE` ignore `y`. */
  function DecodeArith(x: nat, y: nat, n: nat): (ins: Instr)
    requires x < 16 && y < 16
    ensures WellFormed(ins)
    ensures ins.Nop? <==> 7 < n != 0xE
  {
    if n == 0x0 then LdReg(x, y)
    else if n == 0x1 then Or(x, y)
    else if n == 0x2 then And(x, y)
    else if n == 0x3 then Xor(x, y)
    else if n == 0x4 then AddReg(x, y)
    else if n == 0x5 then Sub(x, y)
    else if n == 0x6 then Shr(x)
    else if n == 0x7 then Subn(x, y)
    else if n == 0xE then Shl(x)
    else Nop
  }

  /** Family 0xE, matched on the low byte. */
  function DecodeKey(x: nat, nn: bv8): (ins: Instr)
    requires x < 16
    ensures WellFormed(ins)
    ensures ins.Nop? <==> nn != 0x9E && nn != 0xA1
  {
    if nn == 0x9E then Skp(x) else if nn == 0xA1 then Sknp(x) else Nop
  }

  /** Family 0xF, matched on the low byte. */
  function DecodeMisc(x: nat, nn: bv8): (ins: Instr)
    requires x < 16
    ensures WellFormed(ins)
    ensures ins.Nop? <==> nn !in {0x07, 0x0A, 0x15, 0x18, 0x1E, 0x29, 0x33, 0x55, 0x65}
  {
    if nn == 0x07 then LdVxDt(x)
    else if nn == 0x0A then WaitKey(x)
    else if nn == 0x15 then LdDtVx(x)
    else if nn == 0x18 then LdStVx(x)
    else if nn == 0x1E then AddI(x)
    else if nn == 0x29 then LdF(x)
    else if nn == 0x33 then LdB(x)
    else if nn == 0x55 then StoreRegs(x)
    else if nn == 0x65 then LoadRegs(x)
    else Nop
  }

  /** The instructions that only compute into a register. */
  predicate IsRegisterOp(ins: Instr) {
    ins.LdByte? || ins.AddByte? || ins.LdReg? || ins.Or? || ins.And? || ins.Xor?
    || ins.AddReg? || ins.Sub? || ins.Shr? || ins.Subn? || ins.Shl? || ins.Rnd?
  }

  /** The instructions that use `i`, memory, the screen or the timers. */
  predicate IsMemoryOp(ins: Instr) {
    ins.LdI? || ins.Drw? || ins.LdVxDt? || ins.LdDtVx? || ins.LdStVx?
    || ins.AddI? || ins.LdF? || ins.LdB? || ins.StoreRegs? || ins.LoadRegs?
  }

  /** Runs one decoded instruction on a machine whose `pc` and opcode have
      been advanced; a panic of the instruction method is a `Panicked`
      outcome. `Skp`, `Sknp` and `Nop` change nothing. */
  function Execute(m: Machine, ins: Instr, rnd: bv8): (o: Outcome)
    requires Valid(m) && WellFormed(ins)
    ensures !o.Panicked? ==> Valid(o.m)
    ensures !o.Halted?
    ensures o.Exited? <==> ins.WaitKey?
  {
    if IsRegisterOp(ins) then Running(ExecuteRegister(m, ins, rnd))
    else if IsMemoryOp(ins) then ExecuteMemory(m, ins)
    else ExecuteControl(m, ins)
  }

  /** The register instructions, which never panic. */
  function ExecuteRegister(m: Machine, ins: Instr, rnd: bv8): (r: Machine)
    requires Valid(m) && WellFormed(ins) && IsRegisterOp(ins)
    ensures Valid(r)
  {
    match ins
    case LdByte(x, nn) => Ld6xnn(m, x, nn)
    case AddByte(x, nn) => Add7xnn(m, x, nn)
    case LdReg(x, y) => Ld8xy0(m, x, y)
    case Or(x, y) => Or8xy1(m, x, y)
    case And(x, y) => And8xy2(m, x, y)
    case Xor(x, y) => Xor8xy3(m, x, y)
    case AddReg(x, y) => Add8xy4(m, x, y)
    case Sub(x, y) => Sub8xy5(m, x, y)
    case Shr(x) => Shr8xy6(m, x)
    case Subn(x, y) => Subn8xy7(m, x, y)
    case Shl(x) => Shl8x0E(m, x)
    case Rnd(x, nn) => RndCxnn(m, x, nn, rnd)
  }

  /** The memory instructions that index past the end of memory: `drw_dxyn`
      reads `memory[i + n - 1]`, `ld_fx33` writes `memory[i + 2]` and
      `ld_fx55`/`ld_fx65` touch `memory[i + x]`. */
  predicate OutOfMemory(m: Machine, ins: Instr) {
    || (ins.Drw? && ins.n > 0 && m.i + ins.n > MemorySize)
    || (ins.LdB? && m.i + 2 >= MemorySize)
    || ((ins.StoreRegs? || ins.LoadRegs?) && m.i + ins.x >= MemorySize)
  }

  /** The instructions on `i`, memory, the screen and the timers; the ones
      that index memory past its end panic. */
  function ExecuteMemory(m: Machine, ins: Instr): (o: Outcome)
    requires Valid(m) && WellFormed(ins) && IsMemoryOp(ins)
    ensures o.Running? || o == Panicked(MemoryOutOfRange)
    ensures o.Panicked? <==> OutOfMemory(m, ins)
    ensures o.Running? ==> Valid(o.m)
  {
    if OutOfMemory(m, ins) then Panicked(MemoryOutOfRange)
    else
      Running(
        match ins
        case LdI(nnn) => LdAnnn(m, nnn)
        case Drw(x, y, n) => DrwDxyn(m, x, y, n)
        case LdVxDt(x) => LdFx07(m, x)
        case LdDtVx(x) => LdFx15(m, x)
        case LdStVx(x) => LdFx18(m, x)
        case AddI(x) => AddFx1E(m, x)
        case LdF(x) => LdFx29(m, x)
        case LdB(x) => LdFx33(m, x)
        case StoreRegs(x) => LdFx55(m, x)
        case LoadRegs(x) => LdFx65(m, x))
  }

  /** Clearing the screen, jumps, calls, returns, skips, `ld_fx0a` and the
      opcodes that do nothing. */
  function ExecuteControl(m: Machine, ins: Instr): (o: Outcome)
    requires Valid(m) && WellFormed(ins) && !IsRegisterOp(ins) && !IsMemoryOp(ins)
    ensures !o.Panicked? ==> Valid(o.m)
    ensures !o.Halted?
    ensures o.Exited? <==> ins.WaitKey?
    ensures o.Panicked? ==> o.fault == StackUnderflow || o.fault == AddressUnderflow
    ensures o == Panicked(StackUnderflow) <==> ins.Ret? && |m.stack| == 0
    ensures o == Panicked(AddressUnderflow) <==> (ins.Jp? || ins.Call? || ins.JpV0?) && ins.nnn < 2
  {
    match ins
    case Cls => Running(Cls00E0(m))
    case Ret => if |m.stack| == 0 then Panicked(StackUnderflow) else Running(Ret00EE(m))
    case Jp(nnn) => if nnn < 2 then Panicked(AddressUnderflow) else Running(Jp1nnn(m, nnn))
    case Call(nnn) => if nnn < 2 then Panicked(AddressUnderflow) else Running(Call2nnn(m, nnn))
    case SeByte(x, nn) => Running(Se3xnn(m, x, nn))
    case SneByte(x, nn) => Running(Sne4xnn(m, x, nn))
    case SeReg(x, y) => Running(Se5xy0(m, x, y))
    case SneReg(x, y) => Running(Sne9xy0(m, x, y))
    case JpV0(nnn) => if nnn < 2 then Panicked(AddressUnderflow) else Running(JpBnnn(m, nnn))
    case Skp(_) => Running(m)
    case Sknp(_) => Running(m)
    case WaitKey(_) => Exited(m)
    case Nop => Running(m)
  }

  /** `self.pc += 2` and `set_from_u8(memory[pc], memory[pc + 1])`. */
  function Fetch(m: Machine): (r: Machine)
    requires Valid(m) && m.pc + 3 < MemorySize
    ensures Valid(r) && r.pc == m.pc + 2
    ensures r.opcode as int == m.memory[m.pc + 2] as int * 256 + m.memory[m.pc + 3] as int
    ensures r == m.(pc := r.pc, opcode := r.opcode)
  {
    m.(pc := m.pc + 2, opcode := Word(m.memory[m.pc + 2], m.memory[m.pc + 3]))
  }

  /** One pass of `run`'s loop without its SDL code: the loop guard, the
      increment and fetch, and the dispatch (src/chip8/mod.rs:141, 190-243).
      `rnd` is the byte the random generator would return. */
  function Step(m: Machine, rnd: bv8): (o: Outcome)
    requires Valid(m)
    ensures o.Halted? <==> m.pc >= MemorySize
    ensures o.Halted? ==> o.m == m
    ensures o == Panicked(FetchOutOfRange) <==> m.pc < MemorySize <= m.pc + 3
    ensures !o.Panicked? ==> Valid(o.m)
  {
    if m.pc >= MemorySize then Halted(m)
    else if m.pc + 3 >= MemorySize then Panicked(FetchOutOfRange)
    else
      var f := Fetch(m);
      Execute(f, Decode(f.opcode), rnd)
  }
}
