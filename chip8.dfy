/** The `Chip8` struct of src/chip8/mod.rs and its methods, updating the
    machine in place: `memory` and `v` are arrays written element by
    element, and the opcode, stack, screen and timers are the objects of
    their own modules. `Step` is the body of `run`'s loop: it fetches the
    next word into `opcode`, decodes it once and hands the operands to the
    instruction methods, which the Rust methods read from `self.opcode`
    instead. Every method is proved to leave the machine in the state the
    matching function of Chip8Semantics computes from the old state; the
    properties of those functions are proved in Chip8Semantics, Chip8Draw
    and Chip8Laws. */
module Chip8Interpreter {
  import opened Chip8Bytes
  import opened Chip8Opcode
  import opened Chip8Screen
  import opened Chip8Stack
  import opened Chip8Timers
  import opened Chip8Draw
  import opened Chip8Semantics

  /** How one pass of `run`'s loop ends. */
  datatype Status =
    | Continue   // the loop goes on
    | Halt       // `pc` has left memory and the loop stops
    | Exit       // `ld_fx0a` exits the process

  /** The outcome of Chip8Semantics that a status and a final state stand for. */
  function Report(s: Status, m: Machine): Outcome {
    match s
    case Continue => Running(m)
    case Halt => Halted(m)
    case Exit => Exited(m)
  }

  class Chip8 {
    const memory: array<bv8>
    var pc: nat
    const opcode: Opcode
    const stack: Stack
    const v: array<bv8>
    const screen: Screen
    var i: nat
    const timers: Timers
    var needRedraw: bool

    /** The array sizes, and the two arrays are different arrays. */
    ghost predicate Valid()
      reads this, screen
    {
      memory.Length == MemorySize && v.Length == RegisterCount && memory != v && screen.Valid()
    }

    /** The state as a value of Chip8Semantics, which is valid there. */
    ghost function Abs(): (m: Machine)
      reads this, memory, v, opcode, stack, screen, timers
    {
      Machine(memory[..], v[..], pc, i, opcode.lr, stack.stack, screen.vram, timers.delay, timers.sound, needRedraw)
    }

    /** `Chip8::new`, with the bytes the font loader leaves below 0x200 as
        `reserved`. */
    constructor (reserved: seq<bv8>)
      requires |reserved| == ProgramStart
      ensures Valid() && Abs() == New(reserved)
      ensures fresh(memory) && fresh(v) && fresh(opcode) && fresh(stack) && fresh(screen) && fresh(timers)
    {
      memory := new bv8[MemorySize]((a: nat) => if a < |reserved| then reserved[a] else 0);
      pc := ProgramStart;
      opcode := new Opcode();
      stack := new Stack();
      v := new bv8[RegisterCount](_ => 0);
      screen := new Screen();
      i := 0;
      timers := new Timers();
      needRedraw := false;
      new;
      assert memory[..] == New(reserved).memory;
      assert v[..] == New(reserved).v;
    }

    /** `load_from_vec`: `copy_from_slice` into `memory[0x200..]`. */
    method LoadFromVec(program: seq<bv8>)
      requires Valid() && |program| == MemorySize - ProgramStart
      modifies memory
      ensures Valid() && Abs() == Chip8Semantics.LoadFromVec(old(Abs()), program)
    {
      forall a | ProgramStart <= a < MemorySize {
        memory[a] := program[a - ProgramStart];
      }
      assert memory[..] == old(memory[..ProgramStart]) + program;
    }

    // -------------------------------------------------------------------
    // The instruction methods. The Rust methods take their operands from
    // `self.opcode`; here the dispatch extracts them once, with `Decode`,
    // and hands them over, so `x` and `y` are register indices and `nn`,
    // `nnn` and `n` the immediates of the current opcode.

    /** `cls_00e0`. */
    method Cls()
      requires Valid()
      modifies this, screen
      ensures Valid() && Abs() == Cls00E0(old(Abs()))
    {
      screen.Clear();
      needRedraw := true;
    }

    /** `ret_00ee`: `unwrap` on the popped address panics on an empty
        stack. */
    method Ret()
      requires Valid() && stack.Entries() != []
      modifies this, stack
      ensures Valid() && Abs() == Ret00EE(old(Abs()))
    {
      pc := stack.Ret();
    }

    /** `jp_1nnn`: `nnn - 2` on `usize` panics below 2. */
    method Jp(nnn: nat)
      requires Valid() && nnn >= 2
      modifies this
      ensures Valid() && Abs() == Jp1nnn(old(Abs()), nnn)
    {
      pc := nnn - 2;
    }

    /** `call_2nnn`. */
    method Call(nnn: nat)
      requires Valid() && nnn >= 2
      modifies this, stack
      ensures Valid() && Abs() == Call2nnn(old(Abs()), nnn)
    {
      stack.Push(pc);
      pc := nnn - 2;
    }

    /** `se_3xnn`. */
    method Se3xnn(x: nat, nn: bv8)
      requires Valid() && x < RegisterCount
      modifies this
      ensures Valid() && Abs() == Chip8Semantics.Se3xnn(old(Abs()), x, nn)
    {
      if v[x] == nn {
        pc := pc + 2;
      }
    }

    /** `sne_4xnn`. */
    method Sne4xnn(x: nat, nn: bv8)
      requires Valid() && x < RegisterCount
      modifies this
      ensures Valid() && Abs() == Chip8Semantics.Sne4xnn(old(Abs()), x, nn)
    {
      if v[x] != nn {
        pc := pc + 2;
      }
    }

    /** `se_5xy0`. */
    method Se5xy0(x: nat, y: nat)
      requires Valid() && x < RegisterCount && y < RegisterCount
      modifies this
      ensures Valid() && Abs() == Chip8Semantics.Se5xy0(old(Abs()), x, y)
    {
      if v[x] == v[y] {
        pc := pc + 2;
      }
    }

    /** `ld_6xnn`. */
    method Ld6xnn(x: nat, nn: bv8)
      requires Valid() && x < RegisterCount
      modifies v
      ensures Valid() && Abs() == Chip8Semantics.Ld6xnn(old(Abs()), x, nn)
    {
      v[x] := nn;
    }

    /** `add_7xnn`. */
    method Add7xnn(x: nat, nn: bv8)
      requires Valid() && x < RegisterCount
      modifies v
      ensures Valid() && Abs() == Chip8Semantics.Add7xnn(old(Abs()), x, nn)
    {
      v[x] := WrappingAdd(v[x], nn);
    }

    /** `ld_8xy0`. */
    method Ld8xy0(x: nat, y: nat)
      requires Valid() && x < RegisterCount && y < RegisterCount
      modifies v
      ensures Valid() && Abs() == Chip8Semantics.Ld8xy0(old(Abs()), x, y)
    {
      v[x] := v[y];
    }

    /** `or_8xy1`. */
    method Or8xy1(x: nat, y: nat)
      requires Valid() && x < RegisterCount && y < RegisterCount
      modifies v
      ensures Valid() && Abs() == Chip8Semantics.Or8xy1(old(Abs()), x, y)
    {
      v[x] := v[x] | v[y];
    }

    /** `and_8xy2`. */
    method And8xy2(x: nat, y: nat)
      requires Valid() && x < RegisterCount && y < RegisterCount
      modifies v
      ensures Valid() && Abs() == Chip8Semantics.And8xy2(old(Abs()), x, y)
    {
      v[x] := v[x] & v[y];
    }

    /** `xor_8xy3`. */
    method Xor8xy3(x: nat, y: nat)
      requires Valid() && x < RegisterCount && y < RegisterCount
      modifies v
      ensures Valid() && Abs() == Chip8Semantics.Xor8xy3(old(Abs()), x, y)
    {
      v[x] := v[x] ^ v[y];
    }

    /** `add_8xy4`: the flag is written first, then the low byte of the
        sum, so with `x` = 0xF the sum wins. */
    method Add8xy4(x: nat, y: nat)
      requires Valid() && x < RegisterCount && y < RegisterCount
      modifies v
      ensures Valid() && Abs() == Chip8Semantics.Add8xy4(old(Abs()), x, y)
    {
      var vx := v[x];
      var vy := v[y];
      v[Flag] := Carry(vx, vy);
      v[x] := WrappingAdd(vx, vy);
    }

    /** `sub_8xy5`. */
    method Sub8xy5(x: nat, y: nat)
      requires Valid() && x < RegisterCount && y < RegisterCount
      modifies v
      ensures Valid() && Abs() == Chip8Semantics.Sub8xy5(old(Abs()), x, y)
    {
      var vx := v[x];
      var vy := v[y];
      v[Flag] := NoBorrow(vx, vy);
      v[x] := WrappingSub(vx, vy);
    }

    /** `shr_8xy6`: the shift re-reads `v[x]` after VF is written. */
    method Shr8xy6(x: nat)
      requires Valid() && x < RegisterCount
      modifies v
      ensures Valid() && Abs() == Chip8Semantics.Shr8xy6(old(Abs()), x)
    {
      v[Flag] := v[x] & 1;
      v[x] := v[x] >> 1;
    }

    /** `subn_8xy7`. */
    method Subn8xy7(x: nat, y: nat)
      requires Valid() && x < RegisterCount && y < RegisterCount
      modifies v
      ensures Valid() && Abs() == Chip8Semantics.Subn8xy7(old(Abs()), x, y)
    {
      var vx := v[x];
      var vy := v[y];
      v[Flag] := NoBorrow(vy, vx);
      v[x] := WrappingSub(vy, vx);
    }

    /** `shl_8x0e`: VF gets `(v[x] & 0x1) >> 7`, and the shift re-reads
        `v[x]`. */
    method Shl8x0E(x: nat)
      requires Valid() && x < RegisterCount
      modifies v
      ensures Valid() && Abs() == Chip8Semantics.Shl8x0E(old(Abs()), x)
    {
      v[Flag] := (v[x] & 1) >> 7;
      v[x] := v[x] << 1;
    }

    /** `sne_9xy0`. */
    method Sne9xy0(x: nat, y: nat)
      requires Valid() && x < RegisterCount && y < RegisterCount
      modifies this
      ensures Valid() && Abs() == Chip8Semantics.Sne9xy0(old(Abs()), x, y)
    {
      if v[x] != v[y] {
        pc := pc + 2;
      }
    }

    /** `ld_annn`. */
    method LdAnnn(nnn: nat)
      requires Valid()
      modifies this
      ensures Valid() && Abs() == Chip8Semantics.LdAnnn(old(Abs()), nnn)
    {
      i := nnn;
    }

    /** `jp_bnnn`: `nnn - 2` panics below 2, as in `jp_1nnn`. */
    method JpBnnn(nnn: nat)
      requires Valid() && nnn >= 2
      modifies this
      ensures Valid() && Abs() == Chip8Semantics.JpBnnn(old(Abs()), nnn)
    {
      pc := (nnn - 2) + v[0] as nat;
    }

    /** `rnd_cxnn`, with the byte the random generator yields as `rnd`. */
    method RndCxnn(x: nat, nn: bv8, rnd: bv8)
      requires Valid() && x < RegisterCount
      modifies v
      ensures Valid() && Abs() == Chip8Semantics.RndCxnn(old(Abs()), x, nn, rnd)
    {
      v[x] := rnd & nn;
    }

    /** `ld_fx07`. */
    method LdFx07(x: nat)
      requires Valid() && x < RegisterCount
      modifies v
      ensures Valid() && Abs() == Chip8Semantics.LdFx07(old(Abs()), x)
    {
      v[x] := timers.Delay();
    }

    /** `ld_fx15`. */
    method LdFx15(x: nat)
      requires Valid() && x < RegisterCount
      modifies timers
      ensures Valid() && Abs() == Chip8Semantics.LdFx15(old(Abs()), x)
    {
      timers.SetDelay(v[x]);
    }

    /** `ld_fx18`. */
    method LdFx18(x: nat)
      requires Valid() && x < RegisterCount
      modifies timers
      ensures Valid() && Abs() == Chip8Semantics.LdFx18(old(Abs()), x)
    {
      timers.SetSound(v[x]);
    }

    /** `add_fx1e`. */
    method AddFx1E(x: nat)
      requires Valid() && x < RegisterCount
      modifies this
      ensures Valid() && Abs() == Chip8Semantics.AddFx1E(old(Abs()), x)
    {
      i := i + v[x] as nat;
    }

    /** `ld_fx29`. */
    method LdFx29(x: nat)
      requires Valid() && x < RegisterCount
      modifies this
      ensures Valid() && Abs() == Chip8Semantics.LdFx29(old(Abs()), x)
    {
      i := v[x] as nat * 5;
    }

    /** `ld_fx33`: the digits `vx / 100`, `(vx / 10) % 10` and `vx % 10`
        go to `memory[i]`, `memory[i + 1]` and `memory[i + 2]`; an index
        past the end of memory panics. */
    method LdFx33(x: nat)
      requires Valid() && x < RegisterCount && i + 2 < MemorySize
      modifies memory
      ensures Valid() && Abs() == Chip8Semantics.LdFx33(old(Abs()), x)
    {
      var d := Bcd(v[x]);
      memory[i] := d.0;
      memory[i + 1] := d.1;
      memory[i + 2] := d.2;
    }

    /** `ld_fx55`: the loop copies `v[k]` to `memory[i + k]` for `k` from 0
        to `x`; an index past the end of memory panics. */
    method LdFx55(x: nat)
      requires Valid() && x < RegisterCount && i + x < MemorySize
      modifies memory
      ensures Valid() && Abs() == Chip8Semantics.LdFx55(old(Abs()), x)
    {
      for k := 0 to x + 1
        invariant forall a :: 0 <= a < MemorySize ==> memory[a] == if i <= a < i + k then v[a - i] else old(memory[a])
      {
        memory[i + k] := v[k];
      }
      assert memory[..] == old(memory[..])[..i] + v[..x + 1] + old(memory[..])[i + x + 1..];
    }

    /** `ld_fx65`: the loop copies `memory[i + k]` to `v[k]` for `k` from 0
        to `x`; an index past the end of memory panics. */
    method LdFx65(x: nat)
      requires Valid() && x < RegisterCount && i + x < MemorySize
      modifies v
      ensures Valid() && Abs() == Chip8Semantics.LdFx65(old(Abs()), x)
    {
      for k := 0 to x + 1
        invariant forall j :: 0 <= j < RegisterCount ==> v[j] == if j < k then memory[i + j] else old(v[j])
      {
        v[k] := memory[i + k];
      }
      assert v[..] == memory[i..i + x + 1] + old(v[..])[x + 1..];
    }
    /** `drw_dxyn`: VF is cleared, the sprite loop runs, and a redraw is
        requested. The loop reads `memory[i + line]` for every line, which
        panics past the end of memory once a sprite has a line; memory does
        not change while the loop runs, so the `n` sprite bytes are read
        here, before it. */
    method Drw(x: nat, y: nat, n: nat)
      requires Valid() && x < RegisterCount && y < RegisterCount && n < 16
      requires n == 0 || i + n <= MemorySize
      modifies this, v, screen
      ensures Valid() && Abs() == DrwDxyn(old(Abs()), x, y, n)
    {
      var sprite := if n == 0 then [] else memory[i..i + n];
      assert sprite == Sprite(Abs(), n);
      DrawSprite(x, y, sprite);
      needRedraw := true;
    }

    /** The screen holds the grid of `c` and the registers are `regs` with
        VF set to the collision flag of `c`: the state the sprite loop of
        `drw_dxyn` keeps in step with the canvas of the model. */
    ghost predicate Shows(c: Canvas, regs: seq<bv8>)
      requires |regs| == RegisterCount
      reads v, screen
    {
      screen.vram == c.grid && v[..] == regs[Flag := FlagByte(c.collided)]
    }

    /** The outer loop of `drw_dxyn`: VF starts at 0, and for every line of
        the sprite the row is computed from `v[y]`, re-read while VF
        changes. */
    method DrawSprite(x: nat, y: nat, sprite: seq<bv8>)
      requires Valid() && x < RegisterCount && y < RegisterCount
      modifies v, screen
      ensures Valid()
      ensures var c := Draw(old(screen.vram), old(v[..]), x, y, sprite);
        screen.vram == c.grid && v[..] == old(v[..])[Flag := FlagByte(c.collided)]
    {
      ghost var regs := v[..];
      ghost var start := Canvas(screen.vram, false);
      v[Flag] := 0;
      for line := 0 to |sprite|
        invariant Valid() && Shows(DrawRows(start, regs, x, y, sprite, line), regs)
      {
        DrawRow(x, y, sprite, line, regs, start);
      }
    }

    /** The body of the outer loop of `drw_dxyn`: the row of sprite line
        `line` is computed from `v[y]`, then the line is drawn on it. */
    method DrawRow(x: nat, y: nat, sprite: seq<bv8>, line: nat, ghost regs: seq<bv8>, ghost start: Canvas)
      requires Valid() && x < RegisterCount && y < RegisterCount && |regs| == RegisterCount
      requires IsGrid(start.grid) && line < |sprite|
      requires Shows(DrawRows(start, regs, x, y, sprite, line), regs)
      modifies v, screen
      ensures Valid() && Shows(DrawRows(start, regs, x, y, sprite, line + 1), regs)
    {
      ghost var c := DrawRows(start, regs, x, y, sprite, line);
      RowsNext(start, regs, x, y, sprite, line);
      assert v[y] == Reg(regs, y, c.collided);
      var row := RowOf(v[y], line);
      DrawLine(x, row, sprite[line], regs, c);
    }

    /** The inner loop of `drw_dxyn` over the 8 bits of one sprite line, on
        screen row `row`: the column is computed from `v[x]`, re-read while
        VF changes, VF collects `color & pixel` and `set_xy` XORs the colour
        onto the pixel. */
    method DrawLine(x: nat, row: nat, spriteLine: bv8, ghost regs: seq<bv8>, ghost start: Canvas)
      requires Valid() && x < RegisterCount && row < Height && |regs| == RegisterCount
      requires IsGrid(start.grid) && Shows(start, regs)
      modifies v, screen
      ensures Valid() && Shows(DrawBits(start, regs, x, row, spriteLine, LineWidth()), regs)
    {
      for bit := 0 to LineWidth()
        invariant Valid() && Shows(DrawBits(start, regs, x, row, spriteLine, bit), regs)
      {
        ghost var c := DrawBits(start, regs, x, row, spriteLine, bit);
        assert v[x] == Reg(regs, x, c.collided);
        var col := ColOf(v[x], bit);
        var color := SpriteBit(spriteLine, bit);
        DrawPixel(col, row, color, regs, c);
        BitsNext(start, regs, x, row, spriteLine, bit);
      }
    }

    /** The body of the inner loop of `drw_dxyn`: VF collects `color &
        pixel`, then `set_xy` XORs the colour onto the pixel. */
    method DrawPixel(col: nat, row: nat, color: bool, ghost regs: seq<bv8>, ghost c: Canvas)
      requires Valid() && col < Width && row < Height && |regs| == RegisterCount
      requires Shows(c, regs)
      modifies v, screen
      ensures Valid() && Shows(Plot(c, col, row, color), regs)
    {
      var pixel := screen.vram[row][col];
      FlagOr(c.collided, color && pixel);
      v[Flag] := v[Flag] | FlagByte(color && pixel);
      screen.SetXY(col, row, color);
    }

    // -------------------------------------------------------------------
    // The body of `run`'s loop

    /** One pass of `run`'s loop without its SDL code: the loop stops once
        `pc` has left memory; otherwise `pc` advances by 2, the word at the
        new `pc` is fetched into `opcode` and its instruction runs. The
        caller must rule out the panics of the pass, which Chip8Semantics
        lists as `Panicked` outcomes. */
    method Step(rnd: bv8) returns (status: Status)
      requires Valid() && !Chip8Semantics.Step(Abs(), rnd).Panicked?
      modifies this, memory, v, opcode, stack, screen, timers
      ensures Valid() && Chip8Semantics.Step(old(Abs()), rnd) == Report(status, Abs())
    {
      if pc >= memory.Length {
        return Halt;
      }
      pc := pc + 2;
      opcode.SetFromU8(memory[pc], memory[pc + 1]);
      assert Abs() == Fetch(old(Abs()));
      status := Execute(Decode(opcode.Code()), rnd);
    }

    /** The `match` of `run` on the fetched opcode, once decoded. */
    method Execute(ins: Instr, rnd: bv8) returns (status: Status)
      requires Valid() && WellFormed(ins) && !Chip8Semantics.Execute(Abs(), ins, rnd).Panicked?
      modifies this, memory, v, stack, screen, timers
      ensures Valid() && Chip8Semantics.Execute(old(Abs()), ins, rnd) == Report(status, Abs())
    {
      status := Continue;
      if IsRegisterOp(ins) {
        ExecuteRegister(ins, rnd);
      } else if IsMemoryOp(ins) {
        ExecuteMemory(ins);
      } else {
        status := ExecuteControl(ins);
      }
    }

    /** The arms of the `match` that only compute into a register. */
    method ExecuteRegister(ins: Instr, rnd: bv8)
      requires Valid() && WellFormed(ins) && IsRegisterOp(ins)
      modifies v
      ensures Valid() && Abs() == Chip8Semantics.ExecuteRegister(old(Abs()), ins, rnd)
    {
      match ins
      case LdByte(x, nn) => Ld6xnn(x, nn);
      case AddByte(x, nn) => Add7xnn(x, nn);
      case LdReg(x, y) => Ld8xy0(x, y);
      case Or(x, y) => Or8xy1(x, y);
      case And(x, y) => And8xy2(x, y);
      case Xor(x, y) => Xor8xy3(x, y);
      case AddReg(x, y) => Add8xy4(x, y);
      case Sub(x, y) => Sub8xy5(x, y);
      case Shr(x) => Shr8xy6(x);
      case Subn(x, y) => Subn8xy7(x, y);
      case Shl(x) => Shl8x0E(x);
      case Rnd(x, nn) => RndCxnn(x, nn, rnd);
    }

    /** The arms of the `match` on `i`, memory, the screen and the timers. */
    method ExecuteMemory(ins: Instr)
      requires Valid() && WellFormed(ins) && IsMemoryOp(ins)
      requires !OutOfMemory(Abs(), ins)
      modifies this, memory, v, screen, timers
      ensures Valid() && Chip8Semantics.ExecuteMemory(old(Abs()), ins) == Running(Abs())
    {
      match ins
      case LdI(nnn) => LdAnnn(nnn);
      case Drw(x, y, n) => Drw(x, y, n);
      case LdVxDt(x) => LdFx07(x);
      case LdDtVx(x) => LdFx15(x);
      case LdStVx(x) => LdFx18(x);
      case AddI(x) => AddFx1E(x);
      case LdF(x) => LdFx29(x);
      case LdB(x) => LdFx33(x);
      case StoreRegs(x) => LdFx55(x);
      case LoadRegs(x) => LdFx65(x);
    }

    /** The other arms of the `match`: clearing the screen, jumps, calls,
        returns, skips, `ld_fx0a`, the empty bodies of `skp_ex9e` and
        `sknp_exa1`, and the `_ => ()` arms. */
    method ExecuteControl(ins: Instr) returns (status: Status)
      requires Valid() && WellFormed(ins) && !IsRegisterOp(ins) && !IsMemoryOp(ins)
      requires !Chip8Semantics.ExecuteControl(Abs(), ins).Panicked?
      modifies this, stack, screen
      ensures Valid() && Chip8Semantics.ExecuteControl(old(Abs()), ins) == Report(status, Abs())
    {
      status := Continue;
      match ins
      case Cls => Cls();
      case Ret => Ret();
      case Jp(nnn) => Jp(nnn);
      case Call(nnn) => Call(nnn);
      case SeByte(x, nn) => Se3xnn(x, nn);
      case SneByte(x, nn) => Sne4xnn(x, nn);
      case SeReg(x, y) => Se5xy0(x, y);
      case SneReg(x, y) => Sne9xy0(x, y);
      case JpV0(nnn) => JpBnnn(nnn);
      case Skp(_) =>
      case Sknp(_) =>
      case WaitKey(_) => status := Exit;
      case Nop =>
    }
  }

  /** ORing two VF values is the flag of either collision. */
  lemma FlagOr(a: bool, b: bool)
    ensures FlagByte(a) | FlagByte(b) == FlagByte(a || b)
  {
  }
}
