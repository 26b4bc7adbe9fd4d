# CHIP-8 interpreter core in Dafny

This project models the core of a CHIP-8 interpreter written in Rust
(`src/chip8/`). It covers:

- the `Chip8` machine: 4 KiB of memory, sixteen 8-bit registers `V0`–`VF`,
  the index register `I`, the program counter, the return stack, the two
  timers and a 64×32 monochrome framebuffer;
- `new` and `load_from_vec`, which build and load the machine;
- the fetch–decode–dispatch body of `run`'s loop;
- every instruction method, `cls_00e0` to `ld_fx65`, including the
  sprite-drawing loop of `drw_dxyn`;
- the helper objects `Opcode`, `Screen`, `Stack` and `Timers`, and the
  hexadecimal keypad mapping of `hex_to_key.rs`.

The model is in two layers.

- `Chip8Semantics` (semantics.dfy) states the machine as a value. It has one
  function per instruction method, the decoder and one step of `run`. Every
  Rust panic is a `requires` of the instruction function and a `Panicked`
  outcome of `Execute` and `Step`:
  - an index past the end of memory;
  - `nnn - 2` below zero on `usize`, in a debug build;
  - `unwrap` on an empty stack.
- `Chip8Interpreter` (chip8.dfy) is the `Chip8` struct as a Dafny class.
  - `memory` and `v` are arrays written element by element.
  - `opcode`, `stack`, `screen` and `timers` are objects of the classes in
    opcode.dfy, stack.dfy, screen.dfy and timers.dfy, updated in place.
  - Every method is proved to leave the object in the state the matching
    `Chip8Semantics` function computes from the old state.
  - `Drw` runs the nested pixel loop of `drw_dxyn` on the arrays and the
    screen object. It is proved equal to `Chip8Draw.Draw`, the recursive
    definition of that loop.

The properties live in three places:

- `Chip8Laws` (laws.dfy) relates instructions to each other and to the fetch
  loop. It covers where jumps and calls lead, which instruction pairs undo or
  complement each other, and what a draw does to the screen and to VF.
- `Chip8Draw` (draw.dfy) proves the drawing loop's properties.
- `Chip8Encode` (encode.dfy) is an independent encoder. Its round-trip lemma
  pins down the decoder.

Integer widths follow the Rust code:

- register and memory bytes are `bv8`, and the opcode is `bv16`;
- `wrapping_add` and `wrapping_sub` are stated modulo 256;
- `usize` values (`pc`, `I`, stack entries) are unbounded naturals.

Where the code and its doc comments disagree, the model follows the code.

- **Program counter.** `run` adds 2 to `pc` *before* it fetches. So `jp_1nnn`
  and `call_2nnn` store `nnn - 2`, and the first instruction executed is the
  word at 0x202, not 0x200 (`Chip8Laws.FirstFetch`). `call_2nnn` pushes the
  address of the call itself, so `ret_00ee` lands back on the call and the
  next step runs the instruction after it. The tests expect other values:
  - src/chip8/tests.rs:86-93 and 95-107 expect `pc == 0x0123` after `jp`
    and `call` to 0x123;
  - src/chip8/tests.rs:306-317 expects `pc == v0 + 0x123` after `jp V0`.
  The code leaves `pc` two less in each case, and the model follows the code.
- **`shl_8x0e`.** It computes VF as `(vx & 0x1) >> 7`, which is always 0, not
  the most significant bit the doc comment describes. The test at
  src/chip8/tests.rs:269-278 expects VF = 1 for 0xFF. That test calls
  `shl_8xye`, a name the interpreter does not define.
- **`add_8xy4`, `sub_8xy5` and `subn_8xy7` with `x = 0xF`.** They write VF
  first and then `v[x]`, so the result overwrites the flag.
- **`shr_8xy6` and `shl_8x0e` with `x = 0xF`.** They re-read `v[x]` after
  writing VF, so the shift applies to the new flag.
- **`drw_dxyn`.** It re-reads `v[x]` and `v[y]` inside its loop while it
  changes VF. With `x` or `y` equal to 0xF the coordinates follow the flag.
  `Chip8Draw.DrawRows` and `Chip8Draw.DrawBits` keep this behaviour.
- **`ld_fx0a` and `exit(-1)`.** `ld_fx0a` ends the process with `exit(-1)`.
  In the model that is the `Exited` outcome.
- **`skp_ex9e` and `sknp_exa1`.** Both are empty methods, so they do nothing.

## Model

| member | source | states |
|---|---|---|
| Chip8Semantics.New | src/chip8/mod.rs:79-107 | a new machine has `pc` = 0x200, zero registers, `I` = 0, an empty stack, a blank screen, zero timers, no pending redraw, and zero memory from 0x200 upwards; the bytes below 0x200 are those given for the font area |
| Chip8Semantics.LoadFromVec | src/chip8/mod.rs:111-113 | loading copies the program into memory from 0x200 to the end, keeps the bytes below 0x200 and changes nothing else; the program must fill that range exactly |
| Chip8Semantics.Cls00E0 | src/chip8/mod.rs:250-253 | every pixel is off afterwards and a redraw is requested; nothing else changes |
| Chip8Semantics.Ret00EE | src/chip8/mod.rs:258-266 | `pc` becomes the newest stack entry and that entry is removed; the stack must be non-empty, since `unwrap` panics otherwise |
| Chip8Semantics.Jp1nnn | src/chip8/mod.rs:270-272 | `pc + 2 == nnn`, nothing else changes; `nnn >= 2`, since `nnn - 2` on `usize` panics otherwise |
| Chip8Semantics.Call2nnn | src/chip8/mod.rs:277-282 | the old `pc` is pushed on top of the unchanged older entries, and `pc + 2 == nnn` |
| Chip8Semantics.Se3xnn | src/chip8/mod.rs:287-295 | `pc` advances by 2 if and only if `v[x] == nn`, and otherwise stays the same |
| Chip8Semantics.Sne4xnn | src/chip8/mod.rs:300-308 | `pc` advances by 2 if and only if `v[x] != nn` |
| Chip8Semantics.Se5xy0 | src/chip8/mod.rs:313-322 | `pc` advances by 2 if and only if `v[x] == v[y]` |
| Chip8Semantics.Ld6xnn | src/chip8/mod.rs:326-330 | `v[x] == nn`, and every other register is unchanged |
| Chip8Semantics.Add7xnn | src/chip8/mod.rs:335-341 | `v[x]` becomes `(v[x] + nn) mod 256`; VF and the other registers are unchanged, so there is no carry |
| Chip8Semantics.Ld8xy0 | src/chip8/mod.rs:345-351 | `v[x]` becomes the old `v[y]`; the other registers are unchanged |
| Chip8Semantics.Or8xy1 | src/chip8/mod.rs:358-364 | every bit of the new `v[x]` is set exactly when it is set in the old `v[x]` or in `v[y]`; the other registers are unchanged |
| Chip8Semantics.And8xy2 | src/chip8/mod.rs:371-377 | every bit of the new `v[x]` is set exactly when it is set in both the old `v[x]` and `v[y]`; the other registers are unchanged |
| Chip8Semantics.Xor8xy3 | src/chip8/mod.rs:384-390 | every bit of the new `v[x]` is set exactly when the old `v[x]` and `v[y]` differ in it; the other registers are unchanged |
| Chip8Semantics.Add8xy4 | src/chip8/mod.rs:395-406 | `v[x] = (v[x] + v[y]) mod 256`; for `x != F`, VF is 1 exactly when the sum exceeds 255, and 0 otherwise; the other registers are unchanged |
| Chip8Semantics.Sub8xy5 | src/chip8/mod.rs:411-420 | `v[x] = (v[x] - v[y]) mod 256`; for `x != F`, VF is 1 exactly when `v[x] > v[y]` |
| Chip8Semantics.Shr8xy6 | src/chip8/mod.rs:425-432 | for `x != F`, `v[x]` is halved and VF holds the bit shifted out; for `x = F`, VF ends 0 |
| Chip8Semantics.Subn8xy7 | src/chip8/mod.rs:437-446 | `v[x] = (v[y] - v[x]) mod 256`; for `x != F`, VF is 1 exactly when `v[y] > v[x]` |
| Chip8Semantics.Shl8x0E | src/chip8/mod.rs:451-458 | for `x != F`, `v[x]` is doubled mod 256; VF is always 0, as the code computes `(vx & 1) >> 7` |
| Chip8Semantics.Sne9xy0 | src/chip8/mod.rs:463-472 | `pc` advances by 2 if and only if `v[x] != v[y]` |
| Chip8Semantics.LdAnnn | src/chip8/mod.rs:476-480 | `I == nnn`, nothing else changes |
| Chip8Semantics.JpBnnn | src/chip8/mod.rs:484-489 | `pc + 2 == nnn + v[0]`, nothing else changes |
| Chip8Semantics.RndCxnn | src/chip8/mod.rs:495-501 | `v[x] == rnd & nn` for the byte `rnd` the generator returns, so it has no bit outside `nn` and is at most `nn`; the other registers are unchanged |
| Chip8Semantics.Sprite | src/chip8/mod.rs:513-530 | the sprite is the `n` bytes of memory from `I` |
| Chip8Semantics.DrwDxyn | src/chip8/mod.rs:513-530 | VF ends 0 or 1, no other register changes, a redraw is requested, and only the screen and VF change |
| Chip8Semantics.LdFx07 | src/chip8/mod.rs:545-549 | `v[x]` becomes the delay timer; the other registers are unchanged |
| Chip8Semantics.LdFx15 | src/chip8/mod.rs:561-566 | the delay timer becomes `v[x]`, nothing else changes |
| Chip8Semantics.LdFx18 | src/chip8/mod.rs:570-575 | the sound timer becomes `v[x]`, nothing else changes |
| Chip8Semantics.AddFx1E | src/chip8/mod.rs:579-584 | `I` grows by `v[x]`, with no wrap-around on `usize` and no flag |
| Chip8Semantics.LdFx29 | src/chip8/mod.rs:590-595 | `I = v[x] * 5`: the start of a 5-byte glyph, inside memory |
| Chip8Semantics.LdFx33 | src/chip8/mod.rs:601-609 | memory at `I`, `I+1` and `I+2` holds three decimal digits whose value is `v[x]`; all other memory is unchanged |
| Chip8Semantics.Bcd | src/chip8/mod.rs:601-609 | the hundreds, tens and units of a byte are each at most 9 and recombine to the byte |
| Chip8Semantics.LdFx55 | src/chip8/mod.rs:614-619 | `memory[I + j] = v[j]` for `j <= x`; the rest of memory is unchanged |
| Chip8Semantics.LdFx65 | src/chip8/mod.rs:624-629 | `v[j] = memory[I + j]` for `j <= x`; the registers above `x` are unchanged |
| Chip8Semantics.Decode | src/chip8/mod.rs:195-243 | every opcode decodes to an instruction with in-range operands |
| Chip8Semantics.DecodeSystem | src/chip8/mod.rs:196-200 | in family 0, the low byte alone selects: `cls` exactly for low byte 0xE0 and `ret` exactly for low byte 0xEE (so 0x01E0 is `cls` too), otherwise nothing |
| Chip8Semantics.DecodeArith | src/chip8/mod.rs:208-219 | family 8 does nothing exactly for the low nibbles the match does not list (8–0xD and 0xF) |
| Chip8Semantics.DecodeKey | src/chip8/mod.rs:225-229 | family E does nothing unless the low byte is 0x9E or 0xA1 |
| Chip8Semantics.DecodeMisc | src/chip8/mod.rs:230-241 | family F does nothing unless the low byte is one of the nine the match lists |
| Chip8Semantics.Execute | src/chip8/mod.rs:195-243 | dispatch never halts the loop, exits exactly on `ld_fx0a`, and leaves a valid machine unless it panics |
| Chip8Semantics.ExecuteRegister | src/chip8/mod.rs:206-223 | the register instructions of the dispatch never panic and leave a valid machine |
| Chip8Semantics.ExecuteMemory | src/chip8/mod.rs:221-241 | a memory instruction panics, with a memory index out of range, exactly when it would touch memory past the end: `drw` with `n > 0` and `I + n > 4096`, `ld_fx33` with `I + 2 >= 4096`, `ld_fx55`/`ld_fx65` with `I + x >= 4096`; otherwise it runs |
| Chip8Semantics.OutOfMemory | src/chip8/mod.rs:513-629 | the index bounds of `drw_dxyn`, `ld_fx33`, `ld_fx55` and `ld_fx65`, as `ExecuteMemory` uses them |
| Chip8Semantics.ExecuteControl | src/chip8/mod.rs:195-243 | a control-flow instruction panics with a stack underflow exactly for `ret` on an empty stack, and with an address underflow exactly for `jp`, `call` or `jp V0` with `nnn < 2`; it exits exactly on `ld_fx0a` |
| Chip8Semantics.Fetch | src/chip8/mod.rs:190-192 | `pc` advances by 2, then the opcode is the big-endian word at the new `pc` |
| Chip8Semantics.Step | src/chip8/mod.rs:141-243 | the loop stops exactly when `pc` is at or past the end of memory; the fetch panics exactly when `pc + 2` or `pc + 3` is past the end |
| Chip8Laws.FirstFetch | src/chip8/mod.rs:79-113 | after `new` and `load_from_vec`, the first fetch reads the program's bytes 2 and 3, at 0x202 |
| Chip8Laws.StepRuns | src/chip8/mod.rs:190-243 | a step whose next word is the encoding of an instruction runs exactly that instruction after the fetch |
| Chip8Laws.StepIgnores | src/chip8/mod.rs:195-243 | an opcode the dispatch does not handle, or `skp`/`sknp`, only advances `pc` and stores the opcode |
| Chip8Laws.ExecuteIgnores | src/chip8/mod.rs:225-229 | `skp_ex9e`, `sknp_exa1` and unknown opcodes leave the machine unchanged |
| Chip8Laws.StepExits | src/chip8/mod.rs:232 | a step exits the process exactly when the fetched word decodes to `ld_fx0a` |
| Chip8Laws.JumpThenFetch | src/chip8/mod.rs:270-272 | after `jp_1nnn`, the next fetch reads the word at `nnn` |
| Chip8Laws.JumpV0ThenFetch | src/chip8/mod.rs:484-489 | after `jp_bnnn`, the next fetch reads the word at `nnn + v[0]` |
| Chip8Laws.JumpToSelfSpins | src/chip8/mod.rs:270-272 | a `jp` to its own address is a fixed point of the loop |
| Chip8Laws.StepRepeats | src/chip8/mod.rs:190-192 | refetching the opcode already held leaves only the `pc` increment |
| Chip8Laws.ExecuteJump | src/chip8/mod.rs:201 | dispatching `1nnn` runs `jp_1nnn` |
| Chip8Laws.CallThenRet | src/chip8/mod.rs:258-282 | `ret_00ee` after `call_2nnn` restores the machine exactly |
| Chip8Laws.SkipsComplement | src/chip8/mod.rs:287-322 | of `se_3xnn` and `sne_4xnn`, and of `se_5xy0` and `sne_9xy0`, exactly one skips |
| Chip8Laws.LoadThenSkip | src/chip8/mod.rs:287-330 | `se_3xnn` after `ld_6xnn` with the same `nn` always skips |
| Chip8Laws.CopyThenSkip | src/chip8/mod.rs:313-351 | `se_5xy0` after `ld_8xy0` always skips |
| Chip8Laws.AddByteTwice | src/chip8/mod.rs:335-341 | two `add_7xnn` are one with the wrapped sum of the immediates |
| Chip8Laws.AddThenSub | src/chip8/mod.rs:395-420 | `sub_8xy5` undoes `add_8xy4` on `v[x]` |
| Chip8Laws.AddCarries | src/chip8/mod.rs:395-406 | VF·256 + `v[x]` after `add_8xy4` is the exact sum |
| Chip8Laws.SubSubnNegate | src/chip8/mod.rs:411-446 | the results of `sub_8xy5` and `subn_8xy7` add to 0 mod 256 |
| Chip8Laws.SubSubnFlags | src/chip8/mod.rs:411-446 | on different values exactly one of `sub_8xy5` and `subn_8xy7` sets VF; on equal values neither does |
| Chip8Laws.XorTwice | src/chip8/mod.rs:384-390 | `xor_8xy3` twice with different `x` and `y` restores the machine |
| Chip8Laws.OrIdempotent | src/chip8/mod.rs:358-364 | `or_8xy1` twice is `or_8xy1` once |
| Chip8Laws.AndIdempotent | src/chip8/mod.rs:371-377 | `and_8xy2` twice is `and_8xy2` once |
| Chip8Laws.ShrThenShl | src/chip8/mod.rs:425-458 | `shl` after `shr` clears the low bit of `v[x]` and leaves VF 0 |
| Chip8Laws.ShlThenShr | src/chip8/mod.rs:425-458 | `shr` after `shl` clears the top bit of `v[x]` and leaves VF 0 |
| Chip8Laws.ShrKeepsBits | src/chip8/mod.rs:425-432 | twice the shifted `v[x]` plus VF is the old `v[x]` |
| Chip8Laws.StoreThenLoad | src/chip8/mod.rs:614-629 | `ld_fx65` right after `ld_fx55` changes nothing |
| Chip8Laws.LoadThenStore | src/chip8/mod.rs:614-629 | `ld_fx55` right after `ld_fx65` changes nothing |
| Chip8Laws.DelayRoundTrip | src/chip8/mod.rs:545-566 | `ld_fx07` reads back what `ld_fx15` wrote to the delay timer |
| Chip8Laws.BcdReadsBack | src/chip8/mod.rs:601-609 | the hundreds digit is at most 2, and bytes below 100 or 10 get leading zeros |
| Chip8Laws.DrwXorsSprite | src/chip8/mod.rs:513-530 | each sprite bit is XORed onto the pixel `((v[x] + bit) % 64, (v[y] + line) % 32)` |
| Chip8Laws.DrwPixel | src/chip8/mod.rs:519-526 | the same for a single line and bit |
| Chip8Laws.DrwKeepsRest | src/chip8/mod.rs:513-530 | a pixel that no sprite bit lands on keeps its value |
| Chip8Laws.DrwFlagsCollision | src/chip8/mod.rs:513-530 | VF is 1 if and only if some set sprite bit lands on a set pixel |
| Chip8Laws.DrwTwiceRestores | src/chip8/mod.rs:513-530 | drawing the same sprite twice at the same place restores the screen |
| Chip8Draw.FlagByte | src/chip8/mod.rs:518-524 | the flag byte is 0 or 1, and 1 exactly for a collision |
| Chip8Draw.SpriteBitMsbFirst | src/chip8/mod.rs:522 | the colour `(byte >> (7 - bit)) & 1` of sprite bit `bit` is bit `7 - bit` of the line: lines are read most significant bit first |
| Chip8Draw.Plot | src/chip8/mod.rs:523-524 | one inner pass: the collision `color & pixel` is ORed into the flag and the pixel is XORed; the grid stays 64×32 |
| Chip8Draw.DrawBits | src/chip8/mod.rs:520-525 | the first `k` passes of the inner loop, re-reading `v[x]` through the flag it is changing; the grid stays 64×32 |
| Chip8Draw.DrawRows | src/chip8/mod.rs:518-526 | the first `k` passes of the outer loop, re-reading `v[y]` per line; the grid stays 64×32 |
| Chip8Draw.Draw | src/chip8/mod.rs:517-527 | the whole loop from VF = 0; its effect is stated by `DrawXorsSprite`, `DrawKeepsRest`, `DrawFlagsCollision` and `DrawTwiceRestores` |
| Chip8Draw.DrawXorsSprite | src/chip8/mod.rs:518-527 | the drawing loop XORs every sprite bit onto its wrapped pixel |
| Chip8Draw.DrawKeepsRest | src/chip8/mod.rs:518-527 | the drawing loop changes no pixel outside the sprite's wrapped footprint |
| Chip8Draw.DrawFlagsCollision | src/chip8/mod.rs:518-527 | the loop's collision flag holds exactly when a set bit meets a set pixel |
| Chip8Draw.DrawTwiceRestores | src/chip8/mod.rs:518-527 | running the loop twice restores the grid, even with VF changed in between |
| Chip8Encode.DecodeEncode | src/chip8/mod.rs:195-243 | decoding the encoding of any well-formed instruction gives it back |
| Chip8Opcode.Word | src/chip8/opcode.rs:16-21 | the opcode built from two bytes is `l * 256 + r` |
| Chip8Opcode.Nnn | src/chip8/opcode.rs:29-31 | `nnn` is below 0x1000 |
| Chip8Opcode.Nn | src/chip8/opcode.rs:33-35 | `nn` is the opcode modulo 0x100, its low byte |
| Chip8Opcode.N | src/chip8/opcode.rs:37-39 | `n` is below 16 |
| Chip8Opcode.X | src/chip8/opcode.rs:41-43 | `x` is a register index below 16 |
| Chip8Opcode.Y | src/chip8/opcode.rs:45-47 | `y` is a register index below 16 |
| Chip8Opcode.Family | src/chip8/mod.rs:195 | the family keeps only the top nibble |
| Chip8Opcode.FieldsRecombine | src/chip8/opcode.rs:29-47 | family, `x`, `y` and `n` recombine to the opcode; `nnn = x·256 + nn`; `nn = y·16 + n` |
| Chip8Opcode.Opcode.constructor | src/chip8/opcode.rs:6-10 | a new opcode is 0 |
| Chip8Opcode.Opcode.SetFromU8 | src/chip8/opcode.rs:16-21 | the code becomes the big-endian word of the two bytes |
| Chip8Opcode.Opcode.Code | src/chip8/opcode.rs:12-14 | `code()` reads the stored word; what it returns after each update is stated by the constructor, `SetFromU8` and `SetFromU16` |
| Chip8Opcode.Opcode.SetFromU16 | src/chip8/opcode.rs:23-25 | the code becomes the given word |
| Chip8Screen.Blank | src/chip8/screen.rs:6-13 | a blank 64×32 grid has every pixel off |
| Chip8Screen.XorPixel | src/chip8/screen.rs:23-25 | `vram[y][x] ^= v` on a grid value keeps it a 64×32 grid; its effect is stated by `XorPixelEffect` |
| Chip8Screen.XorPixelEffect | src/chip8/screen.rs:23-25 | `set_xy` XORs exactly one pixel and keeps all the others |
| Chip8Screen.XorPixelTwice | src/chip8/screen.rs:23-25 | XORing the same value twice restores the grid |
| Chip8Screen.Screen.constructor | src/chip8/screen.rs:6-10 | a new screen is blank |
| Chip8Screen.Screen.Clear | src/chip8/screen.rs:11-13 | the screen becomes blank |
| Chip8Screen.Screen.SetVram | src/chip8/screen.rs:15-21 | `vram()` reads back what `set_vram` stored |
| Chip8Screen.Screen.Vram | src/chip8/screen.rs:19-21 | `vram()` of a valid screen is a 64×32 grid; what it holds after each update is stated by `SetVram` and `SetXY` |
| Chip8Screen.Screen.SetXY | src/chip8/screen.rs:23-25 | the framebuffer becomes the old one with pixel `(x, y)` XORed |
| Chip8Stack.Stack.constructor | src/chip8/stack.rs:6-10 | a new stack is empty |
| Chip8Stack.Stack.Entries | src/chip8/stack.rs:20-22 | `stack()` returns the entries, oldest first, which `Push` and `Ret` state |
| Chip8Stack.Stack.Push | src/chip8/stack.rs:12-14 | the value is appended on top |
| Chip8Stack.Stack.Ret | src/chip8/stack.rs:16-18 | the top value is returned and removed; the stack must be non-empty |
| Chip8Stack.PushThenRet | src/chip8/stack.rs:12-18 | `ret` after `push` returns the pushed value and restores the stack |
| Chip8Timers.Timers.constructor | src/chip8/timers.rs:7-11 | both timers start at 0 |
| Chip8Timers.Timers.Sound | src/chip8/timers.rs:13-15 | `sound()` returns the sound timer, which the constructor and `SetSound` state |
| Chip8Timers.Timers.Delay | src/chip8/timers.rs:17-19 | `delay()` returns the delay timer, which the constructor and `SetDelay` state |
| Chip8Timers.Timers.SetDelay | src/chip8/timers.rs:21-23 | `delay()` reads back the value; the sound timer is unchanged |
| Chip8Timers.Timers.SetSound | src/chip8/timers.rs:25-27 | `sound()` reads back the value; the delay timer is unchanged |
| Chip8Keys.HexToKey | src/chip8/hex_to_key.rs:3-26 | exactly the values 0 to 0xF map to a key, never to `Other` |
| Chip8Keys.KeyToHex | src/chip8/hex_to_key.rs:29-51 | every key except `Other` maps to a value at most 0xF, which `hex_to_key` maps back to it |
| Chip8Keys.HexRoundTrip | src/chip8/hex_to_key.rs:3-51 | `key_to_hex(hex_to_key(h)) == h` for every `h <= 0xF` |
| Chip8Keys.HexToKeyInjective | src/chip8/hex_to_key.rs:3-26 | different hex values map to different keys |
| Chip8Bytes.WrappingAdd | src/chip8/mod.rs:335-341 | `wrapping_add` is addition mod 256 |
| Chip8Bytes.WrappingSub | src/chip8/mod.rs:411-420 | `wrapping_sub` is subtraction mod 256 |
| Chip8Interpreter.Chip8.constructor | src/chip8/mod.rs:79-107 | a new `Chip8` is the state `Chip8Semantics.New` describes |
| Chip8Interpreter.Chip8.LoadFromVec | src/chip8/mod.rs:111-113 | the copy loop leaves the state `Chip8Semantics.LoadFromVec` describes |
| Chip8Interpreter.Chip8.Cls | src/chip8/mod.rs:250-253 | in place, as `Cls00E0` |
| Chip8Interpreter.Chip8.Ret | src/chip8/mod.rs:258-266 | in place, as `Ret00EE` |
| Chip8Interpreter.Chip8.Jp | src/chip8/mod.rs:270-272 | in place, as `Jp1nnn` |
| Chip8Interpreter.Chip8.Call | src/chip8/mod.rs:277-282 | in place, as `Call2nnn` |
| Chip8Interpreter.Chip8.Se3xnn | src/chip8/mod.rs:287-295 | in place, as `Chip8Semantics.Se3xnn` |
| Chip8Interpreter.Chip8.Sne4xnn | src/chip8/mod.rs:300-308 | in place, as `Chip8Semantics.Sne4xnn` |
| Chip8Interpreter.Chip8.Se5xy0 | src/chip8/mod.rs:313-322 | in place, as `Chip8Semantics.Se5xy0` |
| Chip8Interpreter.Chip8.Ld6xnn | src/chip8/mod.rs:326-330 | in place, as `Chip8Semantics.Ld6xnn` |
| Chip8Interpreter.Chip8.Add7xnn | src/chip8/mod.rs:335-341 | in place, as `Chip8Semantics.Add7xnn` |
| Chip8Interpreter.Chip8.Ld8xy0 | src/chip8/mod.rs:345-351 | in place, as `Chip8Semantics.Ld8xy0` |
| Chip8Interpreter.Chip8.Or8xy1 | src/chip8/mod.rs:358-364 | in place, as `Chip8Semantics.Or8xy1` |
| Chip8Interpreter.Chip8.And8xy2 | src/chip8/mod.rs:371-377 | in place, as `Chip8Semantics.And8xy2` |
| Chip8Interpreter.Chip8.Xor8xy3 | src/chip8/mod.rs:384-390 | in place, as `Chip8Semantics.Xor8xy3` |
| Chip8Interpreter.Chip8.Add8xy4 | src/chip8/mod.rs:395-406 | in place, as `Chip8Semantics.Add8xy4` |
| Chip8Interpreter.Chip8.Sub8xy5 | src/chip8/mod.rs:411-420 | in place, as `Chip8Semantics.Sub8xy5` |
| Chip8Interpreter.Chip8.Shr8xy6 | src/chip8/mod.rs:425-432 | in place, as `Chip8Semantics.Shr8xy6` |
| Chip8Interpreter.Chip8.Subn8xy7 | src/chip8/mod.rs:437-446 | in place, as `Chip8Semantics.Subn8xy7` |
| Chip8Interpreter.Chip8.Shl8x0E | src/chip8/mod.rs:451-458 | in place, as `Chip8Semantics.Shl8x0E` |
| Chip8Interpreter.Chip8.Sne9xy0 | src/chip8/mod.rs:463-472 | in place, as `Chip8Semantics.Sne9xy0` |
| Chip8Interpreter.Chip8.LdAnnn | src/chip8/mod.rs:476-480 | in place, as `Chip8Semantics.LdAnnn` |
| Chip8Interpreter.Chip8.JpBnnn | src/chip8/mod.rs:484-489 | in place, as `Chip8Semantics.JpBnnn` |
| Chip8Interpreter.Chip8.RndCxnn | src/chip8/mod.rs:495-501 | in place, as `Chip8Semantics.RndCxnn`, with the random byte as a parameter |
| Chip8Interpreter.Chip8.LdFx07 | src/chip8/mod.rs:545-549 | in place, as `Chip8Semantics.LdFx07` |
| Chip8Interpreter.Chip8.LdFx15 | src/chip8/mod.rs:561-566 | in place, as `Chip8Semantics.LdFx15` |
| Chip8Interpreter.Chip8.LdFx18 | src/chip8/mod.rs:570-575 | in place, as `Chip8Semantics.LdFx18` |
| Chip8Interpreter.Chip8.AddFx1E | src/chip8/mod.rs:579-584 | in place, as `Chip8Semantics.AddFx1E` |
| Chip8Interpreter.Chip8.LdFx29 | src/chip8/mod.rs:590-595 | in place, as `Chip8Semantics.LdFx29` |
| Chip8Interpreter.Chip8.LdFx33 | src/chip8/mod.rs:601-609 | in place, as `Chip8Semantics.LdFx33` |
| Chip8Interpreter.Chip8.LdFx55 | src/chip8/mod.rs:614-619 | the store loop leaves memory as `Chip8Semantics.LdFx55` describes |
| Chip8Interpreter.Chip8.LdFx65 | src/chip8/mod.rs:624-629 | the load loop leaves the registers as `Chip8Semantics.LdFx65` describes |
| Chip8Interpreter.Chip8.Drw | src/chip8/mod.rs:513-530 | the nested pixel loop leaves the state `DrwDxyn` describes |
| Chip8Interpreter.Chip8.DrawSprite | src/chip8/mod.rs:517-527 | after the loop, the screen and VF are the grid and flag of `Chip8Draw.Draw` |
| Chip8Interpreter.Chip8.DrawRow | src/chip8/mod.rs:518-527 | one pass of the outer loop draws one more sprite line, as `DrawRows` |
| Chip8Interpreter.Chip8.DrawLine | src/chip8/mod.rs:520-526 | the inner loop draws the eight bits of a line, as `DrawBits` |
| Chip8Interpreter.Chip8.DrawPixel | src/chip8/mod.rs:523-525 | one inner pass ORs the collision into VF and XORs the pixel, as `Plot` |
| Chip8Interpreter.Chip8.Step | src/chip8/mod.rs:141-243 | one pass of the loop in place has the outcome `Chip8Semantics.Step` gives |
| Chip8Interpreter.Chip8.Execute | src/chip8/mod.rs:195-243 | the dispatch in place has the outcome `Chip8Semantics.Execute` gives |
| Chip8Interpreter.Chip8.ExecuteRegister | src/chip8/mod.rs:206-223 | the register instructions in place, as `Chip8Semantics.ExecuteRegister` |
| Chip8Interpreter.Chip8.ExecuteMemory | src/chip8/mod.rs:221-241 | the memory, screen and timer instructions in place, as `Chip8Semantics.ExecuteMemory` |
| Chip8Interpreter.Chip8.ExecuteControl | src/chip8/mod.rs:195-243 | the control-flow instructions in place, as `Chip8Semantics.ExecuteControl` |

## Left out

- **SDL is not modelled.** This covers the window, event polling, rendering of the framebuffer, the 60 Hz sleep, and resetting `need_redraw` after a frame. These are I/O. `need_redraw` is only ever set, as the instructions do.
- **`load_from_file` and `main.rs` are not modelled.** They are file I/O and program start-up. `load_from_vec` is modelled.
- **The random generator is a parameter.** The byte `rng.gen::<u8>()` returns is the parameter `rnd` of `RndCxnn`, `Execute` and `Step`. Nothing is stated about its distribution.
- **The font loader is a parameter.** The bytes `new` writes below 0x200 are the parameter `reserved`. The font table itself is not part of this model.
- **`timers.countdown()` is not modelled.** `run` calls it, but it is not defined in the timers source, so the timers change only through `ld_fx15` and `ld_fx18`.
- **Keys are not modelled.** The `keys` field and key input are left out, because `skp_ex9e` and `sknp_exa1` are empty and never read them.
- **`ld_fx0a` is the `Exited` outcome.** `exit(-1)` ends the process, and the model does not model processes.
- **Logging is left out** (`log::debug!`, `log::error!`).
- **`Screen::vram_mut` is not modelled.** The core never calls it.
- **Pixels are booleans.** `set_xy` is called only with a colour of 0 or 1, which keeps every pixel 0 or 1.
- **A debug build is assumed.** `nnn - 2` in `jp_1nnn`, `call_2nnn` and `jp_bnnn` panics on underflow only when overflow checks are on, as in a debug build. The model assumes this and gives the `AddressUnderflow` outcome. In a release build the subtraction wraps to a huge `pc`. The guard `while self.pc < self.memory.len()` (src/chip8/mod.rs:141) then ends the loop instead. That case is not modelled.
- **`usize` overflow is not modelled.** `pc`, `I` and the stack entries are unbounded naturals. No overflow of them is modelled, since a `usize` never gets near its limit here.
- **The partial state of a panic is not modelled.** A panic is the `Panicked` outcome, without the state the Rust code had reached before it panicked. `Chip8Interpreter.Chip8.Step` and the other dispatch methods require that the step does not panic.
- **Operands are decoded once.** `Chip8Interpreter.Chip8.Step` decodes the opcode once and passes `x`, `y`, `n`, `nn` and `nnn` to the instruction methods. The Rust methods read these fields from `self.opcode` again, and get the same values.
- **`Drw` reads the sprite bytes before its loop.** The Rust loop reads `memory[i + byte]` inside the loop. The two are the same, because the loop never writes memory.
- Chip8Semantics.DrwDxyn: its own contract states only the frame and that VF is 0 or 1.
  - What happens to the pixels is proved in `Chip8Laws.DrwXorsSprite`, `DrwKeepsRest`, `DrwFlagsCollision` and `DrwTwiceRestores`.
  - Those are proved only when `x` and `y` are not VF.
  - With `x` or `y` equal to VF, the loop behaves as written: the coordinates follow the changing flag. No property of that case is stated.
  - Sprites must be at most 15 lines, which is what `n` allows.
- Chip8Laws.AddThenSub, AddCarries and the shift laws: they are stated for `x` other than VF. With `x = F`, the code lets the result overwrite the flag, and `Add8xy4` and `Shr8xy6` say what happens then.
