/** The sprite-drawing loop of `drw_dxyn` (src/chip8/mod.rs:513-530) as a
    function, and what it does to the framebuffer.

    The loop first sets VF to 0, then walks the sprite line by line and,
    inside a line, bit by bit from the most significant one. Every bit is
    XORed onto the pixel at `((v[x] + bit) % 64, (v[y] + line) % 32)`, and VF
    collects whether a set bit met a set pixel. The loop re-reads `v[x]` for
    every bit and `v[y]` for every line while it is changing VF, so when `x`
    or `y` is 0xF the coordinates follow VF; `DrawRows` and `DrawBits` keep
    that behaviour. */
module Chip8Draw {
  import opened Chip8Screen
  import Chip8Bytes

  /** The number of pixels in one sprite line: one per bit of a byte. */
  function LineWidth(): nat { 8 }

  /** What the loop changes: the framebuffer, and whether a collision has
      been seen. VF is 0 when the loop starts and only ever has `color &
      pixel`, 0 or 1, ORed into it, so it is 1 exactly when `collided`. */
  datatype Canvas = Canvas(grid: Grid, collided: bool)

  /** The byte VF holds for a collision flag. */
  function FlagByte(collided: bool): (f: bv8)
    ensures f == 0 || f == 1
    ensures f == 1 <==> collided
  {
    if collided then 1 else 0
  }

  /** `(byte >> (7 - bit)) & 0x1`: bit `bit` of a sprite line, counted from
      the most significant bit, as the colour 0 (`false`) or 1 (`true`). */
  function SpriteBit(line: bv8, bit: nat): bool
    requires bit < 8
  {
    (line >> (7 - bit)) & 1 == 1
  }

  /** Sprite lines are read most significant bit first: the colour of bit
      `bit` is bit `7 - bit` of the byte. */
  lemma SpriteBitMsbFirst(line: bv8, bit: nat)
    requires bit < 8
    ensures SpriteBit(line, bit) <==> Chip8Bytes.Bit(line, 7 - bit)
  {
    if bit == 0 {} else if bit == 1 {} else if bit == 2 {} else if bit == 3 {}
    else if bit == 4 {} else if bit == 5 {} else if bit == 6 {} else {}
  }

  /** `self.v[r]` as the loop reads it: VF is the only register it changes. */
  function Reg(regs: seq<bv8>, r: nat, collided: bool): bv8
    requires |regs| == 16 && r < 16
  {
    if r == 0xF then FlagByte(collided) else regs[r]
  }

  /** One pass of the inner loop body: collect the collision into VF, then
      XOR the colour onto the pixel. */
  function Plot(c: Canvas, px: nat, py: nat, color: bool): (r: Canvas)
    requires IsGrid(c.grid) && px < Width && py < Height
    ensures IsGrid(r.grid)
  {
    Canvas(XorPixel(c.grid, px, py, color), c.collided || (color && c.grid[py][px]))
  }

  /** The canvas after the first `k` bits of sprite line `line`, drawn on
      screen row `py`. */
  function DrawBits(c: Canvas, regs: seq<bv8>, x: nat, py: nat, line: bv8, k: nat): (r: Canvas)
    requires IsGrid(c.grid) && |regs| == 16 && x < 16 && py < Height && k <= 8
    ensures IsGrid(r.grid)
    decreases k
  {
    if k == 0 then c
    else
      var prev := DrawBits(c, regs, x, py, line, k - 1);
      Plot(prev, ColOf(Reg(regs, x, prev.collided), k - 1), py, SpriteBit(line, k - 1))
  }

  /** The canvas after the first `k` lines of the sprite. */
  function DrawRows(c: Canvas, regs: seq<bv8>, x: nat, y: nat, sprite: seq<bv8>, k: nat): (r: Canvas)
    requires IsGrid(c.grid) && |regs| == 16 && x < 16 && y < 16 && k <= |sprite|
    ensures IsGrid(r.grid)
    decreases k
  {
    if k == 0 then c
    else
      var prev := DrawRows(c, regs, x, y, sprite, k - 1);
      DrawBits(prev, regs, x, RowOf(Reg(regs, y, prev.collided), k - 1), sprite[k - 1], LineWidth())
  }

  /** The whole loop: VF starts at 0 and every line of the sprite is drawn. */
  function Draw(g: Grid, regs: seq<bv8>, x: nat, y: nat, sprite: seq<bv8>): (r: Canvas)
    requires IsGrid(g) && |regs| == 16 && x < 16 && y < 16
    ensures IsGrid(r.grid)
  {
    DrawRows(Canvas(g, false), regs, x, y, sprite, |sprite|)
  }

  /** The screen row that sprite line `line` lands on. */
  function RowOf(vy: bv8, line: nat): (py: nat)
    ensures py < Height
  {
    (vy as int + line) % Height
  }

  /** The screen column that bit `bit` of a line lands on. */
  function ColOf(vx: bv8, bit: nat): (px: nat)
    ensures px < Width
  {
    (vx as int + bit) % Width
  }

  /** The one sprite line that can land on screen row `py`. */
  function LineAt(vy: bv8, py: nat): nat {
    (py - vy as int) % Height
  }

  /** The one bit of a line that can land on screen column `px`. */
  function BitAt(vx: bv8, px: nat): nat {
    (px - vx as int) % Width
  }

  /** A set sprite bit that lands on a set pixel of `g`. */
  ghost predicate Collides(g: Grid, vx: bv8, vy: bv8, sprite: seq<bv8>, line: nat, bit: nat)
    requires IsGrid(g) && line < |sprite| && bit < 8
  {
    SpriteBit(sprite[line], bit) && g[RowOf(vy, line)][ColOf(vx, bit)]
  }

  /** Pixel (`px`, `py`) is on no line/bit pair of an `n`-line sprite. */
  ghost predicate Untouched(vx: bv8, vy: bv8, n: nat, px: nat, py: nat) {
    forall line, bit :: 0 <= line < n && 0 <= bit < 8 ==> RowOf(vy, line) != py || ColOf(vx, bit) != px
  }

  /** Drawing with `x` and `y` other than VF: every bit of the sprite is
      XORed onto its wrapped-around pixel. */
  lemma DrawXorsSprite(g: Grid, regs: seq<bv8>, x: nat, y: nat, sprite: seq<bv8>)
    requires IsGrid(g) && |regs| == 16 && x < 0xF && y < 0xF && |sprite| <= Height
    ensures var r := Draw(g, regs, x, y, sprite);
      forall line, bit :: 0 <= line < |sprite| && 0 <= bit < 8 ==>
        r.grid[RowOf(regs[y], line)][ColOf(regs[x], bit)]
          == (g[RowOf(regs[y], line)][ColOf(regs[x], bit)] != SpriteBit(sprite[line], bit))
  {
    var vx, vy := regs[x], regs[y];
    var r := Draw(g, regs, x, y, sprite);
    DrawnAll(g, regs, x, y, sprite);
    forall line, bit | 0 <= line < |sprite| && 0 <= bit < 8
      ensures r.grid[RowOf(vy, line)][ColOf(vx, bit)] == (g[RowOf(vy, line)][ColOf(vx, bit)] != SpriteBit(sprite[line], bit))
    {
      DrawnPixel(g, vx, vy, sprite, r, line, bit);
    }
  }

  /** Once the whole sprite is drawn, the pixel under bit `bit` of line
      `line` is its old value XORed with that bit. */
  lemma DrawnPixel(g: Grid, vx: bv8, vy: bv8, sprite: seq<bv8>, c: Canvas, line: nat, bit: nat)
    requires IsGrid(g) && |sprite| <= Height && line < |sprite| && bit < 8
    requires DrawnUpTo(g, vx, vy, sprite, c, |sprite|, 0)
    ensures c.grid[RowOf(vy, line)][ColOf(vx, bit)] == (g[RowOf(vy, line)][ColOf(vx, bit)] != SpriteBit(sprite[line], bit))
  {
    LineAtRowOf(vy, line);
    BitAtColOf(vx, bit);
    assert Ink(vx, vy, sprite, |sprite|, 0, ColOf(vx, bit), RowOf(vy, line)) == SpriteBit(sprite[line], bit);
  }

  /** Drawing with `x` and `y` other than VF leaves every pixel the sprite
      does not cover as it was. */
  lemma DrawKeepsRest(g: Grid, regs: seq<bv8>, x: nat, y: nat, sprite: seq<bv8>)
    requires IsGrid(g) && |regs| == 16 && x < 0xF && y < 0xF && |sprite| <= Height
    ensures var r := Draw(g, regs, x, y, sprite);
      forall py, px :: 0 <= py < Height && 0 <= px < Width && Untouched(regs[x], regs[y], |sprite|, px, py) ==>
        r.grid[py][px] == g[py][px]
  {
    var vx, vy := regs[x], regs[y];
    var r := Draw(g, regs, x, y, sprite);
    DrawnAll(g, regs, x, y, sprite);
    forall py, px | 0 <= py < Height && 0 <= px < Width && Untouched(vx, vy, |sprite|, px, py)
      ensures r.grid[py][px] == g[py][px]
    {
      RowOfLineAt(vy, py);
      ColOfBitAt(vx, px);
      assert !Ink(vx, vy, sprite, |sprite|, 0, px, py);
    }
  }

  /** Drawing with `x` and `y` other than VF: VF ends up 1 exactly when some
      set sprite bit landed on a set pixel, and 0 otherwise. */
  lemma DrawFlagsCollision(g: Grid, regs: seq<bv8>, x: nat, y: nat, sprite: seq<bv8>)
    requires IsGrid(g) && |regs| == 16 && x < 0xF && y < 0xF && |sprite| <= Height
    ensures Draw(g, regs, x, y, sprite).collided <==>
      exists line, bit :: 0 <= line < |sprite| && 0 <= bit < 8 && Collides(g, regs[x], regs[y], sprite, line, bit)
  {
    DrawnAll(g, regs, x, y, sprite);
    if Draw(g, regs, x, y, sprite).collided {
      var line, bit :| 0 <= line < |sprite| && 0 <= bit < 8 && Done(line, bit, |sprite|, 0)
        && Collides(g, regs[x], regs[y], sprite, line, bit);
    }
  }

  /** Drawing the same sprite twice at the same place restores the screen.
      The second draw may see other registers (the first one changed VF),
      as long as `v[x]` and `v[y]` are the same. */
  lemma DrawTwiceRestores(g: Grid, regs: seq<bv8>, regs2: seq<bv8>, x: nat, y: nat, sprite: seq<bv8>)
    requires IsGrid(g) && |regs| == 16 && |regs2| == 16 && x < 0xF && y < 0xF && |sprite| <= Height
    requires regs2[x] == regs[x] && regs2[y] == regs[y]
    ensures Draw(Draw(g, regs, x, y, sprite).grid, regs2, x, y, sprite).grid == g
  {
    var first := Draw(g, regs, x, y, sprite);
    var second := Draw(first.grid, regs2, x, y, sprite);
    DrawnAll(g, regs, x, y, sprite);
    DrawnAll(first.grid, regs2, x, y, sprite);
    forall py | 0 <= py < Height
      ensures second.grid[py] == g[py]
    {
      assert forall px :: 0 <= px < Width ==> second.grid[py][px] == g[py][px] by {
        forall px | 0 <= px < Width
          ensures second.grid[py][px] == g[py][px]
        {
          var ink := Ink(regs[x], regs[y], sprite, |sprite|, 0, px, py);
          assert first.grid[py][px] == (g[py][px] != ink);
          assert second.grid[py][px] == (first.grid[py][px] != ink);
        }
      }
    }
  }

  // ---------------------------------------------------------------------
  // The proof: after `k` whole lines and `b` bits of line `k`, every pixel is
  // its old value XORed with the ink drawn on it so far, and the flag records
  // whether a collision has happened so far.

  ghost predicate Done(line: nat, bit: nat, k: nat, b: nat) {
    line < k || (line == k && bit < b)
  }

  /** The sprite bit already drawn on pixel (`px`, `py`), or 0. */
  ghost predicate Ink(vx: bv8, vy: bv8, sprite: seq<bv8>, k: nat, b: nat, px: nat, py: nat) {
    var line, bit := LineAt(vy, py), BitAt(vx, px);
    line < |sprite| && bit < 8 && Done(line, bit, k, b) && SpriteBit(sprite[line], bit)
  }

  ghost predicate CollidedSoFar(g: Grid, vx: bv8, vy: bv8, sprite: seq<bv8>, k: nat, b: nat)
    requires IsGrid(g)
  {
    exists line, bit :: 0 <= line < |sprite| && 0 <= bit < 8 && Done(line, bit, k, b) && Collides(g, vx, vy, sprite, line, bit)
  }

  ghost predicate DrawnUpTo(g: Grid, vx: bv8, vy: bv8, sprite: seq<bv8>, c: Canvas, k: nat, b: nat)
    requires IsGrid(g)
  {
    && IsGrid(c.grid)
    && (forall py, px {:trigger Ink(vx, vy, sprite, k, b, px, py)} :: 0 <= py < Height && 0 <= px < Width ==>
          c.grid[py][px] == (g[py][px] != Ink(vx, vy, sprite, k, b, px, py)))
    && (c.collided <==> CollidedSoFar(g, vx, vy, sprite, k, b))
  }

  lemma {:induction false} DrawnAll(g: Grid, regs: seq<bv8>, x: nat, y: nat, sprite: seq<bv8>)
    requires IsGrid(g) && |regs| == 16 && x < 0xF && y < 0xF && |sprite| <= Height
    ensures DrawnUpTo(g, regs[x], regs[y], sprite, Draw(g, regs, x, y, sprite), |sprite|, 0)
  {
    DrawnRows(g, regs, x, y, sprite, |sprite|);
    assert RowsDrawn(g, regs, x, y, sprite, |sprite|);
  }

  /** The invariant after `k` whole lines of the sprite. */
  ghost predicate RowsDrawn(g: Grid, regs: seq<bv8>, x: nat, y: nat, sprite: seq<bv8>, k: nat)
    requires IsGrid(g) && |regs| == 16 && x < 0xF && y < 0xF && k <= |sprite|
  {
    DrawnUpTo(g, regs[x], regs[y], sprite, DrawRows(Canvas(g, false), regs, x, y, sprite, k), k, 0)
  }

  lemma {:induction false} DrawnRows(g: Grid, regs: seq<bv8>, x: nat, y: nat, sprite: seq<bv8>, k: nat)
    requires IsGrid(g) && |regs| == 16 && x < 0xF && y < 0xF && |sprite| <= Height && k <= |sprite|
    ensures RowsDrawn(g, regs, x, y, sprite, k)
    decreases k
  {
    if k == 0 {
      DrawnNoRows(g, regs, x, y, sprite);
    } else {
      DrawnRows(g, regs, x, y, sprite, k - 1);
      DrawnNextRow(g, regs, x, y, sprite, k);
    }
  }

  lemma DrawnNoRows(g: Grid, regs: seq<bv8>, x: nat, y: nat, sprite: seq<bv8>)
    requires IsGrid(g) && |regs| == 16 && x < 0xF && y < 0xF && |sprite| <= Height
    ensures RowsDrawn(g, regs, x, y, sprite, 0)
  {
    assert DrawRows(Canvas(g, false), regs, x, y, sprite, 0) == Canvas(g, false);
    DrawnNothing(g, regs[x], regs[y], sprite);
  }

  lemma {:induction false} DrawnNextRow(g: Grid, regs: seq<bv8>, x: nat, y: nat, sprite: seq<bv8>, k: nat)
    requires IsGrid(g) && |regs| == 16 && x < 0xF && y < 0xF && |sprite| <= Height && 0 < k <= |sprite|
    requires RowsDrawn(g, regs, x, y, sprite, k - 1)
    ensures RowsDrawn(g, regs, x, y, sprite, k)
  {
    var c := Canvas(g, false);
    DrawnLine(g, regs, x, y, sprite, DrawRows(c, regs, x, y, sprite, k - 1), k);
    RowsStep(c, regs, x, y, sprite, k);
  }

  /** Drawing one more line: line `k` is drawn on the row `v[y]` gives
      after the first `k` lines. */
  lemma RowsNext(c: Canvas, regs: seq<bv8>, x: nat, y: nat, sprite: seq<bv8>, k: nat)
    requires IsGrid(c.grid) && |regs| == 16 && x < 16 && y < 16 && k < |sprite|
    ensures var prev := DrawRows(c, regs, x, y, sprite, k);
      DrawRows(c, regs, x, y, sprite, k + 1)
        == DrawBits(prev, regs, x, RowOf(Reg(regs, y, prev.collided), k), sprite[k], LineWidth())
  {
  }

  /** Drawing one more bit: bit `k` lands on the column `v[x]` gives after
      the first `k` bits. */
  lemma BitsNext(c: Canvas, regs: seq<bv8>, x: nat, py: nat, line: bv8, k: nat)
    requires IsGrid(c.grid) && |regs| == 16 && x < 16 && py < Height && k < 8
    ensures var prev := DrawBits(c, regs, x, py, line, k);
      DrawBits(c, regs, x, py, line, k + 1)
        == Plot(prev, ColOf(Reg(regs, x, prev.collided), k), py, SpriteBit(line, k))
  {
  }

  /** With `y` other than VF, line `k - 1` lands on row `RowOf(v[y], k - 1)`. */
  lemma RowsStep(c: Canvas, regs: seq<bv8>, x: nat, y: nat, sprite: seq<bv8>, k: nat)
    requires IsGrid(c.grid) && |regs| == 16 && x < 16 && y < 0xF && 0 < k <= |sprite|
    ensures DrawRows(c, regs, x, y, sprite, k)
      == DrawBits(DrawRows(c, regs, x, y, sprite, k - 1), regs, x, RowOf(regs[y], k - 1), sprite[k - 1], LineWidth())
  {
    assert Reg(regs, y, DrawRows(c, regs, x, y, sprite, k - 1).collided) == regs[y];
  }

  lemma {:induction false} DrawnNothing(g: Grid, vx: bv8, vy: bv8, sprite: seq<bv8>)
    requires IsGrid(g)
    ensures DrawnUpTo(g, vx, vy, sprite, Canvas(g, false), 0, 0)
  {
    forall py, px | 0 <= py < Height && 0 <= px < Width
      ensures g[py][px] == (g[py][px] != Ink(vx, vy, sprite, 0, 0, px, py))
    {
    }
  }

  /** Drawing line `k - 1` whole takes the invariant from `k - 1` lines to `k`. */
  lemma {:induction false} DrawnLine(g: Grid, regs: seq<bv8>, x: nat, y: nat, sprite: seq<bv8>, c: Canvas, k: nat)
    requires IsGrid(g) && |regs| == 16 && x < 0xF && y < 0xF && |sprite| <= Height && 0 < k <= |sprite|
    requires DrawnUpTo(g, regs[x], regs[y], sprite, c, k - 1, 0)
    ensures DrawnUpTo(g, regs[x], regs[y], sprite, DrawBits(c, regs, x, RowOf(regs[y], k - 1), sprite[k - 1], LineWidth()), k, 0)
  {
    DrawnBits(g, regs, x, y, sprite, c, k - 1, LineWidth());
    NextLine(g, regs[x], regs[y], sprite, DrawBits(c, regs, x, RowOf(regs[y], k - 1), sprite[k - 1], LineWidth()), k);
  }

  lemma {:induction false} DrawnBits(g: Grid, regs: seq<bv8>, x: nat, y: nat, sprite: seq<bv8>, c: Canvas, k: nat, b: nat)
    requires IsGrid(g) && |regs| == 16 && x < 0xF && y < 0xF && |sprite| <= Height && k < |sprite| && b <= 8
    requires DrawnUpTo(g, regs[x], regs[y], sprite, c, k, 0)
    ensures DrawnUpTo(g, regs[x], regs[y], sprite, DrawBits(c, regs, x, RowOf(regs[y], k), sprite[k], b), k, b)
    decreases b
  {
    if b > 0 {
      var vx, vy := regs[x], regs[y];
      var prev := DrawBits(c, regs, x, RowOf(vy, k), sprite[k], b - 1);
      DrawnBits(g, regs, x, y, sprite, c, k, b - 1);
      PlotStep(g, vx, vy, sprite, prev, k, b);
      assert Reg(regs, x, prev.collided) == vx;
    }
  }

  /** Plotting bit `b - 1` of line `k` extends the invariant by that one bit. */
  lemma {:induction false} PlotStep(g: Grid, vx: bv8, vy: bv8, sprite: seq<bv8>, c: Canvas, k: nat, b: nat)
    requires IsGrid(g) && |sprite| <= Height && k < |sprite| && 0 < b <= 8
    requires DrawnUpTo(g, vx, vy, sprite, c, k, b - 1)
    ensures DrawnUpTo(g, vx, vy, sprite, Plot(c, ColOf(vx, b - 1), RowOf(vy, k), SpriteBit(sprite[k], b - 1)), k, b)
  {
    PlotGrid(g, vx, vy, sprite, c, k, b);
    PlotCollision(g, vx, vy, sprite, c, k, b);
  }

  lemma {:induction false} PlotGrid(g: Grid, vx: bv8, vy: bv8, sprite: seq<bv8>, c: Canvas, k: nat, b: nat)
    requires IsGrid(g) && |sprite| <= Height && k < |sprite| && 0 < b <= 8
    requires DrawnUpTo(g, vx, vy, sprite, c, k, b - 1)
    ensures var r := Plot(c, ColOf(vx, b - 1), RowOf(vy, k), SpriteBit(sprite[k], b - 1));
      forall py, px :: 0 <= py < Height && 0 <= px < Width ==>
        r.grid[py][px] == (g[py][px] != Ink(vx, vy, sprite, k, b, px, py))
  {
    var py0, px0, color := RowOf(vy, k), ColOf(vx, b - 1), SpriteBit(sprite[k], b - 1);
    var r := Plot(c, px0, py0, color);
    XorPixelEffect(c.grid, px0, py0, color);
    forall py, px | 0 <= py < Height && 0 <= px < Width
      ensures r.grid[py][px] == (g[py][px] != Ink(vx, vy, sprite, k, b, px, py))
    {
      InkStep(vx, vy, sprite, k, b, px, py);
      assert c.grid[py][px] == (g[py][px] != Ink(vx, vy, sprite, k, b - 1, px, py));
    }
  }

  /** Drawing bit `b - 1` of line `k` adds ink on its own pixel and nowhere
      else; that pixel had no ink before. */
  lemma InkStep(vx: bv8, vy: bv8, sprite: seq<bv8>, k: nat, b: nat, px: nat, py: nat)
    requires k < |sprite| <= Height && 0 < b <= 8 && px < Width && py < Height
    ensures px == ColOf(vx, b - 1) && py == RowOf(vy, k) ==>
      !Ink(vx, vy, sprite, k, b - 1, px, py) && Ink(vx, vy, sprite, k, b, px, py) == SpriteBit(sprite[k], b - 1)
    ensures px != ColOf(vx, b - 1) || py != RowOf(vy, k) ==>
      Ink(vx, vy, sprite, k, b, px, py) == Ink(vx, vy, sprite, k, b - 1, px, py)
  {
    RowOfLineAt(vy, py);
    ColOfBitAt(vx, px);
    LineAtRowOf(vy, k);
    BitAtColOf(vx, b - 1);
  }

  lemma {:induction false} PlotCollision(g: Grid, vx: bv8, vy: bv8, sprite: seq<bv8>, c: Canvas, k: nat, b: nat)
    requires IsGrid(g) && |sprite| <= Height && k < |sprite| && 0 < b <= 8
    requires DrawnUpTo(g, vx, vy, sprite, c, k, b - 1)
    ensures var r := Plot(c, ColOf(vx, b - 1), RowOf(vy, k), SpriteBit(sprite[k], b - 1));
      r.collided <==> CollidedSoFar(g, vx, vy, sprite, k, b)
  {
    var py0, px0 := RowOf(vy, k), ColOf(vx, b - 1);
    InkStep(vx, vy, sprite, k, b, px0, py0);
    XorPixelEffect(c.grid, px0, py0, SpriteBit(sprite[k], b - 1));
    assert c.grid[py0][px0] == g[py0][px0];
    if CollidedSoFar(g, vx, vy, sprite, k, b) && !CollidedSoFar(g, vx, vy, sprite, k, b - 1) {
      var line, bit :| 0 <= line < |sprite| && 0 <= bit < 8 && Done(line, bit, k, b) && Collides(g, vx, vy, sprite, line, bit);
      assert line == k && bit == b - 1;
    }
    if Collides(g, vx, vy, sprite, k, b - 1) {
      assert Done(k, b - 1, k, b);
    }
    if CollidedSoFar(g, vx, vy, sprite, k, b - 1) {
      var line, bit :| 0 <= line < |sprite| && 0 <= bit < 8 && Done(line, bit, k, b - 1) && Collides(g, vx, vy, sprite, line, bit);
      assert Done(line, bit, k, b);
    }
  }

  /** A finished line `k - 1` is the same as line `k` with no bits drawn. */
  lemma {:induction false} NextLine(g: Grid, vx: bv8, vy: bv8, sprite: seq<bv8>, c: Canvas, k: nat)
    requires IsGrid(g) && 0 < k && DrawnUpTo(g, vx, vy, sprite, c, k - 1, LineWidth())
    ensures DrawnUpTo(g, vx, vy, sprite, c, k, 0)
  {
    forall py, px | 0 <= py < Height && 0 <= px < Width
      ensures c.grid[py][px] == (g[py][px] != Ink(vx, vy, sprite, k, 0, px, py))
    {
      assert c.grid[py][px] == (g[py][px] != Ink(vx, vy, sprite, k - 1, LineWidth(), px, py));
      assert Ink(vx, vy, sprite, k - 1, LineWidth(), px, py) == Ink(vx, vy, sprite, k, 0, px, py);
    }
    if CollidedSoFar(g, vx, vy, sprite, k, 0) {
      var line, bit :| 0 <= line < |sprite| && 0 <= bit < 8 && Done(line, bit, k, 0) && Collides(g, vx, vy, sprite, line, bit);
      assert Done(line, bit, k - 1, LineWidth());
    }
    if CollidedSoFar(g, vx, vy, sprite, k - 1, LineWidth()) {
      var line, bit :| 0 <= line < |sprite| && 0 <= bit < 8 && Done(line, bit, k - 1, LineWidth()) && Collides(g, vx, vy, sprite, line, bit);
      assert Done(line, bit, k, 0);
    }
  }

  // Arithmetic of the wrap-around.

  lemma LineAtRowOf(vy: bv8, line: nat)
    requires line < Height
    ensures LineAt(vy, RowOf(vy, line)) == line
  {
    var s := vy as int + line;
    assert s == (s / 32) * 32 + s % 32;
    ModAddMultiple32(line, -(s / 32));
  }

  lemma BitAtColOf(vx: bv8, bit: nat)
    requires bit < Width
    ensures BitAt(vx, ColOf(vx, bit)) == bit
  {
    var s := vx as int + bit;
    assert s == (s / 64) * 64 + s % 64;
    ModAddMultiple64(bit, -(s / 64));
  }

  lemma RowOfLineAt(vy: bv8, py: nat)
    requires py < Height
    ensures RowOf(vy, LineAt(vy, py)) == py
  {
    var d := py - vy as int;
    assert d == (d / 32) * 32 + d % 32;
    ModAddMultiple32(py, -(d / 32));
  }

  lemma ColOfBitAt(vx: bv8, px: nat)
    requires px < Width
    ensures ColOf(vx, BitAt(vx, px)) == px
  {
    var d := px - vx as int;
    assert d == (d / 64) * 64 + d % 64;
    ModAddMultiple64(px, -(d / 64));
  }

  lemma ModAddMultiple32(a: nat, q: int)
    requires a < 32
    ensures (a + q * 32) % 32 == a
  {
  }

  lemma ModAddMultiple64(a: nat, q: int)
    requires a < 64
    ensures (a + q * 64) % 64 == a
  {
  }
}
