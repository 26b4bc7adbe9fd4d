/** The 64x32 framebuffer (src/chip8/screen.rs). `vram` is a `[[u8; 64]; 32]`:
    32 rows of 64 pixel bytes, indexed `vram[y][x]`. Drawing XORs pixels; only
    `clear` and `set_vram` overwrite them.

    Every pixel byte the interpreter writes is 0 or 1: `new` and `clear` write
    0 and `drw_dxyn` XORs in a single sprite bit. A pixel is therefore
    modelled as a `bool` (`true` for 1), and XOR of two such bytes as `!=`. */
module Chip8Screen {

  const Width: nat := 64
  const Height: nat := 32

  type Grid = seq<seq<bool>>

  /** The shape of `[[u8; 64]; 32]`. */
  ghost predicate IsGrid(g: Grid) {
    |g| == Height && forall row :: 0 <= row < |g| ==> |g[row]| == Width
  }

  /** The all-zero framebuffer `[[0; 64]; 32]`. */
  function Blank(): (g: Grid)
    ensures IsGrid(g)
    ensures forall row, col :: 0 <= row < Height && 0 <= col < Width ==> !g[row][col]
  {
    seq(Height, _ => seq(Width, _ => false))
  }

  /** `vram[y][x] ^= v` on a copy of the framebuffer. */
  function XorPixel(g: Grid, x: nat, y: nat, v: bool): (r: Grid)
    requires IsGrid(g) && x < Width && y < Height
    ensures IsGrid(r)
  {
    g[y := g[y][x := g[y][x] != v]]
  }

  /** XorPixel XORs `v` into the one pixel at column `x` of row `y`, and
      every other pixel keeps its value. */
  lemma XorPixelEffect(g: Grid, x: nat, y: nat, v: bool)
    requires IsGrid(g) && x < Width && y < Height
    ensures var r := XorPixel(g, x, y, v);
      && r[y][x] == (g[y][x] != v)
      && forall row, col :: 0 <= row < Height && 0 <= col < Width && (row != y || col != x) ==>
        r[row][col] == g[row][col]
  {
  }

  /** XORing the same value into the same pixel twice restores the grid. */
  lemma {:induction false} XorPixelTwice(g: Grid, x: nat, y: nat, v: bool)
    requires IsGrid(g) && x < Width && y < Height
    ensures XorPixel(XorPixel(g, x, y, v), x, y, v) == g
  {
    var r := XorPixel(XorPixel(g, x, y, v), x, y, v);
    assert r[y] == g[y];
  }

  /** The `Screen` struct. The array is a value in Rust (`vram()` hands out a
      copy, `clear` and `set_vram` assign a whole array), so the field holds
      the grid as a value that every update replaces. */
  class Screen {
    var vram: Grid

    ghost predicate Valid()
      reads this
    {
      IsGrid(vram)
    }

    /** `Screen::new`: every pixel is 0. */
    constructor ()
      ensures Valid() && vram == Blank()
    {
      vram := Blank();
    }

    /** `clear`: every pixel becomes 0. */
    method Clear()
      modifies this
      ensures Valid() && vram == Blank()
    {
      vram := Blank();
    }

    /** `set_vram`: the framebuffer becomes `g`. */
    method SetVram(g: Grid)
      requires IsGrid(g)
      modifies this
      ensures Valid() && Vram() == g
    {
      vram := g;
    }

    /** `vram()`: a copy of the framebuffer; reading it changes nothing. */
    function Vram(): (g: Grid)
      requires Valid()
      reads this
      ensures IsGrid(g)
    {
      vram
    }

    /** `set_xy`: XOR the bit `v` into the pixel at column `x` of row `y`. The
        indices are those of `vram[y][x]`, so they must lie on the screen. */
    method SetXY(x: nat, y: nat, v: bool)
      requires Valid() && x < Width && y < Height
      modifies this
      ensures Valid() && vram == XorPixel(old(vram), x, y, v)
    {
      vram := XorPixel(vram, x, y, v);
    }
  }
}
