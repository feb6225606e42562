/** The 64x32 framebuffer (VRAM) and the sprite-drawing rule of DXYN.
    A pixel occupies three consecutive bytes (an RGB triple); a sprite is a
    column of bytes, each drawn as 8 pixels, most significant bit first, by
    XOR onto the screen. This module is pure: the in-place loops that draw a
    sprite (`Chip8Machine.Chip8.DrawSprite`) are proved equal to `DrawRows`
    and `RowsCollision`, which `SpriteIsPlots` relates to drawing the list of
    the sprite's pixels one after the other (`Draw`, `Collision`). */
module Display {
  import opened Words

  const ScreenWidth := 64
  /** A sprite row is one byte: eight pixels wide. */
  const SpriteWidth: nat := 8
  const ScreenHeight := 32
  const BytesPerPixel := 3
  const PixelCount := 64 * ScreenHeight
  /** `Chip8::VRAM` is `uint8[6144]`. */
  const VramSize := 6144

  /** The clear screen of CLS and Reset: every byte zero. */
  function Blank(): (v: seq<u8>)
    ensures |v| == VramSize
    ensures forall j :: 0 <= j < VramSize ==> v[j] == 0
  {
    seq(VramSize, _ => 0)
  }

  /** The per-pixel wrap of DXYN as written: a coordinate is reduced only when
      it is strictly greater than the screen size, and only once. */
  function WrapRow(y: nat): nat {
    if y > ScreenHeight then y - ScreenHeight else y
  }

  function WrapColumn(x: nat): nat {
    if x > ScreenWidth then x - ScreenWidth else x
  }

  /** The row coordinate used for sprite row `r`: wrapped at the start of each
      row and incremented after it. */
  function RowPosition(startY: nat, r: nat): nat {
    if r == 0 then WrapRow(startY) else WrapRow(RowPosition(startY, r - 1) + 1)
  }

  /** The column coordinate used for sprite column `c`: wrapped before each
      pixel and incremented after it, restarting from the unwrapped start on every row. */
  function ColumnPosition(startX: nat, c: nat): nat {
    if c == 0 then WrapColumn(startX) else WrapColumn(ColumnPosition(startX, c - 1) + 1)
  }

  /** `(line >> (7 - c)) & 1`: column `c` of a sprite row, most significant
      bit first, shifting one place per column still to the right of `c`. */
  function PixelBit(line: u8, c: nat): (b: nat)
    requires c < 8
    ensures b < 2
    decreases 7 - c
  {
    if c == 7 then line % 2 else PixelBit(line / 2, c + 1)
  }

  /** Whether column `c` of a sprite row is set. */
  function SpriteBit(line: u8, c: nat): bool
    requires c < 8
  {
    PixelBit(line, c) == 1
  }

  /** The pixel index `64 * y + x` at which column `c` of sprite row `r` is drawn. */
  function PixelOf(startX: nat, startY: nat, r: nat, c: nat): nat {
    RowPosition(startY, r) * 64 + ColumnPosition(startX, c)
  }

  /** One pixel visited by a sprite draw: the pixel index `64 * y + x` and the sprite bit drawn there. */
  datatype Plot = Plot(pixel: nat, on: bool)

  /** The pixels a sprite with these rows visits, in drawing order (row by row, column by column). */
  function Plots(rows: seq<u8>, startX: nat, startY: nat): (ps: seq<Plot>)
    ensures |ps| == 8 * |rows|
  {
    seq(8 * |rows|, k requires 0 <= k < 8 * |rows| =>
      Plot(PixelOf(startX, startY, k / 8, k % 8), SpriteBit(rows[k / 8], k % 8)))
  }

  /** The position of column `c` of row `r` in the drawing order. */
  function PlotIndex(r: nat, c: nat): nat {
    8 * r + c
  }

  /** `ps` lists the pixels of sprite `rows` in drawing order: row by row, column by column. */
  predicate LaidOut(ps: seq<Plot>, rows: seq<u8>, startX: nat, startY: nat) {
    |ps| == 8 * |rows| &&
    forall r, c :: 0 <= r < |rows| && 0 <= c < 8 ==>
      PlotIndex(r, c) < |ps| && ps[PlotIndex(r, c)] == Plot(PixelOf(startX, startY, r, c), SpriteBit(rows[r], c))
  }

  /** Plot `8 * r + c` is column `c` of row `r`. */
  lemma PlotLayout(rows: seq<u8>, startX: nat, startY: nat)
    ensures LaidOut(Plots(rows, startX, startY), rows, startX, startY)
  {
    forall r, c | 0 <= r < |rows| && 0 <= c < 8
      ensures PlotIndex(r, c) < 8 * |rows|
      ensures Plots(rows, startX, startY)[PlotIndex(r, c)] == Plot(PixelOf(startX, startY, r, c), SpriteBit(rows[r], c))
    {
      assert PlotIndex(r, c) / 8 == r && PlotIndex(r, c) % 8 == c;
    }
  }

  /** Every visited pixel lies inside the framebuffer (its three bytes are below `VramSize`). */
  predicate OnScreen(ps: seq<Plot>) {
    forall k :: 0 <= k < |ps| ==> ps[k].pixel < PixelCount
  }

  /** No pixel is visited twice. */
  predicate Distinct(ps: seq<Plot>) {
    forall k, l :: 0 <= k < l < |ps| ==> ps[k].pixel != ps[l].pixel
  }

  /** The pixel is on: its first byte is 255, so `byte / 255 == 1`. */
  predicate Lit(v: seq<u8>, p: nat)
    requires |v| == VramSize && p < PixelCount
  {
    v[3 * p] / 255 == 1
  }

  /** The pixel's three bytes are equal and either all 0 or all 255. */
  predicate Uniform(v: seq<u8>, p: nat)
    requires |v| == VramSize && p < PixelCount
  {
    var b := 3 * p;
    v[b] == v[b + 1] == v[b + 2] && (v[b] == 0 || v[b] == 255)
  }

  /** The framebuffer invariant: every pixel is uniformly off or on. */
  predicate Monochrome(v: seq<u8>)
    requires |v| == VramSize
  {
    forall p: nat :: p < PixelCount ==> Uniform(v, p)
  }

  /** Drawing one sprite pixel: the three bytes become `(screen ^ bit) * 255`.
      A pixel past the framebuffer is left alone here; DXYN never reaches one,
      since it halts before drawing a sprite that is not `SpriteOnScreen`. */
  function Toggle(v: seq<u8>, pl: Plot): (r: seq<u8>)
    requires |v| == VramSize
    ensures |r| == VramSize
  {
    if pl.pixel < PixelCount then
      var b := 3 * pl.pixel;
      var value := if Lit(v, pl.pixel) != pl.on then 255 else 0;
      v[b := value][b + 1 := value][b + 2 := value]
    else v
  }

  /** A set sprite bit landing on a pixel that is on. */
  predicate Hits(v: seq<u8>, pl: Plot)
    requires |v| == VramSize
  {
    pl.on && pl.pixel < PixelCount && Lit(v, pl.pixel)
  }

  /** The framebuffer after drawing the first `n` plots one after the other. */
  function Draw(v: seq<u8>, ps: seq<Plot>, n: nat): (r: seq<u8>)
    requires |v| == VramSize && n <= |ps|
    ensures |r| == VramSize
  {
    if n == 0 then v else Toggle(Draw(v, ps, n - 1), ps[n - 1])
  }

  /** The collision flag of DXYN after `n` plots: some set bit landed on a pixel
      that was on at the moment it was drawn (earlier pixels of the same sprite included). */
  predicate Collision(v: seq<u8>, ps: seq<Plot>, n: nat)
    requires |v| == VramSize && n <= |ps|
  {
    n > 0 && (Collision(v, ps, n - 1) || Hits(Draw(v, ps, n - 1), ps[n - 1]))
  }

  /** Whether the first `n` plots toggle pixel `p` an odd number of times. */
  predicate Flips(ps: seq<Plot>, p: nat, n: nat)
    requires n <= |ps|
  {
    n > 0 && (Flips(ps, p, n - 1) != (ps[n - 1].pixel == p && ps[n - 1].on))
  }

  /** Every pixel of sprite row `r` lies inside the framebuffer. */
  predicate RowOnScreen(startX: nat, startY: nat, r: nat) {
    forall c :: 0 <= c < 8 ==> PixelOf(startX, startY, r, c) < PixelCount
  }

  /** Every pixel of the sprite lies inside the framebuffer. */
  predicate SpriteOnScreen(rows: seq<u8>, startX: nat, startY: nat) {
    forall r :: 0 <= r < |rows| ==> RowOnScreen(startX, startY, r)
  }

  /** The framebuffer after the first `n` columns of sprite row `r`, whose byte is `line`. */
  function DrawRow(v: seq<u8>, line: u8, startX: nat, startY: nat, r: nat, n: nat): (w: seq<u8>)
    requires |v| == VramSize && n <= SpriteWidth
    ensures |w| == VramSize
  {
    if n == 0 then v
    else Toggle(DrawRow(v, line, startX, startY, r, n - 1),
                Plot(PixelOf(startX, startY, r, n - 1), SpriteBit(line, n - 1)))
  }

  /** Whether one of the first `n` columns of row `r` hit a lit pixel. */
  predicate RowCollision(v: seq<u8>, line: u8, startX: nat, startY: nat, r: nat, n: nat)
    requires |v| == VramSize && n <= SpriteWidth
  {
    n > 0 &&
    (RowCollision(v, line, startX, startY, r, n - 1) ||
     Hits(DrawRow(v, line, startX, startY, r, n - 1),
          Plot(PixelOf(startX, startY, r, n - 1), SpriteBit(line, n - 1))))
  }

  /** The framebuffer after the first `n` rows of the sprite. */
  function DrawRows(v: seq<u8>, rows: seq<u8>, startX: nat, startY: nat, n: nat): (w: seq<u8>)
    requires |v| == VramSize && n <= |rows|
    ensures |w| == VramSize
  {
    if n == 0 then v
    else DrawRow(DrawRows(v, rows, startX, startY, n - 1), rows[n - 1], startX, startY, n - 1, SpriteWidth)
  }

  /** The collision flag of DXYN after the first `n` rows: some set bit landed
      on a pixel that was on when it was drawn (earlier pixels of the same sprite included). */
  predicate RowsCollision(v: seq<u8>, rows: seq<u8>, startX: nat, startY: nat, n: nat)
    requires |v| == VramSize && n <= |rows|
  {
    n > 0 &&
    (RowsCollision(v, rows, startX, startY, n - 1) ||
     RowCollision(DrawRows(v, rows, startX, startY, n - 1), rows[n - 1], startX, startY, n - 1, SpriteWidth))
  }

  /** A sprite whose plots are all on screen is on screen row by row. */
  lemma OnScreenRows(rows: seq<u8>, startX: nat, startY: nat)
    requires OnScreen(Plots(rows, startX, startY))
    ensures SpriteOnScreen(rows, startX, startY)
  {
    PlotLayout(rows, startX, startY);
    forall r, c | 0 <= r < |rows| && 0 <= c < 8
      ensures PixelOf(startX, startY, r, c) < PixelCount
    {
      assert Plots(rows, startX, startY)[PlotIndex(r, c)].pixel == PixelOf(startX, startY, r, c);
    }
  }

  /** A sprite on screen row by row has all its plots on screen. */
  lemma RowsOnScreen(rows: seq<u8>, startX: nat, startY: nat)
    requires SpriteOnScreen(rows, startX, startY)
    ensures OnScreen(Plots(rows, startX, startY))
  {
    var ps := Plots(rows, startX, startY);
    forall k | 0 <= k < |ps|
      ensures ps[k].pixel < PixelCount
    {
      assert RowOnScreen(startX, startY, k / 8);
    }
  }

  /** One more column of a row is one more plot, when the two agree so far. */
  lemma DrawRowStep(w: seq<u8>, line: u8, startX: nat, startY: nat, r: nat, n: nat,
                    v: seq<u8>, ps: seq<Plot>, k: nat)
    requires |w| == VramSize && 0 < n <= SpriteWidth && |v| == VramSize && k < |ps|
    requires DrawRow(w, line, startX, startY, r, n - 1) == Draw(v, ps, k)
    requires ps[k] == Plot(PixelOf(startX, startY, r, n - 1), SpriteBit(line, n - 1))
    ensures DrawRow(w, line, startX, startY, r, n) == Draw(v, ps, k + 1)
    ensures RowCollision(w, line, startX, startY, r, n) ==
            (RowCollision(w, line, startX, startY, r, n - 1) || Hits(Draw(v, ps, k), ps[k]))
  {
  }

  /** Drawing row `r` column by column is drawing plots `8 * r` onwards, and
      the collision flag gathered on the way is the plot-by-plot one. */
  lemma {:induction false} RowIsPlots(v: seq<u8>, rows: seq<u8>, ps: seq<Plot>, startX: nat, startY: nat,
                                      r: nat, n: nat)
    requires |v| == VramSize && LaidOut(ps, rows, startX, startY) && r < |rows| && n <= SpriteWidth
    ensures DrawRow(Draw(v, ps, 8 * r), rows[r], startX, startY, r, n) == Draw(v, ps, 8 * r + n)
    ensures (Collision(v, ps, 8 * r) || RowCollision(Draw(v, ps, 8 * r), rows[r], startX, startY, r, n))
              == Collision(v, ps, 8 * r + n)
    decreases n
  {
    if n > 0 {
      var k := PlotIndex(r, n - 1);
      assert k == 8 * r + (n - 1) && k + 1 == 8 * r + n;
      RowIsPlots(v, rows, ps, startX, startY, r, n - 1);
      DrawRowStep(Draw(v, ps, 8 * r), rows[r], startX, startY, r, n, v, ps, k);
    }
  }

  /** Drawing the first `n` rows of the sprite row by row is drawing their plots
      in order, with the same collision flag. */
  lemma {:induction false} RowsArePlots(v: seq<u8>, rows: seq<u8>, ps: seq<Plot>, startX: nat, startY: nat, n: nat)
    requires |v| == VramSize && LaidOut(ps, rows, startX, startY) && n <= |rows|
    ensures DrawRows(v, rows, startX, startY, n) == Draw(v, ps, 8 * n)
    ensures RowsCollision(v, rows, startX, startY, n) == Collision(v, ps, 8 * n)
    decreases n
  {
    if n > 0 {
      assert 8 * (n - 1) + SpriteWidth == 8 * n;
      RowsArePlots(v, rows, ps, startX, startY, n - 1);
      RowIsPlots(v, rows, ps, startX, startY, n - 1, SpriteWidth);
    }
  }

  /** The row-by-row drawing of DXYN is the in-order drawing of the sprite's plots. */
  lemma SpriteIsPlots(v: seq<u8>, rows: seq<u8>, startX: nat, startY: nat)
    requires |v| == VramSize
    ensures DrawRows(v, rows, startX, startY, |rows|) == Draw(v, Plots(rows, startX, startY), 8 * |rows|)
    ensures RowsCollision(v, rows, startX, startY, |rows|) == Collision(v, Plots(rows, startX, startY), 8 * |rows|)
  {
    PlotLayout(rows, startX, startY);
    RowsArePlots(v, rows, Plots(rows, startX, startY), startX, startY, |rows|);
  }

  /** Pixel `(x, y)` is bytes `3 * (64 * y + x)` to `3 * (64 * y + x) + 2`; distinct pixels use disjoint bytes. */
  lemma PixelLayout(x: nat, y: nat, x': nat, y': nat)
    requires x < ScreenWidth && y < ScreenHeight && x' < ScreenWidth && y' < ScreenHeight
    requires (x, y) != (x', y')
    ensures 3 * (64 * y + x) + 2 < VramSize
    ensures var p, p' := 64 * y + x, 64 * y' + x';
            p != p' && (3 * p + 2 < 3 * p' || 3 * p' + 2 < 3 * p)
  {
    var p, p' := 64 * y + x, 64 * y' + x';
    if y == y' {
      assert p != p';
    } else if y < y' {
      assert p < 64 * (y + 1) <= 64 * y' <= p';
    } else {
      assert p' < 64 * (y' + 1) <= 64 * y <= p;
    }
  }

  /** The blank screen satisfies the framebuffer invariant. */
  lemma BlankIsMonochrome()
    ensures Monochrome(Blank())
  {
  }

  /** Toggling a pixel makes its three bytes uniform, sets it on exactly when
      the screen and the sprite bit differ, and leaves every other byte alone. */
  lemma ToggleEffect(v: seq<u8>, pl: Plot)
    requires |v| == VramSize && pl.pixel < PixelCount
    ensures Uniform(Toggle(v, pl), pl.pixel)
    ensures Lit(Toggle(v, pl), pl.pixel) == (Lit(v, pl.pixel) != pl.on)
    ensures forall j :: 0 <= j < VramSize && j / 3 != pl.pixel ==> Toggle(v, pl)[j] == v[j]
  {
  }

  /** Every pixel the first `n` plots touch ends with three equal bytes, all 0
      or all 255, whatever the framebuffer held; bytes of untouched pixels keep their values. */
  lemma {:induction false} DrawTouchedPixelsUniform(v: seq<u8>, ps: seq<Plot>, n: nat)
    requires |v| == VramSize && OnScreen(ps) && n <= |ps|
    ensures forall k :: 0 <= k < n ==> Uniform(Draw(v, ps, n), ps[k].pixel)
    ensures forall j :: 0 <= j < VramSize && (forall k :: 0 <= k < n ==> ps[k].pixel != j / 3) ==>
              Draw(v, ps, n)[j] == v[j]
  {
    if n > 0 {
      var last := ps[n - 1];
      DrawTouchedPixelsUniform(v, ps, n - 1);
      ToggleEffect(Draw(v, ps, n - 1), last);
      forall k | 0 <= k < n
        ensures Uniform(Draw(v, ps, n), ps[k].pixel)
      {
        if ps[k].pixel != last.pixel {
          var b := 3 * ps[k].pixel;
          assert b / 3 == ps[k].pixel && (b + 1) / 3 == ps[k].pixel && (b + 2) / 3 == ps[k].pixel;
        }
      }
    }
  }

  /** Drawing keeps the framebuffer invariant. */
  lemma DrawPreservesMonochrome(v: seq<u8>, ps: seq<Plot>, n: nat)
    requires |v| == VramSize && OnScreen(ps) && n <= |ps| && Monochrome(v)
    ensures Monochrome(Draw(v, ps, n))
  {
    DrawTouchedPixelsUniform(v, ps, n);
    forall p: nat | p < PixelCount
      ensures Uniform(Draw(v, ps, n), p)
    {
      if exists k :: 0 <= k < n && ps[k].pixel == p {
      } else {
        var b := 3 * p;
        assert b / 3 == p && (b + 1) / 3 == p && (b + 2) / 3 == p;
        assert Uniform(v, p);
      }
    }
  }

  /** On a monochrome screen a pixel is on after drawing exactly when it was on
      before or the plots toggle it an odd number of times, but not both. */
  lemma {:induction false} DrawPixelwise(v: seq<u8>, ps: seq<Plot>, n: nat, p: nat)
    requires |v| == VramSize && OnScreen(ps) && n <= |ps| && Monochrome(v) && p < PixelCount
    ensures Lit(Draw(v, ps, n), p) == (Lit(v, p) != Flips(ps, p, n))
  {
    if n > 0 {
      var last := ps[n - 1];
      DrawPixelwise(v, ps, n - 1, p);
      ToggleEffect(Draw(v, ps, n - 1), last);
      if last.pixel != p {
        var b := 3 * p;
        assert b / 3 == p;
      }
    }
  }

  /** Two uniform pixels that are both on or both off have the same bytes. */
  lemma SameShade(v: seq<u8>, w: seq<u8>, j: nat)
    requires |v| == VramSize && |w| == VramSize && j < VramSize
    requires Uniform(v, j / 3) && Uniform(w, j / 3) && Lit(v, j / 3) == Lit(w, j / 3)
    ensures v[j] == w[j]
  {
    var p := j / 3;
    assert 3 * p <= j <= 3 * p + 2;
  }

  /** Drawing the same sprite twice at the same place restores a monochrome framebuffer exactly. */
  lemma DrawTwiceRestores(v: seq<u8>, ps: seq<Plot>)
    requires |v| == VramSize && OnScreen(ps) && Monochrome(v)
    ensures Draw(Draw(v, ps, |ps|), ps, |ps|) == v
  {
    var d := Draw(v, ps, |ps|);
    DrawPreservesMonochrome(v, ps, |ps|);
    DrawPreservesMonochrome(d, ps, |ps|);
    var dd := Draw(d, ps, |ps|);
    forall j | 0 <= j < VramSize
      ensures dd[j] == v[j]
    {
      var p := j / 3;
      DrawPixelwise(v, ps, |ps|, p);
      DrawPixelwise(d, ps, |ps|, p);
      SameShade(v, dd, j);
    }
  }

  /** A pixel none of the first `n` plots visits is never flipped. */
  lemma {:induction false} UnvisitedNotFlipped(ps: seq<Plot>, p: nat, n: nat)
    requires n <= |ps|
    requires forall k :: 0 <= k < n ==> ps[k].pixel != p
    ensures !Flips(ps, p, n)
  {
    if n > 0 {
      UnvisitedNotFlipped(ps, p, n - 1);
    }
  }

  /** When a sprite visits no pixel twice, the collision flag is set exactly when
      some set bit lands on a pixel that was on before the draw. */
  lemma {:induction false} CollisionOnDistinctPixels(v: seq<u8>, ps: seq<Plot>, n: nat)
    requires |v| == VramSize && OnScreen(ps) && n <= |ps| && Monochrome(v) && Distinct(ps)
    ensures Collision(v, ps, n) <==> exists k :: 0 <= k < n && ps[k].on && Lit(v, ps[k].pixel)
  {
    if n > 0 {
      var last := ps[n - 1];
      CollisionOnDistinctPixels(v, ps, n - 1);
      UnvisitedNotFlipped(ps, last.pixel, n - 1);
      DrawPixelwise(v, ps, n - 1, last.pixel);
      if exists k :: 0 <= k < n && ps[k].on && Lit(v, ps[k].pixel) {
        var k :| 0 <= k < n && ps[k].on && Lit(v, ps[k].pixel);
        if k < n - 1 {
          assert Collision(v, ps, n - 1);
        }
      }
    }
  }

  /** Without wrap-around (the whole sprite fits on the screen) row `r` is drawn at `startY + r`. */
  lemma {:induction false} RowPositionUnwrapped(startY: nat, r: nat)
    requires startY + r <= ScreenHeight
    ensures RowPosition(startY, r) == startY + r
  {
    if r > 0 {
      RowPositionUnwrapped(startY, r - 1);
    }
  }

  /** Without wrap-around column `c` is drawn at `startX + c`. */
  lemma {:induction false} ColumnPositionUnwrapped(startX: nat, c: nat)
    requires startX + c <= ScreenWidth
    ensures ColumnPosition(startX, c) == startX + c
  {
    if c > 0 {
      ColumnPositionUnwrapped(startX, c - 1);
    }
  }

  /** A sprite placed fully inside the screen visits pixel `(startX + c, startY + r)`
      for row `r` and column `c`: every pixel is on screen and none is visited twice. */
  lemma PlotsWithoutWrap(rows: seq<u8>, startX: nat, startY: nat)
    requires startX + 8 <= ScreenWidth && startY + |rows| <= ScreenHeight
    ensures forall k :: 0 <= k < 8 * |rows| ==>
              Plots(rows, startX, startY)[k].pixel == (startY + k / 8) * 64 + startX + k % 8
    ensures OnScreen(Plots(rows, startX, startY))
    ensures Distinct(Plots(rows, startX, startY))
  {
    var ps := Plots(rows, startX, startY);
    forall k | 0 <= k < 8 * |rows|
      ensures ps[k].pixel == (startY + k / 8) * 64 + startX + k % 8
      ensures ps[k].pixel < PixelCount
    {
      RowPositionUnwrapped(startY, k / 8);
      ColumnPositionUnwrapped(startX, k % 8);
      assert startY + k / 8 < ScreenHeight;
      assert (startY + k / 8) * 64 <= (ScreenHeight - 1) * 64;
    }
    forall k, l | 0 <= k < l < |ps|
      ensures ps[k].pixel != ps[l].pixel
    {
      PixelLayout(startX + k % 8, startY + k / 8, startX + l % 8, startY + l / 8);
    }
  }

  /** Plot `8 * r + c` of a sprite that fits on the screen is bit `c` of row
      `r`, at `(startX + c, startY + r)`. */
  lemma UnwrappedPlot(rows: seq<u8>, startX: nat, startY: nat, r: nat, c: nat)
    requires startX + 8 <= ScreenWidth && startY + |rows| <= ScreenHeight
    requires r < |rows| && c < 8
    ensures PlotIndex(r, c) < 8 * |rows|
    ensures Plots(rows, startX, startY)[PlotIndex(r, c)] == Plot(64 * (startY + r) + startX + c, SpriteBit(rows[r], c))
  {
    PlotLayout(rows, startX, startY);
    RowPositionUnwrapped(startY, r);
    ColumnPositionUnwrapped(startX, c);
  }

  /** A set bit of an unwrapped sprite on a lit pixel, found by plot index or by row and column. */
  lemma LitPlotIsLitCell(v: seq<u8>, rows: seq<u8>, startX: nat, startY: nat)
    requires |v| == VramSize && startX + 8 <= ScreenWidth && startY + |rows| <= ScreenHeight
    ensures var ps := Plots(rows, startX, startY);
            (exists k :: 0 <= k < |ps| && ps[k].on && ps[k].pixel < PixelCount && Lit(v, ps[k].pixel)) <==>
            (exists r, c :: 0 <= r < |rows| && 0 <= c < 8 && SpriteBit(rows[r], c) &&
                            Lit(v, 64 * (startY + r) + startX + c))
  {
    var ps := Plots(rows, startX, startY);
    if exists k :: 0 <= k < |ps| && ps[k].on && ps[k].pixel < PixelCount && Lit(v, ps[k].pixel) {
      var k :| 0 <= k < |ps| && ps[k].on && ps[k].pixel < PixelCount && Lit(v, ps[k].pixel);
      var r, c := k / 8, k % 8;
      UnwrappedPlot(rows, startX, startY, r, c);
      assert PlotIndex(r, c) == k;
    }
    if exists r, c :: 0 <= r < |rows| && 0 <= c < 8 && SpriteBit(rows[r], c) && Lit(v, 64 * (startY + r) + startX + c) {
      var r, c :| 0 <= r < |rows| && 0 <= c < 8 && SpriteBit(rows[r], c) && Lit(v, 64 * (startY + r) + startX + c);
      UnwrappedPlot(rows, startX, startY, r, c);
    }
  }

  /** For a sprite that fits on the screen without wrapping, the collision flag
      is set exactly when some set bit of the sprite lands on a pixel that was on. */
  lemma CollisionUnwrapped(v: seq<u8>, rows: seq<u8>, startX: nat, startY: nat)
    requires |v| == VramSize && Monochrome(v)
    requires startX + 8 <= ScreenWidth && startY + |rows| <= ScreenHeight
    ensures SpriteOnScreen(rows, startX, startY)
    ensures RowsCollision(v, rows, startX, startY, |rows|) <==>
              exists r, c :: 0 <= r < |rows| && 0 <= c < 8 && SpriteBit(rows[r], c) &&
                             Lit(v, 64 * (startY + r) + startX + c)
  {
    var ps := Plots(rows, startX, startY);
    PlotsWithoutWrap(rows, startX, startY);
    OnScreenRows(rows, startX, startY);
    SpriteIsPlots(v, rows, startX, startY);
    CollisionOnDistinctPixels(v, ps, |ps|);
    LitPlotIsLitCell(v, rows, startX, startY);
  }

  /** How many times the width has been subtracted from column `c`: the
      column is `startX + c` less a whole number of screen widths. */
  ghost function ColumnWraps(startX: nat, c: nat): (j: nat)
    ensures ColumnPosition(startX, c) + ScreenWidth * j == startX + c
  {
    if c == 0 then (if startX > ScreenWidth then 1 else 0)
    else ColumnWraps(startX, c - 1) + (if ColumnPosition(startX, c - 1) + 1 > ScreenWidth then 1 else 0)
  }

  /** How many times the height has been subtracted from row `r`. */
  ghost function RowWraps(startY: nat, r: nat): (j: nat)
    ensures RowPosition(startY, r) + ScreenHeight * j == startY + r
  {
    if r == 0 then (if startY > ScreenHeight then 1 else 0)
    else RowWraps(startY, r - 1) + (if RowPosition(startY, r - 1) + 1 > ScreenHeight then 1 else 0)
  }

  /** The arithmetic of `CellsApart`: positions that differ from the
      unwrapped ones by whole screen widths and heights, the same column for
      the same `c`, meet only when the cells are the same. */
  lemma WrappedCellsApart(x: int, y: int, x': int, y': int, a: int, a': int, b: int, b': int,
                          c: nat, c': nat, r: nat, r': nat)
    requires c < 8 && c' < 8 && r < ScreenHeight && r' < ScreenHeight && (r, c) != (r', c')
    requires x + 64 * a - c == x' + 64 * a' - c'
    requires y + 32 * b - r == y' + 32 * b' - r'
    requires c == c' ==> x == x'
    ensures 64 * y + x != 64 * y' + x'
  {
  }

  /** Two different cells of a sprite of at most 32 rows are drawn at two
      different pixels, wherever the sprite is placed and however it wraps. */
  lemma CellsApart(startX: nat, startY: nat, r: nat, c: nat, r': nat, c': nat)
    requires c < 8 && c' < 8 && r < ScreenHeight && r' < ScreenHeight && (r, c) != (r', c')
    ensures PixelOf(startX, startY, r, c) != PixelOf(startX, startY, r', c')
  {
    WrappedCellsApart(ColumnPosition(startX, c), RowPosition(startY, r),
                      ColumnPosition(startX, c'), RowPosition(startY, r'),
                      ColumnWraps(startX, c), ColumnWraps(startX, c'), RowWraps(startY, r), RowWraps(startY, r'),
                      c, c', r, r');
  }

  /** A sprite of at most 32 rows never visits a pixel twice, even when it wraps. */
  lemma SpriteVisitsDistinct(rows: seq<u8>, startX: nat, startY: nat)
    requires |rows| <= ScreenHeight
    ensures Distinct(Plots(rows, startX, startY))
  {
    var ps := Plots(rows, startX, startY);
    forall k, l | 0 <= k < l < |ps|
      ensures ps[k].pixel != ps[l].pixel
    {
      CellsApart(startX, startY, k / 8, k % 8, l / 8, l % 8);
    }
  }

  /** For any sprite of at most 32 rows whose pixels are all on the screen,
      wrapped or not, the collision flag is set exactly when some set bit of
      the sprite lands on a pixel that was on before the draw. */
  lemma CollisionDetectsHits(v: seq<u8>, rows: seq<u8>, startX: nat, startY: nat)
    requires |v| == VramSize && Monochrome(v) && |rows| <= ScreenHeight
    requires SpriteOnScreen(rows, startX, startY)
    ensures var ps := Plots(rows, startX, startY);
            RowsCollision(v, rows, startX, startY, |rows|) <==> exists k :: 0 <= k < |ps| && Hits(v, ps[k])
  {
    var ps := Plots(rows, startX, startY);
    SpriteVisitsDistinct(rows, startX, startY);
    RowsOnScreen(rows, startX, startY);
    SpriteIsPlots(v, rows, startX, startY);
    CollisionOnDistinctPixels(v, ps, |ps|);
  }

  /** The `> 64` test lets column 64 through: a sprite whose last column falls
      just past the right edge draws that pixel at column 0 of the NEXT row,
      not of its own row as a modulo-64 wrap would. */
  lemma RightEdgeSpillsToNextRow()
    ensures PixelOf(57, 0, 0, 7) == 64 * 1 + 0
  {
    assert ColumnPosition(57, 7) == 64;
  }

  /** The `> 32` test lets row 32 through: a two-row sprite at row 31 draws its
      second row past the end of the framebuffer. */
  lemma BottomEdgeLeavesScreen()
    ensures !SpriteOnScreen([0x80, 0x80], 0, 31)
  {
    assert RowPosition(31, 1) == 32;
    assert !RowOnScreen(0, 31, 1) by {
      assert PixelOf(0, 31, 1, 0) == 32 * 64;
    }
  }
}
