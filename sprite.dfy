/** DXYN, the sprite draw of the current engine. `DrawRows`/`DrawRow` follow the
    engine's nested row and column loops step by step; `Lit` says declaratively which
    pixels a sprite covers, and the lemmas below prove that the loops toggle exactly those
    pixels and raise the collision flag exactly when one of them was set. */
module Sprite {
  import opened Word
  import opened MachineState

  /** `byte & (0x80 >> x) != 0`: bit x of a sprite row, counted from the left. */
  predicate SpriteBit(b: u8, x: nat)
    requires x < 8
  {
    (b as bv8) & ((0x80 as bv8) >> x) != 0
  }

  /** `*pixel ^= 1` on a byte: the lowest bit flips, the others stay. */
  function Toggle(p: u8): (q: u8)
    ensures q / 2 == p / 2 && q % 2 != p % 2
  {
    if p % 2 == 0 then p + 1 else p - 1
  }

  /** The sprite wraps around both edges when its anchor is already off the screen, and
      is clipped at the right and bottom edges otherwise. */
  predicate Wraps(vx: u8, vy: u8)
  {
    vx >= ScreenWidth || vy >= ScreenHeight
  }

  /** How many sprite bytes the row loop reads: a clipped sprite also reads the byte of
      the first row past the bottom edge before it breaks. */
  function RowsRead(n: Nibble, vx: u8, vy: u8): nat
  {
    if Wraps(vx, vy) then n else Min(n, ScreenHeight - vy + 1)
  }

  /** Every byte the row loop reads is in memory. */
  predicate Readable(memory: seq<u8>, base: nat, n: Nibble, vx: u8, vy: u8)
  {
    RowsRead(n, vx, vy) == 0 || base + RowsRead(n, vx, vy) <= |memory|
  }

  /** The column loop for one sprite row `b` on screen row `row`, from column offset k on;
      `hit` is the collision flag so far. */
  function DrawRow(screen: seq<u8>, b: u8, row: nat, vx: u8, wrap: bool, k: nat, hit: bool): (r: (seq<u8>, bool))
    requires |screen| == ScreenSize && row < ScreenHeight && k <= 8
    ensures |r.0| == ScreenSize
    decreases 8 - k
  {
    if k == 8 then (screen, hit)
    else
      var col := vx + k;
      if !wrap && col >= ScreenWidth then (screen, hit)
      else
        var p := PixelIndex(row, if wrap then col % ScreenWidth else col);
        if SpriteBit(b, k) then
          var before := screen[p];
          var after := Toggle(before);
          DrawRow(screen[p := after], b, row, vx, wrap, k + 1, hit || (before == 1 && after == 0))
        else
          DrawRow(screen, b, row, vx, wrap, k + 1, hit)
  }

  /** The row loop from sprite row y on, reading row y from `memory[base + y]`. */
  function DrawRows(screen: seq<u8>, memory: seq<u8>, base: nat, n: Nibble, vx: u8, vy: u8, y: nat, hit: bool): (r: (seq<u8>, bool))
    requires |screen| == ScreenSize && y <= n && Readable(memory, base, n, vx, vy)
    ensures |r.0| == ScreenSize
    decreases n - y
  {
    if y == n then (screen, hit)
    else
      var wrap := Wraps(vx, vy);
      var row := vy + y;
      if !wrap && row >= ScreenHeight then (screen, hit)
      else
        var drawn := DrawRow(screen, memory[base + y], if wrap then row % ScreenHeight else row, vx, wrap, 0, hit);
        DrawRows(drawn.0, memory, base, n, vx, vy, y + 1, drawn.1)
  }

  /** The whole draw: the new screen, and whether some pixel was erased. */
  function Draw(screen: seq<u8>, memory: seq<u8>, base: nat, n: Nibble, vx: u8, vy: u8): (r: (seq<u8>, bool))
    requires |screen| == ScreenSize && Readable(memory, base, n, vx, vy)
    ensures |r.0| == ScreenSize
    ensures n == 0 ==> r == (screen, false)
  {
    DrawRows(screen, memory, base, n, vx, vy, 0, false)
  }

  /** Which sprite column lands on screen column c (8 or more, or negative, if none). */
  function ColumnOffset(vx: u8, wrap: bool, c: int): int
  {
    if wrap then (c - vx) % ScreenWidth else c - vx
  }

  /** Which sprite row lands on screen row r (n or more, or negative, if none). */
  function RowOffset(vy: u8, wrap: bool, r: int): int
  {
    if wrap then (r - vy) % ScreenHeight else r - vy
  }

  /** Reference definition: pixel (r, c) lies under a set bit of the n-row sprite at
      `memory[base..]` anchored at (vx, vy), wrapping or clipping as `Wraps` says. */
  predicate Lit(memory: seq<u8>, base: nat, n: Nibble, vx: u8, vy: u8, r: nat, c: nat)
    requires Readable(memory, base, n, vx, vy) && r < ScreenHeight && c < ScreenWidth
  {
    var wrap := Wraps(vx, vy);
    var dy := RowOffset(vy, wrap, r);
    var dx := ColumnOffset(vx, wrap, c);
    0 <= dy < n && 0 <= dx < 8 && SpriteBit(memory[base + dy], dx)
  }

  /** Screen column c receives sprite column k of the row exactly when c is where the
      column loop puts it. */
  lemma ColumnOffsetOf(vx: u8, wrap: bool, k: nat, c: nat)
    requires k < 8 && c < ScreenWidth && (wrap || vx + k < ScreenWidth)
    ensures ColumnOffset(vx, wrap, c) == k <==> c == (if wrap then (vx + k) % ScreenWidth else vx + k)
  {
    if wrap {
      var col := (vx + k) % ScreenWidth;
      var q := (vx + k) / ScreenWidth;
      assert vx + k == ScreenWidth * q + col;
      if c == col {
        assert c - vx == ScreenWidth * (-q) + k;
      }
      if (c - vx) % ScreenWidth == k {
        var t := (c - vx) / ScreenWidth;
        assert vx + k == ScreenWidth * (-t) + c;
      }
    }
  }

  /** Screen row r receives sprite row y exactly when r is where the row loop puts it. */
  lemma RowOffsetOf(vy: u8, wrap: bool, y: nat, r: nat)
    requires y < 16 && r < ScreenHeight && (wrap || vy + y < ScreenHeight)
    ensures RowOffset(vy, wrap, r) == y <==> r == (if wrap then (vy + y) % ScreenHeight else vy + y)
  {
    if wrap {
      var row := (vy + y) % ScreenHeight;
      var q := (vy + y) / ScreenHeight;
      assert vy + y == ScreenHeight * q + row;
      if r == row {
        assert r - vy == ScreenHeight * (-q) + y;
      }
      if (r - vy) % ScreenHeight == y {
        var t := (r - vy) / ScreenHeight;
        assert vy + y == ScreenHeight * (-t) + r;
      }
    }
  }

  /** Sprite columns k..7 of row `b` set in the column loop land on screen column c. */
  predicate ColumnLit(b: u8, vx: u8, wrap: bool, k: nat, c: nat)
  {
    var dx := ColumnOffset(vx, wrap, c);
    k <= dx < 8 && SpriteBit(b, dx)
  }

  /** The column loop toggles exactly the pixels of its row under set sprite columns
      k..7. */
  lemma {:induction false} DrawRowPixels(screen: seq<u8>, b: u8, row: nat, vx: u8, wrap: bool, k: nat, hit: bool)
    requires |screen| == ScreenSize && row < ScreenHeight && k <= 8
    ensures forall r, c :: 0 <= r < ScreenHeight && 0 <= c < ScreenWidth ==>
      Pixel(DrawRow(screen, b, row, vx, wrap, k, hit).0, r, c)
        == if r == row && ColumnLit(b, vx, wrap, k, c) then Toggle(Pixel(screen, r, c)) else Pixel(screen, r, c)
    decreases 8 - k
  {
    if k == 8 {
    } else if !wrap && vx + k >= ScreenWidth {
      assert forall c :: 0 <= c < ScreenWidth ==> !ColumnLit(b, vx, wrap, k, c);
    } else {
      var col := if wrap then (vx + k) % ScreenWidth else vx + k;
      var k1 := k + 1;
      forall c | 0 <= c < ScreenWidth
        ensures ColumnOffset(vx, wrap, c) == k <==> c == col
      {
        ColumnOffsetOf(vx, wrap, k, c);
      }
      var p := PixelIndex(row, col);
      var s1 := if SpriteBit(b, k) then screen[p := Toggle(screen[p])] else screen;
      var h1 := if SpriteBit(b, k) then hit || (screen[p] == 1 && Toggle(screen[p]) == 0) else hit;
      assert DrawRow(screen, b, row, vx, wrap, k, hit) == DrawRow(s1, b, row, vx, wrap, k1, h1);
      DrawRowPixels(s1, b, row, vx, wrap, k1, h1);
      forall r, c | 0 <= r < ScreenHeight && 0 <= c < ScreenWidth
        ensures Pixel(s1, r, c) == if r == row && c == col && SpriteBit(b, k) then Toggle(Pixel(screen, r, c)) else Pixel(screen, r, c)
        ensures ColumnLit(b, vx, wrap, k, c) <==> (c == col && SpriteBit(b, k)) || ColumnLit(b, vx, wrap, k1, c)
        ensures c == col ==> !ColumnLit(b, vx, wrap, k1, c)
      {
      }
    }
  }

  /** Pixel `c` of screen row `row` was 1 and lies under a set sprite column k..7. */
  predicate RowHitAt(screen: seq<u8>, b: u8, row: nat, vx: u8, wrap: bool, k: nat, c: int)
    requires |screen| == ScreenSize && row < ScreenHeight
  {
    0 <= c < ScreenWidth && ColumnLit(b, vx, wrap, k, c) && Pixel(screen, row, c) == 1
  }

  /** Column offset k lands on column `col` of the row; a set bit there turns the
      question "was a pixel under columns k..7 set" into "was `col` set, or a pixel
      under columns k+1..7 of the toggled screen". */
  lemma RowHitStep(screen: seq<u8>, b: u8, row: nat, vx: u8, wrap: bool, k: nat, k1: nat, col: nat)
    requires |screen| == ScreenSize && row < ScreenHeight && k < 8 && k1 == k + 1 && col < ScreenWidth
    requires wrap || vx + k < ScreenWidth
    requires col == if wrap then (vx + k) % ScreenWidth else vx + k
    ensures var p := PixelIndex(row, col);
      var s1 := if SpriteBit(b, k) then screen[p := Toggle(screen[p])] else screen;
      (exists c :: RowHitAt(screen, b, row, vx, wrap, k, c))
        <==> ((SpriteBit(b, k) && screen[p] == 1) || exists c :: RowHitAt(s1, b, row, vx, wrap, k1, c))
  {
    var p := PixelIndex(row, col);
    var s1 := if SpriteBit(b, k) then screen[p := Toggle(screen[p])] else screen;
    forall c | 0 <= c < ScreenWidth
      ensures RowHitAt(screen, b, row, vx, wrap, k, c)
        <==> (c == col && SpriteBit(b, k) && screen[p] == 1) || RowHitAt(s1, b, row, vx, wrap, k1, c)
    {
      ColumnOffsetOf(vx, wrap, k, c);
      if c != col {
        assert PixelIndex(row, c) != p;
      }
    }
    if SpriteBit(b, k) && screen[p] == 1 {
      assert RowHitAt(screen, b, row, vx, wrap, k, col);
    }
    if exists c :: RowHitAt(s1, b, row, vx, wrap, k1, c) {
      var c :| RowHitAt(s1, b, row, vx, wrap, k1, c);
      assert RowHitAt(screen, b, row, vx, wrap, k, c);
    }
  }

  /** The column loop raises the flag exactly when a pixel under a set sprite column k..7
      of its row was 1. */
  lemma {:induction false} DrawRowCollision(screen: seq<u8>, b: u8, row: nat, vx: u8, wrap: bool, k: nat, hit: bool)
    requires |screen| == ScreenSize && row < ScreenHeight && k <= 8
    ensures DrawRow(screen, b, row, vx, wrap, k, hit).1
      == (hit || exists c :: RowHitAt(screen, b, row, vx, wrap, k, c))
    decreases 8 - k
  {
    if k == 8 {
    } else if !wrap && vx + k >= ScreenWidth {
      assert forall c :: !RowHitAt(screen, b, row, vx, wrap, k, c);
    } else {
      var col := if wrap then (vx + k) % ScreenWidth else vx + k;
      var p := PixelIndex(row, col);
      var s1 := if SpriteBit(b, k) then screen[p := Toggle(screen[p])] else screen;
      var h1 := hit || (SpriteBit(b, k) && screen[p] == 1);
      assert DrawRow(screen, b, row, vx, wrap, k, hit) == DrawRow(s1, b, row, vx, wrap, k + 1, h1);
      DrawRowCollision(s1, b, row, vx, wrap, k + 1, h1);
      RowHitStep(screen, b, row, vx, wrap, k, k + 1, col);
    }
  }

  /** Sprite rows y..n-1 land on pixel (r, c) under a set bit. */
  predicate RowLit(memory: seq<u8>, base: nat, n: Nibble, vx: u8, vy: u8, y: nat, r: nat, c: nat)
    requires Readable(memory, base, n, vx, vy) && r < ScreenHeight
  {
    var wrap := Wraps(vx, vy);
    var dy := RowOffset(vy, wrap, r);
    y <= dy < n && ColumnLit(memory[base + dy], vx, wrap, 0, c)
  }

  /** The row loop from sprite row y on toggles exactly the pixels under set bits of rows
      y..n-1. */
  lemma {:induction false} DrawRowsPixels(screen: seq<u8>, memory: seq<u8>, base: nat, n: Nibble, vx: u8, vy: u8, y: nat, hit: bool)
    requires |screen| == ScreenSize && y <= n && Readable(memory, base, n, vx, vy)
    ensures forall r, c :: 0 <= r < ScreenHeight && 0 <= c < ScreenWidth ==>
      Pixel(DrawRows(screen, memory, base, n, vx, vy, y, hit).0, r, c)
        == if RowLit(memory, base, n, vx, vy, y, r, c) then Toggle(Pixel(screen, r, c)) else Pixel(screen, r, c)
    decreases n - y
  {
    var wrap := Wraps(vx, vy);
    if y == n {
    } else if !wrap && vy + y >= ScreenHeight {
      assert forall r, c :: 0 <= r < ScreenHeight && 0 <= c < ScreenWidth ==> !RowLit(memory, base, n, vx, vy, y, r, c);
    } else {
      var row := if wrap then (vy + y) % ScreenHeight else vy + y;
      var y1 := y + 1;
      var b := memory[base + y];
      forall r | 0 <= r < ScreenHeight
        ensures RowOffset(vy, wrap, r) == y <==> r == row
      {
        RowOffsetOf(vy, wrap, y, r);
      }
      var drawn := DrawRow(screen, b, row, vx, wrap, 0, hit);
      assert DrawRows(screen, memory, base, n, vx, vy, y, hit) == DrawRows(drawn.0, memory, base, n, vx, vy, y1, drawn.1);
      DrawRowPixels(screen, b, row, vx, wrap, 0, hit);
      DrawRowsPixels(drawn.0, memory, base, n, vx, vy, y1, drawn.1);
      forall r, c | 0 <= r < ScreenHeight && 0 <= c < ScreenWidth
        ensures RowLit(memory, base, n, vx, vy, y, r, c)
          <==> (r == row && ColumnLit(b, vx, wrap, 0, c)) || RowLit(memory, base, n, vx, vy, y1, r, c)
        ensures r == row ==> !RowLit(memory, base, n, vx, vy, y1, r, c)
      {
      }
    }
  }

  /** Pixel (r, c) was 1 and lies under a set bit of sprite rows y..n-1. */
  predicate RowsHitAt(screen: seq<u8>, memory: seq<u8>, base: nat, n: Nibble, vx: u8, vy: u8, y: nat, r: int, c: int)
    requires |screen| == ScreenSize && Readable(memory, base, n, vx, vy)
  {
    0 <= r < ScreenHeight && 0 <= c < ScreenWidth && RowLit(memory, base, n, vx, vy, y, r, c) && Pixel(screen, r, c) == 1
  }

  /** Sprite row y lands on screen row `row`; if drawing it changes no other row, a pixel
      under rows y..n-1 was 1 exactly when one under row y was, or one of the new screen
      under rows y+1..n-1 is. */
  lemma RowsHitStep(screen: seq<u8>, after: seq<u8>, memory: seq<u8>, base: nat, n: Nibble, vx: u8, vy: u8,
                    y: nat, y1: nat, row: nat, b: u8, wrap: bool)
    requires |screen| == ScreenSize && |after| == ScreenSize && y < n && y1 == y + 1
    requires Readable(memory, base, n, vx, vy) && row < ScreenHeight
    requires Wraps(vx, vy) || vy + y < ScreenHeight
    requires row == if Wraps(vx, vy) then (vy + y) % ScreenHeight else vy + y
    requires b == memory[base + y] && wrap == Wraps(vx, vy)
    requires forall r, c :: 0 <= r < ScreenHeight && 0 <= c < ScreenWidth && r != row ==>
      Pixel(after, r, c) == Pixel(screen, r, c)
    ensures (exists r, c :: RowsHitAt(screen, memory, base, n, vx, vy, y, r, c))
      <==> ((exists c :: RowHitAt(screen, b, row, vx, wrap, 0, c))
            || exists r, c :: RowsHitAt(after, memory, base, n, vx, vy, y1, r, c))
  {
    forall r | 0 <= r < ScreenHeight
      ensures RowOffset(vy, wrap, r) == y <==> r == row
    {
      RowOffsetOf(vy, wrap, y, r);
    }
    forall r, c | 0 <= r < ScreenHeight && 0 <= c < ScreenWidth
      ensures RowLit(memory, base, n, vx, vy, y, r, c)
        <==> (r == row && ColumnLit(b, vx, wrap, 0, c)) || RowLit(memory, base, n, vx, vy, y1, r, c)
      ensures r == row ==> !RowLit(memory, base, n, vx, vy, y1, r, c)
    {
    }
    if exists r, c :: RowsHitAt(screen, memory, base, n, vx, vy, y, r, c) {
      var r, c :| RowsHitAt(screen, memory, base, n, vx, vy, y, r, c);
      if r == row {
        assert RowHitAt(screen, b, row, vx, wrap, 0, c);
      } else {
        assert RowsHitAt(after, memory, base, n, vx, vy, y1, r, c);
      }
    }
    if exists c :: RowHitAt(screen, b, row, vx, wrap, 0, c) {
      var c :| RowHitAt(screen, b, row, vx, wrap, 0, c);
      assert RowsHitAt(screen, memory, base, n, vx, vy, y, row, c);
    }
    if exists r, c :: RowsHitAt(after, memory, base, n, vx, vy, y1, r, c) {
      var r, c :| RowsHitAt(after, memory, base, n, vx, vy, y1, r, c);
      assert RowsHitAt(screen, memory, base, n, vx, vy, y, r, c);
    }
  }

  /** The row loop from sprite row y on raises the flag exactly when a pixel under a set
      bit of rows y..n-1 was 1. */
  lemma {:induction false} DrawRowsCollision(screen: seq<u8>, memory: seq<u8>, base: nat, n: Nibble, vx: u8, vy: u8, y: nat, hit: bool)
    requires |screen| == ScreenSize && y <= n && Readable(memory, base, n, vx, vy)
    ensures DrawRows(screen, memory, base, n, vx, vy, y, hit).1
      == (hit || exists r, c :: RowsHitAt(screen, memory, base, n, vx, vy, y, r, c))
    decreases n - y
  {
    var wrap := Wraps(vx, vy);
    if y == n {
    } else if !wrap && vy + y >= ScreenHeight {
      assert forall r, c :: !RowsHitAt(screen, memory, base, n, vx, vy, y, r, c);
    } else {
      var row := if wrap then (vy + y) % ScreenHeight else vy + y;
      var b := memory[base + y];
      var drawn := DrawRow(screen, b, row, vx, wrap, 0, hit);
      assert DrawRows(screen, memory, base, n, vx, vy, y, hit) == DrawRows(drawn.0, memory, base, n, vx, vy, y + 1, drawn.1);
      DrawRowPixels(screen, b, row, vx, wrap, 0, hit);
      DrawRowCollision(screen, b, row, vx, wrap, 0, hit);
      DrawRowsCollision(drawn.0, memory, base, n, vx, vy, y + 1, drawn.1);
      RowsHitStep(screen, drawn.0, memory, base, n, vx, vy, y, y + 1, row, b, wrap);
    }
  }

  /** The draw toggles exactly the pixels `Lit` names, leaves every other pixel alone,
      and reports a collision exactly when some lit pixel was 1. */
  lemma DrawEffect(screen: seq<u8>, memory: seq<u8>, base: nat, n: Nibble, vx: u8, vy: u8)
    requires |screen| == ScreenSize && Readable(memory, base, n, vx, vy)
    ensures |Draw(screen, memory, base, n, vx, vy).0| == ScreenSize
    ensures forall r, c :: 0 <= r < ScreenHeight && 0 <= c < ScreenWidth ==>
      Pixel(Draw(screen, memory, base, n, vx, vy).0, r, c)
        == if Lit(memory, base, n, vx, vy, r, c) then Toggle(Pixel(screen, r, c)) else Pixel(screen, r, c)
    ensures Draw(screen, memory, base, n, vx, vy).1
      <==> (exists r, c :: 0 <= r < ScreenHeight && 0 <= c < ScreenWidth
              && Lit(memory, base, n, vx, vy, r, c) && Pixel(screen, r, c) == 1)
  {
    DrawRowsPixels(screen, memory, base, n, vx, vy, 0, false);
    DrawRowsCollision(screen, memory, base, n, vx, vy, 0, false);
    assert forall r, c :: 0 <= r < ScreenHeight && 0 <= c < ScreenWidth ==>
      (RowLit(memory, base, n, vx, vy, 0, r, c) <==> Lit(memory, base, n, vx, vy, r, c));
    if exists r, c :: RowsHitAt(screen, memory, base, n, vx, vy, 0, r, c) {
      var r, c :| RowsHitAt(screen, memory, base, n, vx, vy, 0, r, c);
      assert Lit(memory, base, n, vx, vy, r, c) && Pixel(screen, r, c) == 1;
    }
    if exists r, c :: 0 <= r < ScreenHeight && 0 <= c < ScreenWidth
         && Lit(memory, base, n, vx, vy, r, c) && Pixel(screen, r, c) == 1 {
      var r, c :| 0 <= r < ScreenHeight && 0 <= c < ScreenWidth
         && Lit(memory, base, n, vx, vy, r, c) && Pixel(screen, r, c) == 1;
      assert RowsHitAt(screen, memory, base, n, vx, vy, 0, r, c);
    }
  }

  /** The collision flag is the engine's rule: some pixel went from 1 to 0. */
  lemma CollisionIffPixelErased(screen: seq<u8>, memory: seq<u8>, base: nat, n: Nibble, vx: u8, vy: u8)
    requires |screen| == ScreenSize && Readable(memory, base, n, vx, vy)
    ensures var after := Draw(screen, memory, base, n, vx, vy).0;
      |after| == ScreenSize &&
      (Draw(screen, memory, base, n, vx, vy).1 <==>
         exists r, c :: 0 <= r < ScreenHeight && 0 <= c < ScreenWidth
           && Pixel(screen, r, c) == 1 && Pixel(after, r, c) == 0)
  {
    DrawEffect(screen, memory, base, n, vx, vy);
    var after := Draw(screen, memory, base, n, vx, vy).0;
    if exists r, c :: 0 <= r < ScreenHeight && 0 <= c < ScreenWidth
         && Pixel(screen, r, c) == 1 && Pixel(after, r, c) == 0 {
      var r, c :| 0 <= r < ScreenHeight && 0 <= c < ScreenWidth
         && Pixel(screen, r, c) == 1 && Pixel(after, r, c) == 0;
      assert Lit(memory, base, n, vx, vy, r, c);
    }
  }

  /** Drawing the same sprite at the same place twice restores the screen. */
  lemma DrawTwiceRestores(screen: seq<u8>, memory: seq<u8>, base: nat, n: Nibble, vx: u8, vy: u8)
    requires |screen| == ScreenSize && Readable(memory, base, n, vx, vy)
    ensures Draw(Draw(screen, memory, base, n, vx, vy).0, memory, base, n, vx, vy).0 == screen
  {
    var once := Draw(screen, memory, base, n, vx, vy).0;
    DrawEffect(screen, memory, base, n, vx, vy);
    DrawEffect(once, memory, base, n, vx, vy);
    var twice := Draw(once, memory, base, n, vx, vy).0;
    forall p | 0 <= p < ScreenSize
      ensures twice[p] == screen[p]
    {
      PixelOfIndex(p);
      var r, c := p / ScreenWidth, p % ScreenWidth;
      assert Pixel(twice, r, c) == Pixel(screen, r, c);
    }
  }

  /** On a blank screen the first draw reports no collision, and drawing it again reports
      one exactly when the sprite lights some pixel. */
  lemma DrawTwiceOnBlank(memory: seq<u8>, base: nat, n: Nibble, vx: u8, vy: u8)
    requires Readable(memory, base, n, vx, vy)
    ensures !Draw(Blank(), memory, base, n, vx, vy).1
    ensures Draw(Draw(Blank(), memory, base, n, vx, vy).0, memory, base, n, vx, vy).1
      <==> (exists r, c :: 0 <= r < ScreenHeight && 0 <= c < ScreenWidth && Lit(memory, base, n, vx, vy, r, c))
  {
    var once := Draw(Blank(), memory, base, n, vx, vy).0;
    DrawEffect(Blank(), memory, base, n, vx, vy);
    DrawEffect(once, memory, base, n, vx, vy);
    if exists r, c :: 0 <= r < ScreenHeight && 0 <= c < ScreenWidth && Lit(memory, base, n, vx, vy, r, c) {
      var r, c :| 0 <= r < ScreenHeight && 0 <= c < ScreenWidth && Lit(memory, base, n, vx, vy, r, c);
      assert Pixel(once, r, c) == 1;
    }
  }

  /** Pixels that are all 0 or 1 stay so. */
  lemma DrawKeepsPixelsBinary(screen: seq<u8>, memory: seq<u8>, base: nat, n: Nibble, vx: u8, vy: u8)
    requires |screen| == ScreenSize && Readable(memory, base, n, vx, vy)
    requires forall p :: 0 <= p < ScreenSize ==> screen[p] <= 1
    ensures forall p :: 0 <= p < ScreenSize ==> Draw(screen, memory, base, n, vx, vy).0[p] <= 1
  {
    DrawEffect(screen, memory, base, n, vx, vy);
    var after := Draw(screen, memory, base, n, vx, vy).0;
    forall p | 0 <= p < ScreenSize
      ensures after[p] <= 1
    {
      PixelOfIndex(p);
      assert Pixel(after, p / ScreenWidth, p % ScreenWidth) <= 1;
    }
  }

  /** A sprite anchored on the screen is clipped: nothing appears left of or above its
      anchor. An anchor off the screen wraps: the sprite's top-left bit lands on the anchor
      reduced modulo the screen size. */
  lemma WrapVersusClip(memory: seq<u8>, base: nat, n: Nibble, vx: u8, vy: u8, r: nat, c: nat)
    requires Readable(memory, base, n, vx, vy) && r < ScreenHeight && c < ScreenWidth
    ensures !Wraps(vx, vy) && (c < vx || r < vy) ==> !Lit(memory, base, n, vx, vy, r, c)
    ensures Wraps(vx, vy) && n > 0 && r == vy % ScreenHeight && c == vx % ScreenWidth ==>
      (Lit(memory, base, n, vx, vy, r, c) <==> SpriteBit(memory[base], 0))
  {
    if Wraps(vx, vy) && n > 0 && r == vy % ScreenHeight && c == vx % ScreenWidth {
      RowOffsetOf(vy, true, 0, r);
      ColumnOffsetOf(vx, true, 0, c);
    }
  }

  /** The font area of a new machine is all zero, so a glyph drawn from the address FX29
      gives for any digit lights no pixel and leaves the screen as it was. */
  lemma GlyphsBlank(screen: seq<u8>, d: u8, vx: u8, vy: u8)
    requires |screen| == ScreenSize && d <= 0xF
    ensures Readable(Initial().memory, SpriteAddress(d), 5, vx, vy)
    ensures forall r, c :: 0 <= r < ScreenHeight && 0 <= c < ScreenWidth ==>
      !Lit(Initial().memory, SpriteAddress(d), 5, vx, vy, r, c)
    ensures Draw(screen, Initial().memory, SpriteAddress(d), 5, vx, vy) == (screen, false)
  {
    var m := Initial().memory;
    var base := SpriteAddress(d);
    assert forall k :: 0 <= k < 8 ==> !SpriteBit(0, k);
    DrawEffect(screen, m, base, 5, vx, vy);
    var after := Draw(screen, m, base, 5, vx, vy).0;
    forall p | 0 <= p < ScreenSize
      ensures after[p] == screen[p]
    {
      PixelOfIndex(p);
      assert Pixel(after, p / ScreenWidth, p % ScreenWidth) == Pixel(screen, p / ScreenWidth, p % ScreenWidth);
    }
  }
}
