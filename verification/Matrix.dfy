/** The falling-glyph animation (src/atwbg/matrix.c): drawing six cells a step keeps the screen equal to a full redraw. */
module Matrix {
  import opened Wire
  import opened Bytes

  const BANDS := 4
  const BAND_LEN := 3
  const TAIL := BANDS * BAND_LEN
  const LINES := 16

  // ---- what a cell looks like --------------------------------------------------------------------

  /** Lit(0) is the head, Lit(1..4) are the bands of the tail. */
  datatype Level = Off | Lit(i: int)

  datatype Mode = Chunky(colours: seq<byte>) | Mono

  /** The parts of struct mx that no frame changes. */
  datatype Grid = Grid(stride: nat, cols: nat, rows: nat, font: seq<bv8>, fwidth: nat, bg: byte, mode: Mode)

  predicate LevelOk(l: Level) { l.Lit? ==> 0 <= l.i <= BANDS }

  /** Bytes per line of a cell. */
  function Width(g: Grid): (w: nat)
    ensures w > 0
  {
    if g.mode.Mono? then 1 else 8
  }

  predicate ValidGrid(g: Grid) {
    && g.rows > 0 && g.cols > 0 && g.cols * Width(g) <= g.stride
    && |g.font| >= 15 * g.fwidth + 256
    && (g.mode.Chunky? ==> |g.mode.colours| == BANDS + 1)
  }

  /** The font byte of one line of a character. */
  function FontByte(g: Grid, ch: byte, y: nat): bv8
    requires ValidGrid(g) && y < LINES
  {
    FontIndex(g, ch, y);
    g.font[y * g.fwidth + ch]
  }

  lemma FontIndex(g: Grid, ch: byte, y: nat)
    requires ValidGrid(g) && y < LINES
    ensures 0 <= y * g.fwidth + ch < |g.font|
  {
    assert y * g.fwidth <= 15 * g.fwidth;
  }

  /** Bit x of a byte, the lowest first. */
  predicate Bit(b: bv8, x: nat)
    requires x < 8
  {
    (b >> x) & 1 == 1
  }

  function Bits(x: bool, v: bv8): bv8 { if x then v else 0 }

  /** The bit-reversed byte. */
  function Rev(b: bv8): bv8 {
    Bits(b & 1 != 0, 0x80) | Bits(b & 2 != 0, 0x40) | Bits(b & 4 != 0, 0x20) | Bits(b & 8 != 0, 0x10) |
    Bits(b & 16 != 0, 8) | Bits(b & 32 != 0, 4) | Bits(b & 64 != 0, 2) | Bits(b & 128 != 0, 1)
  }

  /** Ink kept per dither level, on even and odd lines. */
  function Dither(i: int, odd: bool): bv8 {
    if i <= 1 then 0xFF
    else if i == 2 then (if odd then 0x55 else 0xAA)
    else if i == 3 then (if odd then 0x22 else 0x88)
    else (if odd then 0x08 else 0x80)
  }

  /** Pixel x from the left of a line: the ink of the mirrored font bit, thinned at level i >= 2 to every 2nd, 4th or 8th
      pixel, and by half that distance to the right on odd lines. */
  lemma DitherMeans(f: bv8, i: int, odd: bool, x: nat)
    requires x < 8 && 0 <= i <= BANDS
    ensures var step := if i <= 1 then 1 else if i == 2 then 2 else if i == 3 then 4 else 8;
            Bit(Rev(f) & Dither(i, odd), 7 - x) <==> Bit(f, x) && x % step == if odd then step / 2 else 0
  {
    if x < 4 {
      DitherLeft(f, i, odd, x);
    } else {
      DitherRight(f, i, odd, x);
    }
  }

  lemma DitherLeft(f: bv8, i: int, odd: bool, x: nat)
    requires x < 4 && 0 <= i <= BANDS
    ensures var step := if i <= 1 then 1 else if i == 2 then 2 else if i == 3 then 4 else 8;
            Bit(Rev(f) & Dither(i, odd), 7 - x) <==> Bit(f, x) && x % step == if odd then step / 2 else 0
  {
    assert x == 0 || x == 1 || x == 2 || x == 3;
  }

  lemma DitherRight(f: bv8, i: int, odd: bool, x: nat)
    requires 4 <= x < 8 && 0 <= i <= BANDS
    ensures var step := if i <= 1 then 1 else if i == 2 then 2 else if i == 3 then 4 else 8;
            Bit(Rev(f) & Dither(i, odd), 7 - x) <==> Bit(f, x) && x % step == if odd then step / 2 else 0
  {
    assert x == 4 || x == 5 || x == 6 || x == 7;
  }

  /** b ^ m; nothing to do when m is 0. */
  function Xor(b: byte, m: bv8): byte { if m == 0 then b else ((b as bv8) ^ m) as byte }

  /** One line of a cell on the screen: glyphs are mirrored, so pixel x from the left is bit x of the font. */
  function InkRow(g: Grid, ch: byte, l: Level, y: nat): (r: seq<byte>)
    requires ValidGrid(g) && y < LINES && LevelOk(l)
    ensures |r| == Width(g)
  {
    var f := FontByte(g, ch, y);
    match g.mode
    case Chunky(colours) =>
      seq(8, x requires 0 <= x < 8 => if l.Lit? && Bit(f, x) then colours[l.i] else g.bg)
    case Mono =>
      [Xor(g.bg, if l.Off? then 0 else Rev(f) & Dither(l.i, y % 2 == 1))]
  }

  // ---- what the screen should look like ----------------------------------------------------------

  /** The level of row r in a column that last drew its head at row pos - 1; an idle column shows nothing. */
  function LevelAt(pos: int, r: nat): (l: Level)
    ensures LevelOk(l)
  {
    var d := pos - 1 - r;
    if pos < 0 then Off
    else if d == 0 then Lit(0)
    else if 1 <= d <= TAIL then Lit(1 + (d - 1) / BAND_LEN)
    else Off
  }

  function Line(g: Grid, r: nat, c: nat, y: nat): nat { (LINES * r + y) * g.stride + c * Width(g) }

  /** Cell (r, c) of the framebuffer shows character ch at level l. */
  predicate Shows(fb: seq<byte>, g: Grid, r: nat, c: nat, ch: byte, l: Level)
    requires ValidGrid(g) && LevelOk(l)
  {
    forall y :: 0 <= y < LINES ==> Laid(fb, Line(g, r, c, y), InkRow(g, ch, l, y))
  }

  /** Column c shows the given levels. */
  predicate Column(fb: seq<byte>, g: Grid, c: nat, glyph: seq<byte>, lev: seq<Level>)
    requires ValidGrid(g)
  {
    && |glyph| == |lev| == g.rows
    && forall r :: 0 <= r < g.rows ==> LevelOk(lev[r]) && Shows(fb, g, r, c, glyph[r], lev[r])
  }

  /** What a full redraw from the head position gives. */
  function Redraw(g: Grid, pos: int): (lev: seq<Level>)
    ensures |lev| == g.rows && forall r :: 0 <= r < g.rows ==> LevelOk(lev[r])
  {
    seq(g.rows, r requires 0 <= r < g.rows => LevelAt(pos, r))
  }

  // ---- cells do not overlap ----------------------------------------------------------------------

  lemma LineFits(g: Grid, r: nat, c: nat, y: nat)
    requires ValidGrid(g) && r < g.rows && c < g.cols && y < LINES
    ensures Line(g, r, c, y) + Width(g) <= (LINES * r + y + 1) * g.stride <= LINES * g.rows * g.stride
  {
    var w, l := Width(g), LINES * r + y;
    assert c * w + w == (c + 1) * w <= g.cols * w;
    assert (l + 1) * g.stride == l * g.stride + g.stride;
    assert (l + 1) * g.stride <= (LINES * g.rows) * g.stride by { MulLe(l + 1, LINES * g.rows, g.stride); }
  }

  lemma MulLe(a: nat, b: nat, k: nat)
    requires a <= b
    ensures a * k <= b * k
  {
  }

  /** A line ends before any later line of the framebuffer begins. */
  lemma LinesApart(g: Grid, r: nat, c: nat, y: nat, r': nat, c': nat, y': nat)
    requires ValidGrid(g) && r < g.rows && c < g.cols && y < LINES && LINES * r + y < LINES * r' + y'
    ensures Line(g, r, c, y) + Width(g) <= Line(g, r', c', y')
  {
    LineFits(g, r, c, y);
    MulLe(LINES * r + y + 1, LINES * r' + y', g.stride);
    MulLe(0, c', Width(g));
  }

  lemma CellsApart(g: Grid, r: nat, c: nat, y: nat, c': nat)
    requires c < c'
    ensures Line(g, r, c, y) + Width(g) <= Line(g, r, c', y)
  {
    MulLe(c + 1, c', Width(g));
    assert (c + 1) * Width(g) == c * Width(g) + Width(g);
  }

  /** Different lines of cells are disjoint. */
  lemma Apart(g: Grid, r: nat, c: nat, y: nat, r': nat, c': nat, y': nat)
    requires ValidGrid(g) && r < g.rows && c < g.cols && y < LINES && r' < g.rows && c' < g.cols && y' < LINES
    requires (r, c, y) != (r', c', y')
    ensures Line(g, r, c, y) + Width(g) <= Line(g, r', c', y') || Line(g, r', c', y') + Width(g) <= Line(g, r, c, y)
  {
    hide Line, Width, ValidGrid;
    var a, b := LINES * r + y, LINES * r' + y';
    if a < b {
      LinesApart(g, r, c, y, r', c', y');
    } else if b < a {
      LinesApart(g, r', c', y', r, c, y);
    } else {
      assert r == r' && y == y';
      if c < c' {
        CellsApart(g, r, c, y, c');
      } else {
        CellsApart(g, r, c', y, c);
      }
    }
  }

  // ---- drawing one cell --------------------------------------------------------------------------

  /** The four bytes that mask4 selects from foreground and background. */
  function Word(k: bv8, fg: byte, bg: byte): (r: seq<byte>)
    ensures |r| == 4
  {
    [if k & 8 != 0 then fg else bg, if k & 4 != 0 then fg else bg, if k & 2 != 0 then fg else bg, if k & 1 != 0 then fg else bg]
  }

  lemma RevBits(f: bv8)
    ensures var k := Rev(f);
      && ((k >> 4) & 8 != 0 <==> Bit(f, 0)) && ((k >> 4) & 4 != 0 <==> Bit(f, 1))
      && ((k >> 4) & 2 != 0 <==> Bit(f, 2)) && ((k >> 4) & 1 != 0 <==> Bit(f, 3))
      && ((k & 15) & 8 != 0 <==> Bit(f, 4)) && ((k & 15) & 4 != 0 <==> Bit(f, 5))
      && ((k & 15) & 2 != 0 <==> Bit(f, 6)) && ((k & 15) & 1 != 0 <==> Bit(f, 7))
  {
  }

  /** Two table words draw the eight mirrored pixels. */
  lemma WordsDraw(f: bv8, fg: byte, bg: byte)
    ensures Word(Rev(f) >> 4, fg, bg) + Word(Rev(f) & 15, fg, bg) ==
            seq(8, x requires 0 <= x < 8 => if Bit(f, x) then fg else bg)
  {
    hide Bit, Rev;
    RevBits(f);
  }

  predicate InCell(g: Grid, r: nat, c: nat, k: int) {
    exists y :: 0 <= y < LINES && Line(g, r, c, y) <= k < Line(g, r, c, y) + Width(g)
  }

  /** Nothing outside the cell has changed. */
  predicate OnlyCell(old_: seq<byte>, new_: seq<byte>, g: Grid, r: nat, c: nat) {
    |old_| == |new_| && forall k :: 0 <= k < |old_| && !InCell(g, r, c, k) ==> new_[k] == old_[k]
  }

  /** One line of cell() or cell1(): through the reversed font byte, the word masks or the dither. */
  method LineBytes(g: Grid, ch: byte, l: Level, y: nat) returns (b: seq<byte>)
    requires ValidGrid(g) && y < LINES && LevelOk(l)
    ensures b == InkRow(g, ch, l, y)
  {
    hide Bit, Rev, Word, Dither, FontByte, Xor;
    var f := FontByte(g, ch, y);
    match g.mode {
      case Chunky(colours) =>
        var k := if l.Off? then 0 else Rev(f);
        var fg := if l.Off? then g.bg else colours[l.i];
        b := Word(k >> 4, fg, g.bg) + Word(k & 15, fg, g.bg);
        if l.Off? {
          NoInk(g.bg);
          assert b == InkRow(g, ch, l, y);
        } else {
          WordsDraw(f, fg, g.bg);
          assert b == InkRow(g, ch, l, y);
        }
      case Mono =>
        var ink := if l.Off? then 0 else Rev(f) & Dither(l.i, y % 2 == 1);
        b := [Xor(g.bg, ink)];
    }
  }

  lemma NoInk(bg: byte)
    ensures var z: bv8 := 0;
      Word(z >> 4, bg, bg) + Word(z & 15, bg, bg) == seq(8, x => bg)
  {
  }

  method Cell(fb: array<byte>, g: Grid, r: nat, c: nat, ch: byte, l: Level)
    requires ValidGrid(g) && r < g.rows && c < g.cols && LevelOk(l) && fb.Length >= LINES * g.rows * g.stride
    modifies fb
    ensures Shows(fb[..], g, r, c, ch, l) && OnlyCell(old(fb[..]), fb[..], g, r, c)
  {
    hide InkRow, ValidGrid, Line, Laid, Over, InCell;
    ghost var start := fb[..];
    var y := 0;
    while y < LINES
      invariant 0 <= y <= LINES
      invariant forall z :: 0 <= z < y ==> Laid(fb[..], Line(g, r, c, z), InkRow(g, ch, l, z))
      invariant OnlyCell(start, fb[..], g, r, c)
    {
      var b := LineBytes(g, ch, l, y);
      LineFits(g, r, c, y);
      ghost var s := fb[..];
      Put(fb, Line(g, r, c, y), b);
      OverLaid(s, Line(g, r, c, y), b);
      forall z | 0 <= z < y ensures Laid(fb[..], Line(g, r, c, z), InkRow(g, ch, l, z)) {
        Apart(g, r, c, y, r, c, z);
        OverKeeps(s, Line(g, r, c, y), b, Line(g, r, c, z), InkRow(g, ch, l, z));
      }
      OverInCell(s, g, r, c, y, b);
      y := y + 1;
    }
  }

  lemma OverInCell(s: seq<byte>, g: Grid, r: nat, c: nat, y: nat, b: seq<byte>)
    requires y < LINES && |b| == Width(g) && Line(g, r, c, y) + |b| <= |s|
    ensures OnlyCell(s, Over(s, Line(g, r, c, y), b), g, r, c)
  {
  }

  lemma {:induction false} OtherKept(s: seq<byte>, t: seq<byte>, g: Grid, r: nat, c: nat, r': nat, c': nat, ch: byte, l: Level)
    requires ValidGrid(g) && LevelOk(l) && r < g.rows && c < g.cols && r' < g.rows && c' < g.cols && (r, c) != (r', c')
    requires OnlyCell(s, t, g, r, c) && Shows(s, g, r', c', ch, l)
    ensures Shows(t, g, r', c', ch, l)
  {
    hide InkRow, ValidGrid, Line;
    forall y | 0 <= y < LINES ensures Laid(t, Line(g, r', c', y), InkRow(g, ch, l, y)) {
      var o := Line(g, r', c', y);
      assert Laid(s, o, InkRow(g, ch, l, y));
      forall k | o <= k < o + Width(g) ensures t[k] == s[k] {
        NotInside(g, r, c, r', c', y, k);
      }
      assert t[o..o + Width(g)] == s[o..o + Width(g)];
    }
  }

  lemma NotInside(g: Grid, r: nat, c: nat, r': nat, c': nat, y: nat, k: int)
    requires ValidGrid(g) && r < g.rows && c < g.cols && r' < g.rows && c' < g.cols && (r, c) != (r', c') && y < LINES
    requires Line(g, r', c', y) <= k < Line(g, r', c', y) + Width(g)
    ensures !InCell(g, r, c, k)
  {
    hide ValidGrid, Line;
    forall z | 0 <= z < LINES ensures !(Line(g, r, c, z) <= k < Line(g, r, c, z) + Width(g)) {
      Apart(g, r, c, z, r', c', y);
    }
  }

  // ---- one step of a column ----------------------------------------------------------------------

  /** All rows of column c but the k-th show their levels. */
  predicate ColumnBut(fb: seq<byte>, g: Grid, c: nat, glyph: seq<byte>, lev: seq<Level>, k: int)
    requires ValidGrid(g)
  {
    && |glyph| == |lev| == g.rows
    && forall r :: 0 <= r < g.rows ==> LevelOk(lev[r]) && (r != k ==> Shows(fb, g, r, c, glyph[r], lev[r]))
  }

  /** Every column but the c-th shows what a redraw would. */
  predicate Others(fb: seq<byte>, g: Grid, pos: seq<int>, glyph: seq<seq<byte>>, c: int)
    requires ValidGrid(g) && |pos| == |glyph|
  {
    forall b :: 0 <= b < |pos| && b != c ==> Column(fb, g, b, glyph[b], Redraw(g, pos[b]))
  }

  function Put1(lev: seq<Level>, r: int, l: Level): (n: seq<Level>)
    ensures |n| == |lev|
  {
    if 0 <= r < |lev| then lev[r := l] else lev
  }

  lemma CellInColumn(s: seq<byte>, t: seq<byte>, g: Grid, c: nat, r: nat, l: Level, glyph: seq<byte>, lev: seq<Level>)
    requires ValidGrid(g) && c < g.cols && r < g.rows && LevelOk(l) && ColumnBut(s, g, c, glyph, lev, r)
    requires OnlyCell(s, t, g, r, c) && Shows(t, g, r, c, glyph[r], l)
    ensures Column(t, g, c, glyph, lev[r := l])
  {
    hide ValidGrid, Shows, OnlyCell;
    forall q | 0 <= q < g.rows ensures Shows(t, g, q, c, glyph[q], lev[r := l][q]) {
      if q != r {
        OtherKept(s, t, g, r, c, q, c, glyph[q], lev[q]);
      }
    }
  }

  lemma CellSparesOthers(s: seq<byte>, t: seq<byte>, g: Grid, c: nat, r: nat, pos: seq<int>, glyph: seq<seq<byte>>)
    requires ValidGrid(g) && c < g.cols && r < g.rows && |pos| == |glyph| == g.cols
    requires OnlyCell(s, t, g, r, c) && Others(s, g, pos, glyph, c)
    ensures Others(t, g, pos, glyph, c)
  {
    hide ValidGrid, Shows, OnlyCell, Redraw;
    forall b | 0 <= b < |pos| && b != c ensures Column(t, g, b, glyph[b], Redraw(g, pos[b])) {
      forall q | 0 <= q < g.rows ensures Shows(t, g, q, b, glyph[b][q], Redraw(g, pos[b])[q]) {
        OtherKept(s, t, g, r, c, q, b, glyph[b][q], Redraw(g, pos[b])[q]);
      }
    }
  }

  /** Draw row r of column c, if there is one. */
  method DrawRow(fb: array<byte>, g: Grid, c: nat, r: int, l: Level, gl: seq<byte>,
    ghost lev: seq<Level>, ghost pos: seq<int>, ghost glyph: seq<seq<byte>>) returns (n: nat)
    requires ValidGrid(g) && c < g.cols && LevelOk(l) && fb.Length >= LINES * g.rows * g.stride
    requires |pos| == |glyph| == g.cols && ColumnBut(fb[..], g, c, gl, lev, r) && Others(fb[..], g, pos, glyph, c)
    modifies fb
    ensures Column(fb[..], g, c, gl, Put1(lev, r, l)) && Others(fb[..], g, pos, glyph, c)
    ensures n == if 0 <= r < g.rows then 1 else 0
    ensures |old(fb[..])| == |fb[..]| && forall k :: 0 <= k < fb.Length && fb[k] != old(fb[k]) ==> 0 <= r < g.rows && InCell(g, r, c, k)
  {
    hide ValidGrid, Shows, Others, InCell;
    n := 0;
    if 0 <= r < g.rows {
      ghost var s := fb[..];
      Cell(fb, g, r, c, gl[r], l);
      CellInColumn(s, fb[..], g, c, r, l, gl, lev);
      CellSparesOthers(s, fb[..], g, c, r, pos, glyph);
      n := 1;
    }
  }

  /** The levels once the head and the first b bands of a step have been drawn. */
  function Banded(g: Grid, h: int, b: nat): (lev: seq<Level>)
    ensures |lev| == g.rows
  {
    if b == 0 then Put1(Redraw(g, h), h, Lit(0)) else Put1(Banded(g, h, b - 1), h - 1 - (b - 1) * BAND_LEN, Lit(b))
  }

  /** Six cells are all that a step of the head changes. */
  lemma {:induction false} StepRedraws(g: Grid, h: nat)
    ensures Put1(Banded(g, h, BANDS), h - 1 - TAIL, Off) == Redraw(g, h + 1)
  {
    var lev := Put1(Banded(g, h, BANDS), h - 1 - TAIL, Off);
    forall r | 0 <= r < g.rows ensures lev[r] == Redraw(g, h + 1)[r] {
      StepRow(g, h, r);
    }
  }

  lemma {:induction false} StepRow(g: Grid, h: nat, r: nat)
    requires r < g.rows
    ensures Put1(Banded(g, h, BANDS), h - 1 - TAIL, Off)[r] == LevelAt(h + 1, r)
  {
    var l0 := Put1(Redraw(g, h), h, Lit(0));
    var l1 := Put1(l0, h - 1, Lit(1));
    var l2 := Put1(l1, h - 4, Lit(2));
    var l3 := Put1(l2, h - 7, Lit(3));
    var l4 := Put1(l3, h - 10, Lit(4));
    assert Banded(g, h, 1) == l1;
    assert Banded(g, h, 2) == l2;
    assert Banded(g, h, 3) == l3;
    assert Banded(g, h, 4) == l4;
    LevelMoves(h, r);
  }

  lemma LevelMoves(h: nat, r: nat)
    ensures LevelAt(h + 1, r) ==
            if r == h then Lit(0) else if r == h - 1 then Lit(1) else if r == h - 4 then Lit(2)
            else if r == h - 7 then Lit(3) else if r == h - 10 then Lit(4) else if r == h - 13 then Off
            else LevelAt(h, r)
  {
  }

  /** A column whose tail has left the screen looks idle. */
  lemma TailGone(g: Grid, h: nat, pos: int)
    requires h - 1 - TAIL >= g.rows - 1 && pos < 0
    ensures Redraw(g, h + 1) == Redraw(g, pos)
  {
  }

  /** So does one that is about to start. */
  lemma AboutToStart(g: Grid, pos: int)
    requires pos < 0
    ensures Redraw(g, pos + 1) == Redraw(g, pos)
  {
  }

  /** The rows a step may draw. */
  predicate StepRow6(h: int, r: int) { r == h || r == h - 1 || r == h - 4 || r == h - 7 || r == h - 10 || r == h - 13 }

  /** How many of them are on the screen. */
  function Drawn(g: Grid, h: int): (n: nat)
    ensures n <= 6
  {
    OnRows(g, h) + OnRows(g, h - 1) + OnRows(g, h - 4) + OnRows(g, h - 7) + OnRows(g, h - 10) + OnRows(g, h - 13)
  }

  function OnRows(g: Grid, r: int): nat { if 0 <= r < g.rows then 1 else 0 }

  /** k is a byte of one of those cells. */
  predicate Touched(g: Grid, c: nat, h: int, k: int) {
    exists r :: 0 <= r < g.rows && StepRow6(h, r) && InCell(g, r, c, k)
  }

  /** The drawing of one step: head, the rows that enter a band, and the row that leaves the tail. */
  method DrawStep(fb: array<byte>, g: Grid, c: nat, h: nat, gl: seq<byte>, ghost pos: seq<int>, ghost glyph: seq<seq<byte>>)
    returns (n: nat)
    requires ValidGrid(g) && c < g.cols && fb.Length >= LINES * g.rows * g.stride && |pos| == |glyph| == g.cols
    requires ColumnBut(fb[..], g, c, gl, Redraw(g, h), h) && Others(fb[..], g, pos, glyph, c)
    modifies fb
    ensures Column(fb[..], g, c, gl, Redraw(g, h + 1)) && Others(fb[..], g, pos, glyph, c)
    ensures n == Drawn(g, h)
    ensures forall k :: 0 <= k < fb.Length && fb[k] != old(fb[k]) ==> Touched(g, c, h, k)
  {
    hide ValidGrid, Redraw, Banded, Put1, Column, ColumnBut, Others, InCell;
    n := DrawRow(fb, g, c, h, Lit(0), gl, Redraw(g, h), pos, glyph);
    First(g, h);
    var b := 0;
    while b < BANDS
      invariant 0 <= b <= BANDS && n == OnRows(g, h) + (if b > 0 then OnRows(g, h - 1) else 0)
                  + (if b > 1 then OnRows(g, h - 4) else 0) + (if b > 2 then OnRows(g, h - 7) else 0) + (if b > 3 then OnRows(g, h - 10) else 0)
      invariant Column(fb[..], g, c, gl, Banded(g, h, b)) && Others(fb[..], g, pos, glyph, c)
      invariant forall k :: 0 <= k < fb.Length && fb[k] != old(fb[k]) ==> Touched(g, c, h, k)
    {
      var r := h - 1 - b * BAND_LEN;
      Whole(fb[..], g, c, gl, Banded(g, h, b), r);
      var m := DrawRow(fb, g, c, r, Lit(b + 1), gl, Banded(g, h, b), pos, glyph);
      Next(g, h, b);
      n, b := n + m, b + 1;
    }
    var r := h - 1 - TAIL;
    Whole(fb[..], g, c, gl, Banded(g, h, BANDS), r);
    var m := DrawRow(fb, g, c, r, Off, gl, Banded(g, h, BANDS), pos, glyph);
    n := n + m;
    StepRedraws(g, h);
  }

  // ---- the animation -----------------------------------------------------------------------------

  /** The whole screen is what a full redraw from the columns' head positions would give. */
  predicate Screen(fb: seq<byte>, g: Grid, pos: seq<int>, glyph: seq<seq<byte>>)
    requires ValidGrid(g)
  {
    |pos| == |glyph| == g.cols && forall c :: 0 <= c < g.cols ==> Column(fb, g, c, glyph[c], Redraw(g, pos[c]))
  }

  function Fill(b: byte, n: nat): (r: seq<byte>)
    ensures |r| == n
  {
    seq(n, _ => b)
  }

  /** k is a byte of the grid's lines. */
  predicate InArea(g: Grid, k: int) {
    exists l :: 0 <= l < LINES * g.rows && l * g.stride <= k < l * g.stride + g.cols * Width(g)
  }

  /** mx_clear */
  method Clear(fb: array<byte>, g: Grid)
    requires ValidGrid(g) && fb.Length >= LINES * g.rows * g.stride
    modifies fb
    ensures forall k :: 0 <= k < fb.Length && fb[k] != old(fb[k]) ==> InArea(g, k)
    ensures forall l :: 0 <= l < LINES * g.rows ==> Laid(fb[..], l * g.stride, Fill(g.bg, g.cols * Width(g)))
  {
    hide ValidGrid, Over, Laid, Fill, InArea;
    var y, row := 0, Fill(g.bg, g.cols * Width(g));
    while y < g.rows * LINES
      invariant 0 <= y <= g.rows * LINES
      invariant forall l :: 0 <= l < y ==> Laid(fb[..], l * g.stride, row)
      invariant forall k :: 0 <= k < fb.Length && fb[k] != old(fb[k]) ==> InArea(g, k)
    {
      LineInside(g, y);
      ghost var s := fb[..];
      Put(fb, y * g.stride, row);
      OutsideLine(s, g, y, row);
      forall l | 0 <= l < y + 1 ensures Laid(fb[..], l * g.stride, row) {
        LineCleared(s, g, y, l, row);
      }
      y := y + 1;
    }
  }

  lemma OutsideLine(s: seq<byte>, g: Grid, y: nat, row: seq<byte>)
    requires y < g.rows * LINES && |row| == g.cols * Width(g) && y * g.stride + |row| <= |s|
    ensures var t := Over(s, y * g.stride, row); forall k :: 0 <= k < |s| && t[k] != s[k] ==> InArea(g, k)
  {
  }

  lemma LineCleared(s: seq<byte>, g: Grid, y: nat, l: nat, row: seq<byte>)
    requires ValidGrid(g) && l <= y < g.rows * LINES && |row| == g.cols * Width(g) && |s| >= LINES * g.rows * g.stride
    requires l < y ==> Laid(s, l * g.stride, row)
    ensures y * g.stride + |row| <= |s| && Laid(Over(s, y * g.stride, row), l * g.stride, row)
  {
    hide ValidGrid, Over, Laid;
    LineInside(g, y);
    if l < y {
      LineInside(g, l);
      MulLe(l + 1, y, g.stride);
      OverKeeps(s, y * g.stride, row, l * g.stride, row);
    } else {
      OverLaid(s, y * g.stride, row);
    }
  }

  lemma LineInside(g: Grid, l: nat)
    requires ValidGrid(g) && l < g.rows * LINES
    ensures l * g.stride + g.cols * Width(g) <= (l + 1) * g.stride <= LINES * g.rows * g.stride
  {
    MulLe(l + 1, LINES * g.rows, g.stride);
  }

  lemma RowsPositive(g: Grid)
    requires ValidGrid(g)
    ensures g.rows > 0
  {
  }

  /** A cleared screen shows nothing, whatever the glyphs. */
  lemma Cleared(fb: seq<byte>, g: Grid, pos: seq<int>, glyph: seq<seq<byte>>)
    requires ValidGrid(g) && |pos| == |glyph| == g.cols && forall c :: 0 <= c < g.cols ==> pos[c] < 0 && |glyph[c]| == g.rows
    requires forall l :: 0 <= l < LINES * g.rows ==> Laid(fb, l * g.stride, Fill(g.bg, g.cols * Width(g)))
    ensures Screen(fb, g, pos, glyph)
  {
    hide ValidGrid, InkRow, Laid, Fill;
    forall c | 0 <= c < g.cols ensures Column(fb, g, c, glyph[c], Redraw(g, pos[c])) {
      forall r | 0 <= r < g.rows ensures Shows(fb, g, r, c, glyph[c][r], Off) {
        forall y | 0 <= y < LINES ensures Laid(fb, Line(g, r, c, y), InkRow(g, glyph[c][r], Off, y)) {
          ClearedLine(fb, g, r, c, y, glyph[c][r]);
        }
      }
    }
  }

  lemma ClearedLine(fb: seq<byte>, g: Grid, r: nat, c: nat, y: nat, ch: byte)
    requires ValidGrid(g) && r < g.rows && c < g.cols && y < LINES
    requires Laid(fb, (LINES * r + y) * g.stride, Fill(g.bg, g.cols * Width(g)))
    ensures Laid(fb, Line(g, r, c, y), InkRow(g, ch, Off, y))
  {
    hide InkRow, Fill, Laid, ValidGrid, Width;
    var o, w := (LINES * r + y) * g.stride, Width(g);
    CellInLine(c, g.cols, w);
    FillPart(fb, o, g.bg, g.cols * w, o + c * w, w);
    OffIsBackground(g, ch, y);
  }

  lemma CellInLine(c: nat, cols: nat, w: nat)
    requires c < cols
    ensures 0 <= c * w && c * w + w <= cols * w
  {
    MulLe(c + 1, cols, w);
  }

  lemma FillPart(s: seq<byte>, o: int, b: byte, n: nat, p: int, m: nat)
    requires Laid(s, o, Fill(b, n)) && o <= p && p + m <= o + n
    ensures Laid(s, p, Fill(b, m))
  {
    var z := s[o..o + n];
    forall i | p <= i < p + m ensures s[i] == b {
      assert s[i] == z[i - o];
    }
  }

  lemma OffIsBackground(g: Grid, ch: byte, y: nat)
    requires ValidGrid(g) && y < LINES
    ensures InkRow(g, ch, Off, y) == Fill(g.bg, Width(g))
  {
  }

  /** The codes of 0123456789ABCDEFGHIJKLMNOPQRSTUVWXYZ$+-*=<>:;| */
  const GLYPHS: seq<byte> :=
    [48, 49, 50, 51, 52, 53, 54, 55, 56, 57, 65, 66, 67, 68, 69, 70, 71, 72, 73, 74, 75, 76, 77, 78, 79, 80, 81, 82, 83, 84,
     85, 86, 87, 88, 89, 90, 36, 43, 45, 42, 61, 60, 62, 58, 59, 124]

  predicate IsGlyph(b: byte) { b in GLYPHS }

  lemma GlyphAt(k: nat)
    requires k < |GLYPHS|
    ensures IsGlyph(GLYPHS[k])
  {
  }

  lemma GlyphCount()
    ensures |GLYPHS| == 46
  {
  }

  // ---- one column over time ----------------------------------------------------------------------

  /** What mx_frame keeps for a column. */
  datatype Drop = Drop(pos: int, speed: int, tick: int, glyph: seq<byte>)

  /** The head of the column moves in this frame. */
  predicate Moves(d: Drop) { d.pos >= 0 && d.tick + 1 >= d.speed }

  /** A frame of one column.  An idle one counts up to its start, where it gets a speed of one to three frames a row.  One
      that has started moves down a row each time its speed has passed, with a new glyph at the head, until the tail is off
      the screen; then it is idle again, for at most as many frames as there are rows. */
  predicate Turn(g: Grid, d: Drop, e: Drop) {
    if d.pos < 0 then
      && e.pos == d.pos + 1 && e.glyph == d.glyph
      && (if e.pos == 0 then 1 <= e.speed <= 3 && e.tick == 0 else e.speed == d.speed && e.tick == d.tick)
    else if d.tick + 1 < d.speed then
      e == d.(tick := d.tick + 1)
    else
      && e.tick == 0 && e.speed == d.speed && Kept(g, d.pos, d.glyph, e.glyph)
      && (d.pos < g.rows ==> IsGlyph(e.glyph[d.pos]))
      && (if d.pos < g.rows + TAIL then e.pos == d.pos + 1 else e.pos < 0 <= e.pos + g.rows)
  }

  /** Speeds are one to three frames a row. */
  predicate Paced(d: Drop) { 1 <= d.speed <= 3 && 0 <= d.tick < d.speed }

  lemma TurnPaced(g: Grid, d: Drop, e: Drop)
    requires Paced(d) && Turn(g, d, e)
    ensures Paced(e)
  {
  }

  predicate InPace(speed: seq<int>, tick: seq<int>) {
    |speed| == |tick| && forall c :: 0 <= c < |speed| ==> 1 <= speed[c] <= 3 && 0 <= tick[c] < speed[c]
  }

  /** The states of one column, frame by frame. */
  predicate Falls(g: Grid, run: seq<Drop>) { forall i :: 0 < i < |run| ==> TurnAt(g, run, i) }

  predicate TurnAt(g: Grid, run: seq<Drop>, i: nat)
    requires 0 < i < |run|
  {
    Turn(g, run[i - 1], run[i])
  }

  /** One column of the frames of a whole grid. */
  function Track(run: seq<seq<Drop>>, cols: nat, c: nat): (r: seq<Drop>)
    requires c < cols && forall i :: 0 <= i < |run| ==> |run[i]| == cols
    ensures |r| == |run| && forall i :: 0 <= i < |run| ==> r[i] == run[i][c]
  {
    seq(|run|, i requires 0 <= i < |run| => run[i][c])
  }

  lemma TrackSnoc(g: Grid, run: seq<seq<Drop>>, ds: seq<Drop>, c: nat)
    requires c < g.cols == |ds| && run != [] && forall i :: 0 <= i < |run| ==> |run[i]| == g.cols
    requires Falls(g, Track(run, g.cols, c)) && Turn(g, run[|run| - 1][c], ds[c])
    ensures Falls(g, Track(run + [ds], g.cols, c))
  {
    hide Turn;
    var r, t := Track(run, g.cols, c), Track(run + [ds], g.cols, c);
    forall i | 0 < i < |t| ensures TurnAt(g, t, i) {
      if i < |r| {
        assert TurnAt(g, r, i);
      }
    }
  }

  /** From its start a head is at row k / speed after k frames, down to where its tail leaves the screen. */
  lemma {:induction false} FallsEvenly(g: Grid, run: seq<Drop>, k: nat)
    requires k < |run| && Falls(g, run) && run[0].pos == 0 && run[0].tick == 0 && 1 <= run[0].speed <= 3
    requires k <= run[0].speed * (g.rows + TAIL)
    ensures run[k].pos == k / run[0].speed && run[k].tick == k % run[0].speed && run[k].speed == run[0].speed
    decreases k
  {
    hide Kept, IsGlyph;
    if k > 0 {
      FallsEvenly(g, run, k - 1);
      assert TurnAt(g, run, k);
    }
  }

  /** An idle column starts after as many frames as it is below zero, and one at its start is idle again, with nothing left
      on the screen, (rows + 13) * speed frames later. */
  lemma {:induction false} Waits(g: Grid, run: seq<Drop>, k: nat)
    requires k < |run| && Falls(g, run) && run[0].pos < 0 && k <= -run[0].pos
    ensures run[k].pos == run[0].pos + k
    decreases k
  {
    hide Kept, IsGlyph;
    if k > 0 {
      Waits(g, run, k - 1);
      assert TurnAt(g, run, k);
    }
  }

  lemma Returns(g: Grid, run: seq<Drop>)
    requires Falls(g, run) && run != [] && run[0].pos == 0 && run[0].tick == 0 && 1 <= run[0].speed <= 3
    requires run[0].speed * (g.rows + TAIL + 1) < |run|
    ensures var e := run[run[0].speed * (g.rows + TAIL + 1)].pos; e < 0 <= e + g.rows
  {
    hide Kept, IsGlyph;
    var s, h := run[0].speed, g.rows + TAIL;
    FallsEvenly(g, run, s * h);
    assert s * h / s == h && s * h % s == 0;
    assert TurnAt(g, run, s * h + 1);
    if s > 1 {
      assert TurnAt(g, run, s * h + 2);
    }
    if s > 2 {
      assert TurnAt(g, run, s * h + 3);
    }
  }

  function ShiftedLeft(x: bv32, k: nat): bv32
    requires k < 32
  {
    x ^ (x << k)
  }

  function ShiftedRight(x: bv32, k: nat): bv32
    requires k < 32
  {
    x ^ (x >> k)
  }

  /** One step of the random numbers. */
  function Shifted(x: bv32): bv32 { ShiftedLeft(ShiftedRight(ShiftedLeft(x, 13), 17), 5) }

  lemma LeftNonZero(x: bv32)
    requires x != 0
    ensures x ^ (x << 13) != 0 && x ^ (x << 5) != 0
  {
  }

  lemma RightNonZero(x: bv32)
    requires x != 0
    ensures x ^ (x >> 17) != 0
  {
  }

  /** They never get stuck at zero. */
  lemma NeverZero(x: bv32)
    requires x != 0
    ensures Shifted(x) != 0
  {
    LeftNonZero(x);
    RightNonZero(ShiftedLeft(x, 13));
    LeftNonZero(ShiftedRight(ShiftedLeft(x, 13), 17));
  }

  /** The cells drawn in a frame, in the first k columns. */
  function DrawnIn(g: Grid, ds: seq<Drop>, k: nat): (n: nat)
    requires k <= |ds|
    ensures n <= 6 * k
  {
    if k == 0 then 0 else DrawnIn(g, ds, k - 1) + (if Moves(ds[k - 1]) then Drawn(g, ds[k - 1].pos) else 0)
  }

  predicate TouchedIn(g: Grid, ds: seq<Drop>, k: int) {
    exists c :: 0 <= c < |ds| && Moves(ds[c]) && Touched(g, c, ds[c].pos, k)
  }

  class Mx {
    const g: Grid
    const fb: array<byte>
    var pos: seq<int>
    var speed: seq<int>
    var tick: seq<int>
    var glyph: seq<seq<byte>>
    var seed: bv32

    ghost predicate Valid()
      reads this, fb
    {
      && ValidGrid(g) && fb.Length >= LINES * g.rows * g.stride
      && |pos| == |glyph| == |speed| == |tick| == g.cols && seed != 0
      && Screen(fb[..], g, pos, glyph) && InPace(speed, tick)
    }

    /** The columns. */
    ghost function Drops(): (ds: seq<Drop>)
      reads this
      requires |pos| == |speed| == |tick| == |glyph| == g.cols
      ensures |ds| == g.cols && forall c :: 0 <= c < g.cols ==> ds[c] == Drop(pos[c], speed[c], tick[c], glyph[c])
    {
      seq(g.cols, c requires 0 <= c < g.cols reads this requires |pos| == |speed| == |tick| == |glyph| == g.cols =>
        Drop(pos[c], speed[c], tick[c], glyph[c]))
    }

    /** mx_init and mx_clear: every column idle, the whole area in the background colour. */
    constructor (g: Grid, fb: array<byte>, seed: bv32)
      requires ValidGrid(g) && fb.Length >= LINES * g.rows * g.stride
      modifies fb
      ensures Valid() && this.g == g && this.fb == fb
      ensures forall k :: 0 <= k < fb.Length && fb[k] != old(fb[k]) ==> InArea(g, k)
      ensures |pos| == g.cols && forall c :: 0 <= c < g.cols ==> pos[c] < 0 <= pos[c] + 2 * g.rows
    {
      hide ValidGrid, Redraw, Column, InArea;
      this.g, this.fb, this.seed := g, fb, if seed == 0 then 1 else seed;
      pos, speed, tick, glyph := [], [], [], seq(g.cols, _ => Zeros(g.rows));
      new;
      var i := 0;
      while i < g.cols
        invariant 0 <= i <= g.cols && |pos| == |speed| == |tick| == i && (forall c :: 0 <= c < i ==> pos[c] < 0 <= pos[c] + 2 * g.rows)
        invariant this.seed != 0 && forall c :: 0 <= c < i ==> 1 <= speed[c] <= 3 && tick[c] == 0
        invariant glyph == seq(g.cols, _ => Zeros(g.rows)) && fb[..] == old(fb[..])
      {
        var a := Rnd();
        var b := Rnd();
        RowsPositive(g);
        pos, speed, tick := pos + [-1 - a % (g.rows * 2)], speed + [1 + b % 3], tick + [0];
        i := i + 1;
      }
      assert forall k :: 0 <= k < fb.Length ==> fb[k] == fb[..][k] == old(fb[..])[k] == old(fb[k]);
      Clear(fb, g);
      Cleared(fb[..], g, pos, glyph);
    }

    method Rnd() returns (r: nat)
      requires seed != 0
      modifies this`seed
      ensures seed == Shifted(old(seed)) && seed != 0 && r == seed as nat
    {
      hide ShiftedLeft, ShiftedRight;
      NeverZero(seed);
      Left(13);
      Right(17);
      Left(5);
      r := seed as nat;
    }

    method Left(k: nat)
      requires k < 32
      modifies this`seed
      ensures seed == ShiftedLeft(old(seed), k)
    {
      seed := seed ^ (seed << k);
    }

    method Right(k: nat)
      requires k < 32
      modifies this`seed
      ensures seed == ShiftedRight(old(seed), k)
    {
      seed := seed ^ (seed >> k);
    }

    /** mx_frame on a column whose head moves: at most six cells are drawn, and the column is redrawn. */
    method Step(c: nat) returns (n: nat)
      requires Valid() && c < g.cols && pos[c] >= 0
      modifies this`pos, this`glyph, this`seed, fb
      ensures Valid() && n == Drawn(g, old(pos[c])) && |glyph[c]| == g.rows
      ensures forall b :: 0 <= b < g.cols && b != c ==> pos[b] == old(pos[b]) && glyph[b] == old(glyph[b])
      ensures if old(pos[c]) < g.rows + TAIL then pos[c] == old(pos[c]) + 1 else pos[c] < 0 <= pos[c] + g.rows
      ensures old(pos[c]) < g.rows ==> IsGlyph(glyph[c][old(pos[c])])
      ensures Kept(g, old(pos[c]), old(glyph[c]), glyph[c])
      ensures forall k :: 0 <= k < fb.Length && fb[k] != old(fb[k]) ==> Touched(g, c, old(pos[c]), k)
    {
      hide ValidGrid, Redraw, Column, Others, Touched, Drawn, IsGlyph, InPace;
      var h, gl := pos[c], glyph[c];
      ghost var pos0, glyph0 := pos, glyph;
      Sizes(fb[..], g, pos, glyph, c);
      if h < g.rows {
        var x := Rnd();
        GlyphCount();
        GlyphAt(x % 46);
        gl := gl[h := GLYPHS[x % 46]];
      }
      Begin(fb[..], g, pos, glyph, c, h, gl);
      n := DrawStep(fb, g, c, h, gl, pos0, glyph0);
      glyph := glyph[c := gl];
      if h - 1 - TAIL >= g.rows - 1 {
        var x := Rnd();
        TailGone(g, h, -1 - x % g.rows);
        pos := pos[c := -1 - x % g.rows];
      } else {
        pos := pos[c := h + 1];
      }
      Finish(fb[..], g, pos0, glyph0, pos, glyph, c, gl);
    }

    /** mx_frame's body, for one column. */
    method Column1(c: nat) returns (n: nat)
      requires Valid() && c < g.cols
      modifies this, fb
      ensures Valid()
      ensures forall b :: 0 <= b < g.cols && b != c ==> Drops()[b] == old(Drops())[b]
      ensures Turn(g, old(Drops())[c], Drops()[c])
      ensures n == if Moves(old(Drops())[c]) then Drawn(g, old(pos[c])) else 0
      ensures forall k :: 0 <= k < fb.Length && fb[k] != old(fb[k]) ==> Moves(old(Drops())[c]) && Touched(g, c, old(pos[c]), k)
    {
      hide ValidGrid, Redraw, Column, Screen, Drawn, Touched, IsGlyph;
      ghost var d := Drops()[c];
      assert d == Drop(pos[c], speed[c], tick[c], glyph[c]);
      n := 0;
      if pos[c] < 0 {
        Idle(fb[..], g, pos, glyph, c);
        pos := pos[c := pos[c] + 1];
        if pos[c] == 0 {
          var x := Rnd();
          speed, tick := speed[c := 1 + x % 3], tick[c := 0];
        }
      } else if tick[c] + 1 >= speed[c] {
        tick := tick[c := 0];
        n := Step(c);
      } else {
        tick := tick[c := tick[c] + 1];
      }
      assert Drops()[c] == Drop(pos[c], speed[c], tick[c], glyph[c]);
    }

    /** mx_frame: one frame later every column has had its turn, the screen is again what a full redraw would give, and n
        cells have been drawn, six at most in each column whose head moved. */
    method Frame() returns (n: nat)
      requires Valid()
      modifies this, fb
      ensures Valid() && n == DrawnIn(g, old(Drops()), g.cols)
      ensures forall c :: 0 <= c < g.cols ==> Turn(g, old(Drops())[c], Drops()[c])
      ensures forall k :: 0 <= k < fb.Length && fb[k] != old(fb[k]) ==> TouchedIn(g, old(Drops()), k)
    {
      hide ValidGrid, Redraw, Column, Screen, Drawn, Touched, IsGlyph, Turn, InPace, Moves;
      var c := 0;
      n := 0;
      ghost var ds := Drops();
      while c < g.cols
        invariant 0 <= c <= g.cols && Valid() && n == DrawnIn(g, ds, c)
        invariant forall b :: c <= b < g.cols ==> Drops()[b] == ds[b]
        invariant forall b :: 0 <= b < c ==> Turn(g, ds[b], Drops()[b])
        invariant forall k :: 0 <= k < fb.Length && fb[k] != old(fb[k]) ==> TouchedIn(g, ds, k)
      {
        assert Drops()[c] == ds[c];
        var m := Column1(c);
        n, c := n + m, c + 1;
      }
    }
  }

  /** After any number of frames on a cleared screen, every column has fallen as it should and the screen is what a full
      redraw would give. */
  method Animate(g: Grid, fb: array<byte>, seed: bv32, frames: nat) returns (m: Mx, ghost run: seq<seq<Drop>>)
    requires ValidGrid(g) && fb.Length >= LINES * g.rows * g.stride
    modifies fb
    ensures m.g == g && m.fb == fb && m.Valid() && Screen(fb[..], g, m.pos, m.glyph)
    ensures |run| == frames + 1 && run[frames] == m.Drops()
    ensures forall i :: 0 <= i <= frames ==> |run[i]| == g.cols && forall c :: 0 <= c < g.cols ==> Paced(run[i][c])
    ensures forall c :: 0 <= c < g.cols ==> run[0][c].pos < 0 <= run[0][c].pos + 2 * g.rows
    ensures forall c :: 0 <= c < g.cols ==> Falls(g, Track(run, g.cols, c))
  {
    hide ValidGrid, Screen, Turn, Falls;
    m := new Mx(g, fb, seed);
    run := [m.Drops()];
    forall c | 0 <= c < g.cols ensures Falls(g, Track(run, g.cols, c)) {
      OneFrame(g, Track(run, g.cols, c));
    }
    var i := 0;
    while i < frames
      invariant 0 <= i <= frames && fresh(m) && m.g == g && m.fb == fb && m.Valid()
      invariant |run| == i + 1 && run[i] == m.Drops()
      invariant forall k :: 0 <= k <= i ==> |run[k]| == g.cols && forall c :: 0 <= c < g.cols ==> Paced(run[k][c])
      invariant forall c :: 0 <= c < g.cols ==> run[0][c].pos < 0 <= run[0][c].pos + 2 * g.rows
      invariant forall c :: 0 <= c < g.cols ==> Falls(g, Track(run, g.cols, c))
    {
      var _ := m.Frame();
      forall c | 0 <= c < g.cols ensures Falls(g, Track(run + [m.Drops()], g.cols, c)) {
        TrackSnoc(g, run, m.Drops(), c);
      }
      run := run + [m.Drops()];
      i := i + 1;
    }
  }

  lemma OneFrame(g: Grid, run: seq<Drop>)
    requires |run| == 1
    ensures Falls(g, run)
  {
  }

  /** A column's glyphs are as they were, but for the row the head passed. */
  predicate Kept(g: Grid, head: int, old_: seq<byte>, new_: seq<byte>) {
    |old_| == |new_| == g.rows && forall r :: 0 <= r < g.rows && r != head ==> new_[r] == old_[r]
  }

  lemma Begin(fb: seq<byte>, g: Grid, pos: seq<int>, glyph: seq<seq<byte>>, c: nat, h: int, gl: seq<byte>)
    requires ValidGrid(g) && c < g.cols && Screen(fb, g, pos, glyph) && h == pos[c] && Kept(g, h, glyph[c], gl)
    ensures Others(fb, g, pos, glyph, c) && ColumnBut(fb, g, c, gl, Redraw(g, h), h)
  {
    hide Shows, ValidGrid, Redraw;
  }

  lemma First(g: Grid, h: int)
    ensures Banded(g, h, 0) == Put1(Redraw(g, h), h, Lit(0))
  {
  }

  lemma Next(g: Grid, h: int, b: nat)
    ensures Banded(g, h, b + 1) == Put1(Banded(g, h, b), h - 1 - b * BAND_LEN, Lit(b + 1))
  {
  }

  lemma Whole(fb: seq<byte>, g: Grid, c: nat, glyph: seq<byte>, lev: seq<Level>, k: int)
    requires ValidGrid(g) && Column(fb, g, c, glyph, lev)
    ensures ColumnBut(fb, g, c, glyph, lev, k)
  {
  }

  lemma Finish(fb: seq<byte>, g: Grid, pos0: seq<int>, glyph0: seq<seq<byte>>, pos: seq<int>, glyph: seq<seq<byte>>,
    c: nat, gl: seq<byte>)
    requires ValidGrid(g) && |pos| == |pos0| == |glyph0| == g.cols && c < g.cols && Others(fb, g, pos0, glyph0, c)
    requires pos == pos0[c := pos[c]] && glyph == glyph0[c := gl] && Column(fb, g, c, gl, Redraw(g, pos[c]))
    ensures Screen(fb, g, pos, glyph)
  {
    hide Column, Redraw, ValidGrid;
  }

  lemma Sizes(fb: seq<byte>, g: Grid, pos: seq<int>, glyph: seq<seq<byte>>, c: nat)
    requires ValidGrid(g) && Screen(fb, g, pos, glyph) && c < g.cols
    ensures |pos| == |glyph| == g.cols && |glyph[c]| == g.rows > 0
  {
    hide Shows, Redraw;
  }

  lemma Idle(fb: seq<byte>, g: Grid, pos: seq<int>, glyph: seq<seq<byte>>, c: nat)
    requires ValidGrid(g) && Screen(fb, g, pos, glyph) && c < g.cols && pos[c] < 0
    ensures Screen(fb, g, pos[c := pos[c] + 1], glyph)
  {
    hide Column, ValidGrid;
    AboutToStart(g, pos[c]);
  }
}
