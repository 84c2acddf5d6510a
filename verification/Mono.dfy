/** Blits and fills on the one-bit screen (src/atwbg/atwmono.c): the copy engine against the plain per-pixel result. */
module Mono {

  // ---- the screen --------------------------------------------------------------------------------

  /** A screen of the given number of lines, pitch bytes each. */
  predicate OnScreen(pitch: int, lines: int, x: int, y: int) { 0 <= x < 8 * pitch && 0 <= y < lines }

  function Addr(pitch: int, x: int, y: int): int { y * pitch + x / 8 }

  /** Pixel x of line y; the leftmost of a byte is its highest bit. */
  predicate Pixel(m: seq<bv8>, pitch: int, x: int, y: int) {
    0 <= Addr(pitch, x, y) < |m| && BitOf(m[Addr(pitch, x, y)], x % 8)
  }

  predicate BitOf(b: bv8, k: int)
    requires 0 <= k < 8
  {
    b & Mask(k) != 0
  }

  function Mask(k: int): bv8
    requires 0 <= k < 8
  {
    if k == 0 then 0x80 else if k == 1 then 0x40 else if k == 2 then 0x20 else if k == 3 then 0x10
    else if k == 4 then 8 else if k == 5 then 4 else if k == 6 then 2 else 1
  }

  lemma AddrInside(pitch: int, lines: int, x: int, y: int, len: int)
    requires OnScreen(pitch, lines, x, y) && lines * pitch <= len
    ensures 0 <= x / 8 < pitch && 0 <= Addr(pitch, x, y) < len
  {
    Product(y, pitch);
    Gap(y, lines, pitch);
  }

  lemma Product(a: int, b: int)
    requires 0 <= a && 0 <= b
    ensures 0 <= a * b
  {
  }

  // ---- the copy engine ---------------------------------------------------------------------------

  /** k is in the block of h rows of w bytes at d. */
  predicate InBlock(d: int, pitch: int, w: int, h: int, k: int)
    requires pitch > 0
  {
    d <= k && (k - d) / pitch < h && (k - d) % pitch < w
  }

  /** Where the byte for k comes from. */
  function From(s: int, spitch: int, d: int, dpitch: int, k: int): int
    requires dpitch > 0
  {
    s + (k - d) / dpitch * spitch + (k - d) % dpitch
  }

  lemma Place(d: int, pitch: int, i: int, j: int)
    requires 0 <= j < pitch
    ensures (d + i * pitch + j - d) / pitch == i && (d + i * pitch + j - d) % pitch == j
  {
    DivMod(i, j, pitch);
  }

  lemma DivMod(i: int, j: int, pitch: int)
    requires 0 <= j < pitch
    ensures (i * pitch + j) / pitch == i && (i * pitch + j) % pitch == j
  {
    var n := i * pitch + j;
    Quotient(n, pitch, i, j);
  }

  /** A quotient and a remainder are determined. */
  lemma Quotient(n: int, p: int, i: int, j: int)
    requires 0 <= j < p && n == i * p + j
    ensures n / p == i && n % p == j
  {
    Euclid(n, p);
    Unique(p, n / p, n % p, i, j);
  }

  lemma Euclid(n: int, p: int)
    requires p > 0
    ensures n == n / p * p + n % p && 0 <= n % p < p
  {
  }

  lemma Unique(p: int, q: int, r: int, i: int, j: int)
    requires 0 <= r < p && 0 <= j < p && q * p + r == i * p + j
    ensures q == i && r == j
  {
    if q < i {
      Gap(q, i, p);
    } else if i < q {
      Gap(i, q, p);
    }
  }

  lemma Gap(a: int, b: int, p: int)
    requires a < b && p > 0
    ensures a * p + p <= b * p
  {
    Product(b - a - 1, p);
    assert (b - a - 1) * p == b * p - a * p - p;
  }

  /** The block's byte k as it should be after the copy. */
  function Copied(m: seq<bv8>, s: int, sp: int, d: int, dp: int, w: int, h: int, k: int): bv8
    requires dp > 0 && 0 <= k < |m| && (InBlock(d, dp, w, h, k) ==> 0 <= From(s, sp, d, dp, k) < |m|)
  {
    if InBlock(d, dp, w, h, k) then m[From(s, sp, d, dp, k)] else m[k]
  }

  /** Every byte of the block is inside the screen, and so is the byte it is copied from. */
  ghost predicate Sane(len: int, s: int, sp: int, d: int, dp: int, w: int, h: int)
    requires dp > 0
  {
    && 0 < w <= dp && 0 < h && 0 <= d && d + (h - 1) * dp + w <= len
    && forall k :: InBlock(d, dp, w, h, k) ==> 0 <= From(s, sp, d, dp, k) < len
  }

  /** The block's bytes below b have been copied, and nothing else has changed. */
  ghost predicate DoneBelow(was: seq<bv8>, now: seq<bv8>, s: int, sp: int, d: int, dp: int, w: int, h: int, b: int)
    requires dp > 0 && Sane(|was|, s, sp, d, dp, w, h)
  {
    |was| == |now| && forall k :: 0 <= k < |was| ==>
      now[k] == if InBlock(d, dp, w, h, k) && k < b then was[From(s, sp, d, dp, k)] else was[k]
  }

  /** Each byte is read before it is written, or never written. */
  ghost predicate ReadFirst(s: int, sp: int, d: int, dp: int, w: int, h: int)
    requires dp > 0
  {
    forall k :: InBlock(d, dp, w, h, k) ==> From(s, sp, d, dp, k) >= k || !InBlock(d, dp, w, h, From(s, sp, d, dp, k))
  }

  /** Mode 1: rows downwards, bytes upwards. */
  method Forward(mem: array<bv8>, s: int, sp: int, d: int, dp: int, w: int, h: int)
    requires dp > 0 && Sane(mem.Length, s, sp, d, dp, w, h) && ReadFirst(s, sp, d, dp, w, h)
    modifies mem
    ensures forall k :: 0 <= k < mem.Length ==> mem[k] == Copied(old(mem[..]), s, sp, d, dp, w, h, k)
  {
    var i := 0;
    var a, b := s, d;
    ghost var was := mem[..];
    NoneBelow(was, s, sp, d, dp, w, h);
    hide InBlock, From, Sane, DoneBelow, ReadFirst;
    while i < h
      invariant 0 <= i <= h && a == s + i * sp && b == d + i * dp
      invariant DoneBelow(was, mem[..], s, sp, d, dp, w, h, b)
    {
      ForwardRow(mem, a, b, w, s, sp, d, dp, h, i, was);
      RowDown(i, sp);
      RowDown(i, dp);
      a, b, i := a + sp, b + dp, i + 1;
    }
    AllBelow(was, mem[..], s, sp, d, dp, w, h, i);
  }

  lemma RowDown(i: int, p: int)
    ensures (i + 1) * p == i * p + p
  {
  }

  lemma NoneBelow(was: seq<bv8>, s: int, sp: int, d: int, dp: int, w: int, h: int)
    requires dp > 0 && Sane(|was|, s, sp, d, dp, w, h)
    ensures h > 0 && DoneBelow(was, was, s, sp, d, dp, w, h, d)
  {
    hide From;
  }

  lemma AllBelow(was: seq<bv8>, now: seq<bv8>, s: int, sp: int, d: int, dp: int, w: int, h: int, i: int)
    requires dp > 0 && Sane(|was|, s, sp, d, dp, w, h) && i >= h && DoneBelow(was, now, s, sp, d, dp, w, h, d + i * dp)
    ensures forall k :: 0 <= k < |was| ==> now[k] == Copied(was, s, sp, d, dp, w, h, k)
  {
    hide From, InBlock;
    Product(i - h, dp);
    assert i * dp == h * dp + (i - h) * dp;
    forall k | 0 <= k < |was| ensures InBlock(d, dp, w, h, k) ==> k < d + i * dp {
      if InBlock(d, dp, w, h, k) {
        Below(d, dp, w, h, k);
      }
    }
  }

  lemma Below(d: int, dp: int, w: int, h: int, k: int)
    requires dp > 0 && InBlock(d, dp, w, h, k)
    ensures k < d + h * dp
  {
    Euclid(k - d, dp);
    Gap((k - d) / dp, h, dp);
  }

  method ForwardRow(mem: array<bv8>, a: int, b: int, w: int, ghost s: int, ghost sp: int, ghost d: int, ghost dp: int,
    ghost h: int, ghost i: int, ghost was: seq<bv8>)
    requires dp > 0 && Sane(|was|, s, sp, d, dp, w, h) && ReadFirst(s, sp, d, dp, w, h) && 0 <= i < h
    requires a == s + i * sp && b == d + i * dp && DoneBelow(was, mem[..], s, sp, d, dp, w, h, b)
    modifies mem
    ensures DoneBelow(was, mem[..], s, sp, d, dp, w, h, b + dp)
  {
    hide InBlock, From;
    var j := 0;
    while j < w
      invariant 0 <= j <= w && DoneBelow(was, mem[..], s, sp, d, dp, w, h, b + j)
    {
      AtRow(s, sp, d, dp, w, h, i, j);
      RowInside(mem.Length, d, dp, w, h, i, j);
      mem[b + j] := mem[a + j];
      j := j + 1;
    }
    forall k | b + w <= k < b + dp ensures !InBlock(d, dp, w, h, k) {
      RowEnd(d, dp, w, h, i, k);
    }
  }

  lemma RowEnd(d: int, dp: int, w: int, h: int, i: int, k: int)
    requires 0 < w <= dp && d + i * dp + w <= k < d + i * dp + dp
    ensures !InBlock(d, dp, w, h, k)
  {
    Place(d, dp, i, k - d - i * dp);
  }

  lemma RowInside(len: int, d: int, dp: int, w: int, h: int, i: int, j: int)
    requires 0 < w <= dp && 0 <= i < h && 0 <= j < w && 0 <= d && d + (h - 1) * dp + w <= len
    ensures 0 <= d + i * dp + j < len
  {
  }

  /** The block's bytes above b have been copied, and nothing else has changed. */
  ghost predicate DoneAbove(was: seq<bv8>, now: seq<bv8>, s: int, d: int, pitch: int, w: int, h: int, b: int)
    requires pitch > 0 && Sane(|was|, s, pitch, d, pitch, w, h)
  {
    |was| == |now| && forall k :: 0 <= k < |was| ==>
      now[k] == if InBlock(d, pitch, w, h, k) && k > b then was[From(s, pitch, d, pitch, k)] else was[k]
  }

  /** Mode 3: from the last byte backwards, rows upwards. */
  method Backward(mem: array<bv8>, slast: int, dlast: int, pitch: int, w: int, h: int, ghost s: int, ghost d: int)
    requires pitch > 0 && Sane(mem.Length, s, pitch, d, pitch, w, h) && s <= d
    requires slast == s + (h - 1) * pitch + w - 1 && dlast == d + (h - 1) * pitch + w - 1
    modifies mem
    ensures forall k :: 0 <= k < mem.Length ==> mem[k] == Copied(old(mem[..]), s, pitch, d, pitch, w, h, k)
  {
    var i := h;
    var a, b := slast, dlast;
    ghost var was := mem[..];
    NoneAbove(was, s, d, pitch, w, h, dlast);
    hide InBlock, From, Sane, DoneAbove;
    while i > 0
      invariant 0 <= i <= h && a == s + (i - 1) * pitch + w - 1 && b == d + (i - 1) * pitch + w - 1
      invariant DoneAbove(was, mem[..], s, d, pitch, w, h, b)
    {
      BackwardRow(mem, a, b, w, s, d, pitch, h, i - 1, was);
      RowUp(i, pitch);
      a, b, i := a - pitch, b - pitch, i - 1;
    }
    AllAbove(was, mem[..], s, d, pitch, w, h, b);
  }

  lemma RowUp(i: int, pitch: int)
    ensures (i - 2) * pitch == (i - 1) * pitch - pitch && (0 - 1) * pitch == -pitch
  {
  }

  lemma NoneAbove(was: seq<bv8>, s: int, d: int, pitch: int, w: int, h: int, b: int)
    requires pitch > 0 && Sane(|was|, s, pitch, d, pitch, w, h) && b == d + (h - 1) * pitch + w - 1
    ensures DoneAbove(was, was, s, d, pitch, w, h, b)
  {
    hide InBlock, From;
    forall k | 0 <= k < |was| ensures !(InBlock(d, pitch, w, h, k) && k > b) {
      if InBlock(d, pitch, w, h, k) {
        LastByte(d, pitch, w, h, k);
      }
    }
  }

  lemma AllAbove(was: seq<bv8>, now: seq<bv8>, s: int, d: int, pitch: int, w: int, h: int, b: int)
    requires pitch > 0 && Sane(|was|, s, pitch, d, pitch, w, h) && b < d && DoneAbove(was, now, s, d, pitch, w, h, b)
    ensures forall k :: 0 <= k < |was| ==> now[k] == Copied(was, s, pitch, d, pitch, w, h, k)
  {
  }

  lemma LastByte(d: int, pitch: int, w: int, h: int, k: int)
    requires pitch > 0 && InBlock(d, pitch, w, h, k)
    ensures d <= k <= d + (h - 1) * pitch + w - 1
  {
    var q := (k - d) / pitch;
    Euclid(k - d, pitch);
    Product(h - 1 - q, pitch);
    assert (h - 1 - q) * pitch == (h - 1) * pitch - q * pitch;
  }

  method BackwardRow(mem: array<bv8>, a: int, b: int, w: int, ghost s: int, ghost d: int, ghost pitch: int,
    ghost h: int, ghost i: int, ghost was: seq<bv8>)
    requires pitch > 0 && Sane(|was|, s, pitch, d, pitch, w, h) && s <= d && 0 <= i < h
    requires a == s + i * pitch + w - 1 && b == d + i * pitch + w - 1 && DoneAbove(was, mem[..], s, d, pitch, w, h, b)
    modifies mem
    ensures DoneAbove(was, mem[..], s, d, pitch, w, h, b - pitch)
  {
    hide InBlock, From;
    var j := w;
    while j > 0
      invariant 0 <= j <= w && DoneAbove(was, mem[..], s, d, pitch, w, h, b - w + j)
    {
      AtRow(s, pitch, d, pitch, w, h, i, j - 1);
      RowInside(mem.Length, d, pitch, w, h, i, j - 1);
      mem[b - w + j] := mem[a - w + j];
      j := j - 1;
    }
    forall k | b - pitch < k <= b - w ensures !InBlock(d, pitch, w, h, k) {
      Between(d, pitch, w, h, i, k);
    }
  }

  lemma AtRow(s: int, sp: int, d: int, dp: int, w: int, h: int, i: int, j: int)
    requires 0 <= j < w <= dp && 0 <= i < h
    ensures InBlock(d, dp, w, h, d + i * dp + j) && From(s, sp, d, dp, d + i * dp + j) == s + i * sp + j
  {
    Product(i, dp);
    Place(d, dp, i, j);
  }

  /** Between two rows of the block there is nothing of it. */
  lemma Between(d: int, pitch: int, w: int, h: int, i: int, k: int)
    requires 0 < w <= pitch && d + i * pitch + w - 1 - pitch < k < d + i * pitch
    ensures !InBlock(d, pitch, w, h, k)
  {
    var j := k - d - i * pitch + pitch;
    assert (i - 1) * pitch == i * pitch - pitch;
    Quotient(k - d, pitch, i - 1, j);
  }

  // ---- blits -------------------------------------------------------------------------------------

  datatype Rect = Rect(x1: int, y1: int, x2: int, y2: int)

  datatype Clip = NoClip | To(r: Rect)

  predicate Within(r: Rect, x: int, y: int) { r.x1 <= x <= r.x2 && r.y1 <= y <= r.y2 }

  predicate Visible(c: Clip, x: int, y: int) { c.To? ==> Within(c.r, x, y) }

  /** Source corner, destination corner and size. */
  datatype Box = Box(sx: int, sy: int, dx: int, dy: int, w: int, h: int)

  /** The clipping steps of mono_blit_c: the destination is cut, the source moves with it. */
  function Clipped(src: Rect, dst: Rect, c: Clip): Box {
    var b := Box(src.x1, src.y1, dst.x1, dst.y1, src.x2 - src.x1 + 1, src.y2 - src.y1 + 1);
    if c.NoClip? then b
    else
      var b1 := if b.dx < c.r.x1 then b.(sx := b.sx + c.r.x1 - b.dx, w := b.w - (c.r.x1 - b.dx), dx := c.r.x1) else b;
      var b2 := if b1.dy < c.r.y1 then b1.(sy := b1.sy + c.r.y1 - b1.dy, h := b1.h - (c.r.y1 - b1.dy), dy := c.r.y1) else b1;
      var b3 := if b2.dx + b2.w - 1 > c.r.x2 then b2.(w := c.r.x2 - b2.dx + 1) else b2;
      if b3.dy + b3.h - 1 > c.r.y2 then b3.(h := c.r.y2 - b3.dy + 1) else b3
  }

  predicate InBox(b: Box, x: int, y: int) { b.dx <= x < b.dx + b.w && b.dy <= y < b.dy + b.h }

  /** Clipping is intersection, and does not shift the picture. */
  lemma ClippedMeans(src: Rect, dst: Rect, c: Clip, x: int, y: int)
    requires dst.x2 - dst.x1 == src.x2 - src.x1 && dst.y2 - dst.y1 == src.y2 - src.y1
    ensures var b := Clipped(src, dst, c);
      && (InBox(b, x, y) <==> Within(dst, x, y) && Visible(c, x, y))
      && b.sx - b.dx == src.x1 - dst.x1 && b.sy - b.dy == src.y1 - dst.y1
  {
  }

  /** What a blit must do to the screen: copy the visible part of dst from a snapshot, and nothing else. */
  ghost predicate Blitted(was: seq<bv8>, now: seq<bv8>, pitch: int, lines: int, src: Rect, dst: Rect, c: Clip) {
    |was| == |now| && forall x, y :: OnScreen(pitch, lines, x, y) ==> PixelBlitted(was, now, pitch, src, dst, c, x, y)
  }

  predicate PixelBlitted(was: seq<bv8>, now: seq<bv8>, pitch: int, src: Rect, dst: Rect, c: Clip, x: int, y: int) {
    Pixel(now, pitch, x, y) <==>
    if Within(dst, x, y) && Visible(c, x, y) then Pixel(was, pitch, x - dst.x1 + src.x1, y - dst.y1 + src.y1)
    else Pixel(was, pitch, x, y)
  }

  predicate Aligned(b: Box) { b.sx % 8 == 0 && b.dx % 8 == 0 && b.w % 8 == 0 }

  /** The clipped rectangle does not run off the right or the bottom of the screen, on either side. */
  predicate Fits(b: Box, pitch: int, lines: int) {
    b.sx + b.w <= 8 * pitch && b.dx + b.w <= 8 * pitch && b.sy + b.h <= lines && b.dy + b.h <= lines
  }

  /** The driver is left to do the blit unless both rectangles have one size and either nothing of dst is visible, or the
      engine is there and can move the visible part and what is copied to it: whole bytes, on the screen. */
  predicate Accepts(src: Rect, dst: Rect, c: Clip, plain: bool, engine: bool) {
    var v := Cut(dst, c);
    var sx, sy := v.x1 - dst.x1 + src.x1, v.y1 - dst.y1 + src.y1;
    && plain && dst.x2 - dst.x1 == src.x2 - src.x1 && dst.y2 - dst.y1 == src.y2 - src.y1
    && (v.x1 > v.x2 || v.y1 > v.y2
        || (engine && v.x1 % 8 == 0 && (v.x2 + 1) % 8 == 0 && sx % 8 == 0 && v.x1 >= 0 && v.y1 >= 0 && sx >= 0 && sy >= 0))
  }

  /** The source's stepwise clipping arrives at the visible part. */
  lemma ClippedIsCut(src: Rect, dst: Rect, c: Clip)
    requires dst.x2 - dst.x1 == src.x2 - src.x1 && dst.y2 - dst.y1 == src.y2 - src.y1
    ensures var b, v := Clipped(src, dst, c), Cut(dst, c);
      && (b.w <= 0 || b.h <= 0 <==> v.x1 > v.x2 || v.y1 > v.y2)
      && (b.w > 0 && b.h > 0 ==> b.dx == v.x1 && b.dy == v.y1 && b.dx + b.w == v.x2 + 1 && b.dy + b.h == v.y2 + 1
                                 && b.sx == v.x1 - dst.x1 + src.x1 && b.sy == v.y1 - dst.y1 + src.y1)
  {
  }

  /** mono_blit_c: when it accepts, the screen is as after a copy from a snapshot, overlap or not; when it declines,
      nothing has changed. */
  method Blit(mem: array<bv8>, pitch: int, lines: int, src: Rect, dst: Rect, c: Clip, plain: bool, engine: bool)
    returns (done: bool)
    requires pitch > 0 && 0 <= lines && lines * pitch <= mem.Length
    requires c.NoClip? ==> src.x1 <= src.x2 && src.y1 <= src.y2
    requires var b := Clipped(src, dst, c); b.w > 0 && b.h > 0 ==> Fits(b, pitch, lines)
    modifies mem
    ensures done <==> Accepts(src, dst, c, plain, engine)
    ensures done ==> Blitted(old(mem[..]), mem[..], pitch, lines, src, dst, c)
    ensures !done ==> mem[..] == old(mem[..])
  {
    hide Clipped, Pixel, Fits, Blitted, Cut;
    ghost var was := mem[..];
    if !plain || dst.x2 - dst.x1 != src.x2 - src.x1 || dst.y2 - dst.y1 != src.y2 - src.y1 {
      return false;
    }
    ClippedIsCut(src, dst, c);
    var b := Clipped(src, dst, c);
    if b.w <= 0 || b.h <= 0 {
      NothingVisible(was, pitch, lines, src, dst, c);
      return true;
    }
    if !Aligned(b) || b.sx < 0 || b.sy < 0 || b.dx < 0 || b.dy < 0 || !engine {
      return false;
    }
    CopyBox(mem, pitch, lines, b);
    BoxBlits(was, mem[..], pitch, lines, src, dst, c);
    done := true;
  }

  /** The clipped box is one the engine can move. */
  predicate Movable(b: Box, pitch: int, lines: int) {
    && Fits(b, pitch, lines) && Aligned(b)
    && b.w > 0 && b.h > 0 && b.sx >= 0 && b.sy >= 0 && b.dx >= 0 && b.dy >= 0
  }

  ghost predicate Moved(was: seq<bv8>, now: seq<bv8>, pitch: int, b: Box)
    requires pitch > 0
  {
    var s, d := b.sy * pitch + b.sx / 8, b.dy * pitch + b.dx / 8;
    && |was| == |now| && Sane(|was|, s, pitch, d, pitch, b.w / 8, b.h)
    && forall k :: 0 <= k < |was| ==> now[k] == Copied(was, s, pitch, d, pitch, b.w / 8, b.h, k)
  }

  /** The engine is set up to run away from the overlap. */
  method CopyBox(mem: array<bv8>, pitch: int, lines: int, b: Box)
    requires pitch > 0 && lines * pitch <= mem.Length && Movable(b, pitch, lines)
    modifies mem
    ensures Moved(old(mem[..]), mem[..], pitch, b)
  {
    hide From, InBlock, Fits, Aligned;
    var s, d := b.sy * pitch + b.sx / 8, b.dy * pitch + b.dx / 8;
    BlockSane(mem.Length, pitch, lines, b);
    if d > s {
      Backward(mem, s + (b.h - 1) * pitch + b.w / 8 - 1, d + (b.h - 1) * pitch + b.w / 8 - 1, pitch, b.w / 8, b.h, s, d);
    } else {
      forall k ensures From(s, pitch, d, pitch, k) >= k {
        SameShift(s, d, pitch, k);
      }
      assert ReadFirst(s, pitch, d, pitch, b.w / 8, b.h);
      Forward(mem, s, pitch, d, pitch, b.w / 8, b.h);
    }
  }

  lemma SameShift(s: int, d: int, pitch: int, k: int)
    requires pitch > 0
    ensures From(s, pitch, d, pitch, k) == k + s - d
  {
  }

  lemma NothingVisible(m: seq<bv8>, pitch: int, lines: int, src: Rect, dst: Rect, c: Clip)
    requires dst.x2 - dst.x1 == src.x2 - src.x1 && dst.y2 - dst.y1 == src.y2 - src.y1
    requires var b := Clipped(src, dst, c); b.w <= 0 || b.h <= 0
    ensures Blitted(m, m, pitch, lines, src, dst, c)
  {
    hide Clipped, Pixel;
    forall x, y ensures !(Within(dst, x, y) && Visible(c, x, y)) {
      ClippedMeans(src, dst, c, x, y);
    }
  }

  lemma BoxBlits(was: seq<bv8>, now: seq<bv8>, pitch: int, lines: int, src: Rect, dst: Rect, c: Clip)
    requires pitch > 0 && 0 <= lines && lines * pitch <= |was|
    requires dst.x2 - dst.x1 == src.x2 - src.x1 && dst.y2 - dst.y1 == src.y2 - src.y1
    requires Movable(Clipped(src, dst, c), pitch, lines) && Moved(was, now, pitch, Clipped(src, dst, c))
    ensures Blitted(was, now, pitch, lines, src, dst, c)
  {
    hide Clipped, Pixel, Movable;
    var b := Clipped(src, dst, c);
    forall x, y | OnScreen(pitch, lines, x, y) ensures PixelBlitted(was, now, pitch, src, dst, c, x, y) {
      ClippedMeans(src, dst, c, x, y);
      PixelCopied(was, now, pitch, lines, b, x, y);
      assert x - dst.x1 + src.x1 == x - b.dx + b.sx && y - dst.y1 + src.y1 == y - b.dy + b.sy;
    }
  }

  lemma BlockSane(len: int, pitch: int, lines: int, b: Box)
    requires pitch > 0 && lines * pitch <= len && Movable(b, pitch, lines)
    ensures Sane(len, b.sy * pitch + b.sx / 8, pitch, b.dy * pitch + b.dx / 8, pitch, b.w / 8, b.h)
  {
    var w := b.w / 8;
    var s, d := b.sy * pitch + b.sx / 8, b.dy * pitch + b.dx / 8;
    Corner(pitch, lines, b.dx, b.dy, b.w, b.h);
    Corner(pitch, lines, b.sx, b.sy, b.w, b.h);
    forall k | InBlock(d, pitch, w, b.h, k) ensures 0 <= From(s, pitch, d, pitch, k) < len {
      Euclid(k - d, pitch);
      LastByte(d, pitch, w, b.h, k);
      assert From(s, pitch, d, pitch, k) == s + (k - d);
    }
  }

  lemma Corner(pitch: int, lines: int, x: int, y: int, w: int, h: int)
    requires pitch > 0 && 0 <= x && x % 8 == 0 && 0 < w && w % 8 == 0 && x + w <= 8 * pitch && 0 <= y && 0 < h && y + h <= lines
    ensures 0 <= y * pitch + x / 8 && y * pitch + x / 8 + (h - 1) * pitch + w / 8 <= lines * pitch && 0 < w / 8 <= pitch
  {
  }

  /** Copying whole bytes copies pixels. */
  lemma PixelCopied(was: seq<bv8>, now: seq<bv8>, pitch: int, lines: int, b: Box, x: int, y: int)
    requires pitch > 0 && 0 <= lines && lines * pitch <= |was| && Movable(b, pitch, lines)
    requires Moved(was, now, pitch, b) && OnScreen(pitch, lines, x, y)
    ensures Pixel(now, pitch, x, y) <==>
            if InBox(b, x, y) then Pixel(was, pitch, x - b.dx + b.sx, y - b.dy + b.sy) else Pixel(was, pitch, x, y)
  {
    hide BitOf, InBlock, From, Addr;
    var s, d, k := b.sy * pitch + b.sx / 8, b.dy * pitch + b.dx / 8, Addr(pitch, x, y);
    AddrInside(pitch, lines, x, y, |was|);
    BlockPixel(pitch, b.dx, b.dy, b.w, b.h, x, y);
    assert now[k] == Copied(was, s, pitch, d, pitch, b.w / 8, b.h, k);
    if InBox(b, x, y) {
      Shifted(pitch, b, x, y);
    }
  }

  /** A byte is in the block exactly when its pixels are in the rectangle. */
  lemma BlockPixel(pitch: int, dx: int, dy: int, w: int, h: int, x: int, y: int)
    requires pitch > 0 && 0 <= dx && dx % 8 == 0 && 0 < w && w % 8 == 0 && dx + w <= 8 * pitch && 0 < h
    requires 0 <= x < 8 * pitch
    ensures InBlock(dy * pitch + dx / 8, pitch, w / 8, h, Addr(pitch, x, y)) <==> dx <= x < dx + w && dy <= y < dy + h
  {
    var d, k, j := dy * pitch + dx / 8, Addr(pitch, x, y), x / 8 - dx / 8;
    assert k - d == (y - dy) * pitch + j by { assert (y - dy) * pitch == y * pitch - dy * pitch; }
    if j >= 0 {
      Quotient(k - d, pitch, y - dy, j);
      if y < dy {
        Gap(y, dy, pitch);
        assert k < d;
      } else {
        Product(y - dy, pitch);
      }
    } else {
      assert (y - dy - 1) * pitch == (y - dy) * pitch - pitch;
      Quotient(k - d, pitch, y - dy - 1, j + pitch);
    }
  }

  lemma Shifted(pitch: int, b: Box, x: int, y: int)
    requires pitch > 0 && Aligned(b) && InBox(b, x, y) && b.dx >= 0 && b.dx + b.w <= 8 * pitch
    ensures var s, d := b.sy * pitch + b.sx / 8, b.dy * pitch + b.dx / 8;
      From(s, pitch, d, pitch, Addr(pitch, x, y)) == Addr(pitch, x - b.dx + b.sx, y - b.dy + b.sy)
    ensures (x - b.dx + b.sx) % 8 == x % 8
  {
    var s, d := b.sy * pitch + b.sx / 8, b.dy * pitch + b.dx / 8;
    Euclid(Addr(pitch, x, y) - d, pitch);
    assert From(s, pitch, d, pitch, Addr(pitch, x, y)) == s + Addr(pitch, x, y) - d;
    assert (y - b.dy + b.sy) * pitch == y * pitch - b.dy * pitch + b.sy * pitch;
    assert (x - b.dx + b.sx) / 8 == x / 8 - b.dx / 8 + b.sx / 8;
  }

  // ---- fills -------------------------------------------------------------------------------------

  predicate PixelFilled(was: seq<bv8>, now: seq<bv8>, pitch: int, r: Rect, c: Clip, v: bool, x: int, y: int) {
    Pixel(now, pitch, x, y) <==> if Within(r, x, y) && Visible(c, x, y) then v else Pixel(was, pitch, x, y)
  }

  /** What a fill must do to the screen: the visible part of r gets the colour, and nothing else changes. */
  ghost predicate Filled(was: seq<bv8>, now: seq<bv8>, pitch: int, lines: int, r: Rect, c: Clip, v: bool) {
    |was| == |now| && forall x, y :: OnScreen(pitch, lines, x, y) ==> PixelFilled(was, now, pitch, r, c, v, x, y)
  }

  function SetBit(b: bv8, k: int, v: bool): bv8
    requires 0 <= k < 8
  {
    if v then b | Mask(k) else b & !Mask(k)
  }

  lemma SetBitMeans(b: bv8, k: int, v: bool, j: int)
    requires 0 <= k < 8 && 0 <= j < 8
    ensures BitOf(SetBit(b, k, v), j) == if j == k then v else BitOf(b, j)
  {
  }

  /** Different pixels are different bits. */
  lemma PixelsApart(pitch: int, lines: int, x: int, y: int, x': int, y': int)
    requires OnScreen(pitch, lines, x, y) && OnScreen(pitch, lines, x', y')
    ensures Addr(pitch, x, y) == Addr(pitch, x', y') && x % 8 == x' % 8 ==> x == x' && y == y'
  {
    if Addr(pitch, x, y) == Addr(pitch, x', y') {
      Unique(pitch, y, x / 8, y', x' / 8);
    }
  }

  method SetPixel(mem: array<bv8>, pitch: int, lines: int, x: int, y: int, v: bool)
    requires pitch > 0 && lines * pitch <= mem.Length && OnScreen(pitch, lines, x, y)
    modifies mem
    ensures Filled(old(mem[..]), mem[..], pitch, lines, Rect(x, y, x, y), NoClip, v)
  {
    hide Addr, BitOf, SetBit;
    ghost var was := mem[..];
    AddrInside(pitch, lines, x, y, mem.Length);
    var k := Addr(pitch, x, y);
    mem[k] := SetBit(mem[k], x % 8, v);
    forall x', y' | OnScreen(pitch, lines, x', y')
      ensures PixelFilled(was, mem[..], pitch, Rect(x, y, x, y), NoClip, v, x', y')
    {
      AddrInside(pitch, lines, x', y', mem.Length);
      PixelsApart(pitch, lines, x, y, x', y');
      SetBitMeans(was[k], x % 8, v, x' % 8);
    }
  }

  /** The driver's own fill, a pixel at a time. */
  method FillRect(mem: array<bv8>, pitch: int, lines: int, r: Rect, v: bool)
    requires pitch > 0 && 0 <= lines && lines * pitch <= mem.Length
    modifies mem
    ensures Filled(old(mem[..]), mem[..], pitch, lines, r, NoClip, v)
  {
    hide Filled, Pixel;
    ghost var was := mem[..];
    NotYet(was, pitch, lines, r, v);
    var y := 0;
    while y < lines
      invariant 0 <= y <= lines && Filled(was, mem[..], pitch, lines, r, To(Rect(0, 0, 8 * pitch - 1, y - 1)), v)
    {
      if r.y1 <= y <= r.y2 {
        FillLine(mem, pitch, lines, r, v, y, was);
      } else {
        OtherLine(was, mem[..], pitch, lines, r, v, y);
      }
      y := y + 1;
    }
    AllLines(was, mem[..], pitch, lines, r, v);
  }

  /** Lines above y are done, and the first x pixels of line y. */
  ghost predicate Upto(was: seq<bv8>, now: seq<bv8>, pitch: int, lines: int, r: Rect, v: bool, x: int, y: int) {
    |was| == |now| && forall x', y' :: OnScreen(pitch, lines, x', y') ==>
      (Pixel(now, pitch, x', y') <==>
       if Within(r, x', y') && (y' < y || (y' == y && x' < x)) then v else Pixel(was, pitch, x', y'))
  }

  method FillLine(mem: array<bv8>, pitch: int, lines: int, r: Rect, v: bool, y: int, ghost was: seq<bv8>)
    requires pitch > 0 && lines * pitch <= mem.Length && 0 <= y < lines && r.y1 <= y <= r.y2
    requires Filled(was, mem[..], pitch, lines, r, To(Rect(0, 0, 8 * pitch - 1, y - 1)), v)
    modifies mem
    ensures Filled(was, mem[..], pitch, lines, r, To(Rect(0, 0, 8 * pitch - 1, y)), v)
  {
    hide Pixel;
    var x := 0;
    assert Upto(was, mem[..], pitch, lines, r, v, 0, y);
    while x < 8 * pitch
      invariant 0 <= x <= 8 * pitch && Upto(was, mem[..], pitch, lines, r, v, x, y)
    {
      if r.x1 <= x <= r.x2 {
        ghost var before := mem[..];
        SetPixel(mem, pitch, lines, x, y, v);
        OneMore(was, before, mem[..], pitch, lines, r, v, x, y);
      }
      x := x + 1;
    }
  }

  lemma OneMore(was: seq<bv8>, before: seq<bv8>, now: seq<bv8>, pitch: int, lines: int, r: Rect, v: bool, x: int, y: int)
    requires Upto(was, before, pitch, lines, r, v, x, y) && Within(r, x, y)
    requires Filled(before, now, pitch, lines, Rect(x, y, x, y), NoClip, v)
    ensures Upto(was, now, pitch, lines, r, v, x + 1, y)
  {
  }

  lemma NotYet(was: seq<bv8>, pitch: int, lines: int, r: Rect, v: bool)
    ensures Filled(was, was, pitch, lines, r, To(Rect(0, 0, 8 * pitch - 1, -1)), v)
  {
  }

  lemma OtherLine(was: seq<bv8>, now: seq<bv8>, pitch: int, lines: int, r: Rect, v: bool, y: int)
    requires Filled(was, now, pitch, lines, r, To(Rect(0, 0, 8 * pitch - 1, y - 1)), v) && !(r.y1 <= y <= r.y2)
    ensures Filled(was, now, pitch, lines, r, To(Rect(0, 0, 8 * pitch - 1, y)), v)
  {
  }

  lemma AllLines(was: seq<bv8>, now: seq<bv8>, pitch: int, lines: int, r: Rect, v: bool)
    requires Filled(was, now, pitch, lines, r, To(Rect(0, 0, 8 * pitch - 1, lines - 1)), v)
    ensures Filled(was, now, pitch, lines, r, NoClip, v)
  {
  }

  function Ordered(r: Rect): Rect {
    Rect(if r.x1 > r.x2 then r.x2 else r.x1, if r.y1 > r.y2 then r.y2 else r.y1,
         if r.x1 > r.x2 then r.x1 else r.x2, if r.y1 > r.y2 then r.y1 else r.y2)
  }

  /** The clipping steps of mono_fill_c. */
  function Cut(r: Rect, c: Clip): Rect {
    if c.NoClip? then r
    else Rect(if r.x1 < c.r.x1 then c.r.x1 else r.x1, if r.y1 < c.r.y1 then c.r.y1 else r.y1,
              if r.x2 > c.r.x2 then c.r.x2 else r.x2, if r.y2 > c.r.y2 then c.r.y2 else r.y2)
  }

  /** mono_fill_c in a mode it handles: row replication by the engine and two edge strips give the plain fill of the
      clipped rectangle, and change nothing else. */
  method Fill(mem: array<bv8>, pitch: int, lines: int, r: Rect, c: Clip, v: bool)
    requires pitch > 0 && 0 <= lines && lines * pitch <= mem.Length
    requires var q := Cut(Ordered(r), c); q.x2 < 8 * pitch && q.y2 < lines
    modifies mem
    ensures Filled(old(mem[..]), mem[..], pitch, lines, Ordered(r), c, v)
  {
    hide Filled, Pixel, Cut, Ordered;
    var q := Cut(Ordered(r), c);
    var bx1, bx2 := (q.x1 + 7) / 8 * 8, (q.x2 + 1) / 8 * 8 - 1;
    ghost var was := mem[..];
    if q.x1 > q.x2 || q.y1 > q.y2 || q.y1 < 0 || q.x1 < 0 || bx2 < bx1 || (bx2 - bx1 + 1) * (q.y2 - q.y1) < 65536 {
      if q.x1 <= q.x2 && q.y1 <= q.y2 {
        FillRect(mem, pitch, lines, q, v);
      } else {
        Nothing(was, pitch, lines, q, v);
      }
    } else {
      assert q.y2 > q.y1;
      FillParts(mem, pitch, lines, q, bx1, bx2, v);
    }
    CutMeans(was, mem[..], pitch, lines, r, c, v);
  }

  /** The first line by the driver, the byte-aligned middle of the others by the engine, their edges by the driver. */
  method FillParts(mem: array<bv8>, pitch: int, lines: int, q: Rect, bx1: int, bx2: int, v: bool)
    requires pitch > 0 && lines * pitch <= mem.Length && 0 <= q.x1 <= bx1 <= bx2 <= q.x2 < 8 * pitch && 0 <= q.y1 < q.y2 < lines
    requires bx1 % 8 == 0 && (bx2 + 1) % 8 == 0
    modifies mem
    ensures Filled(old(mem[..]), mem[..], pitch, lines, q, NoClip, v)
  {
    hide Filled, Pixel, Replicated;
    ghost var was := mem[..];
    FillRect(mem, pitch, lines, Rect(q.x1, q.y1, q.x2, q.y1), v);
    ghost var s1 := mem[..];
    Replicate(mem, pitch, lines, bx1, bx2, q.y1, q.y2);
    ghost var s2 := mem[..];
    FillEdge(mem, pitch, lines, Rect(q.x1, q.y1 + 1, bx1 - 1, q.y2), v);
    ghost var s3 := mem[..];
    FillEdge(mem, pitch, lines, Rect(bx2 + 1, q.y1 + 1, q.x2, q.y2), v);
    Pieces(was, s1, s2, s3, mem[..], pitch, lines, q, bx1, bx2, v);
  }

  /** An edge strip, if there is one. */
  method FillEdge(mem: array<bv8>, pitch: int, lines: int, q: Rect, v: bool)
    requires pitch > 0 && 0 <= lines && lines * pitch <= mem.Length
    modifies mem
    ensures Filled(old(mem[..]), mem[..], pitch, lines, q, NoClip, v)
  {
    hide Filled;
    if q.x1 <= q.x2 {
      FillRect(mem, pitch, lines, q, v);
    } else {
      Nothing(mem[..], pitch, lines, q, v);
    }
  }

  lemma Nothing(m: seq<bv8>, pitch: int, lines: int, q: Rect, v: bool)
    requires q.x1 > q.x2 || q.y1 > q.y2
    ensures Filled(m, m, pitch, lines, q, NoClip, v)
  {
  }

  lemma CutMeans(was: seq<bv8>, now: seq<bv8>, pitch: int, lines: int, r: Rect, c: Clip, v: bool)
    requires Filled(was, now, pitch, lines, Cut(Ordered(r), c), NoClip, v)
    ensures Filled(was, now, pitch, lines, Ordered(r), c, v)
  {
    hide Pixel;
    forall x, y | OnScreen(pitch, lines, x, y) ensures PixelFilled(was, now, pitch, Ordered(r), c, v, x, y) {
      assert PixelFilled(was, now, pitch, Cut(Ordered(r), c), NoClip, v, x, y);
    }
  }

  predicate PixelReplicated(was: seq<bv8>, now: seq<bv8>, pitch: int, x1: int, x2: int, y1: int, y2: int, x: int, y: int) {
    Pixel(now, pitch, x, y) <==> Pixel(was, pitch, x, if x1 <= x <= x2 && y1 < y <= y2 then y1 else y)
  }

  ghost predicate Replicated(was: seq<bv8>, now: seq<bv8>, pitch: int, lines: int, x1: int, x2: int, y1: int, y2: int) {
    |was| == |now| &&
    forall x, y :: OnScreen(pitch, lines, x, y) ==> PixelReplicated(was, now, pitch, x1, x2, y1, y2, x, y)
  }

  /** The engine with source pitch 0: the byte-aligned middle of line y1 goes to every line below it, down to y2. */
  method Replicate(mem: array<bv8>, pitch: int, lines: int, x1: int, x2: int, y1: int, y2: int)
    requires pitch > 0 && lines * pitch <= mem.Length
    requires 0 <= x1 <= x2 < 8 * pitch && x1 % 8 == 0 && (x2 + 1) % 8 == 0 && 0 <= y1 < y2 < lines
    modifies mem
    ensures Replicated(old(mem[..]), mem[..], pitch, lines, x1, x2, y1, y2)
  {
    hide InBlock, From, Addr, BitOf;
    ghost var was := mem[..];
    var w, s, d := (x2 - x1 + 1) / 8, y1 * pitch + x1 / 8, (y1 + 1) * pitch + x1 / 8;
    Corner(pitch, lines, x1, y1 + 1, x2 - x1 + 1, y2 - y1);
    Corner(pitch, lines, x1, y1, x2 - x1 + 1, 1);
    assert (y1 + 1) * pitch == y1 * pitch + pitch;
    forall k | InBlock(d, pitch, w, y2 - y1, k)
      ensures s <= From(s, 0, d, pitch, k) < s + w && !InBlock(d, pitch, w, y2 - y1, From(s, 0, d, pitch, k))
    {
      AboveBlock(s, d, pitch, w, y2 - y1, k);
    }
    assert ReadFirst(s, 0, d, pitch, w, y2 - y1);
    Forward(mem, s, 0, d, pitch, w, y2 - y1);
    forall x, y | OnScreen(pitch, lines, x, y) ensures PixelReplicated(was, mem[..], pitch, x1, x2, y1, y2, x, y) {
      AddrInside(pitch, lines, x, y, mem.Length);
      AddrInside(pitch, lines, x, y1, mem.Length);
      BlockPixel(pitch, x1, y1 + 1, x2 - x1 + 1, y2 - y1, x, y);
      if x1 <= x <= x2 && y1 < y <= y2 {
        FromFirst(pitch, x1, y1, x, y);
      }
    }
  }

  lemma AboveBlock(s: int, d: int, pitch: int, w: int, h: int, k: int)
    requires pitch > 0 && InBlock(d, pitch, w, h, k) && s + w <= d
    ensures s <= From(s, 0, d, pitch, k) < s + w && !InBlock(d, pitch, w, h, From(s, 0, d, pitch, k))
  {
  }

  lemma FromFirst(pitch: int, x1: int, y1: int, x: int, y: int)
    requires 0 <= x1 <= x < 8 * pitch && x1 % 8 == 0
    ensures From(y1 * pitch + x1 / 8, 0, (y1 + 1) * pitch + x1 / 8, pitch, Addr(pitch, x, y)) == Addr(pitch, x, y1)
  {
    var d, j := (y1 + 1) * pitch + x1 / 8, x / 8 - x1 / 8;
    assert (y - y1 - 1) * pitch == y * pitch - (y1 + 1) * pitch;
    Quotient(Addr(pitch, x, y) - d, pitch, y - y1 - 1, j);
  }

  /** Line, middle and edges make up the rectangle. */
  lemma Pieces(was: seq<bv8>, s1: seq<bv8>, s2: seq<bv8>, s3: seq<bv8>, now: seq<bv8>, pitch: int, lines: int,
    q: Rect, bx1: int, bx2: int, v: bool)
    requires q.x1 <= bx1 <= bx2 <= q.x2 < 8 * pitch && 0 <= q.x1 && 0 <= q.y1 < q.y2 < lines
    requires Filled(was, s1, pitch, lines, Rect(q.x1, q.y1, q.x2, q.y1), NoClip, v)
    requires Replicated(s1, s2, pitch, lines, bx1, bx2, q.y1, q.y2)
    requires Filled(s2, s3, pitch, lines, Rect(q.x1, q.y1 + 1, bx1 - 1, q.y2), NoClip, v)
    requires Filled(s3, now, pitch, lines, Rect(bx2 + 1, q.y1 + 1, q.x2, q.y2), NoClip, v)
    ensures Filled(was, now, pitch, lines, q, NoClip, v)
  {
    hide Pixel;
    forall x, y | OnScreen(pitch, lines, x, y) ensures PixelFilled(was, now, pitch, q, NoClip, v, x, y) {
      assert PixelFilled(was, s1, pitch, Rect(q.x1, q.y1, q.x2, q.y1), NoClip, v, x, y);
      assert OnScreen(pitch, lines, x, q.y1);
      assert PixelFilled(was, s1, pitch, Rect(q.x1, q.y1, q.x2, q.y1), NoClip, v, x, q.y1);
      assert PixelReplicated(s1, s2, pitch, bx1, bx2, q.y1, q.y2, x, y);
      assert PixelFilled(s2, s3, pitch, Rect(q.x1, q.y1 + 1, bx1 - 1, q.y2), NoClip, v, x, y);
      assert PixelFilled(s3, now, pitch, Rect(bx2 + 1, q.y1 + 1, q.x2, q.y2), NoClip, v, x, y);
    }
  }
}
