/** ppmquant in one block: 3-byte pixels are expanded to 4 bytes over their own input, and the output is written over
    the expanded pixels (sam-yum-tt/src/pmshim.c, with the room that sam-job-tt/llvm/root.c leaves). */
module Overlay {
  import opened Wire
  import opened Bytes
  import JobHeap

  const PS_GAP := 64
  const PIXEL := 4

  // ---- pixels ------------------------------------------------------------------------------------

  datatype Rgb = Rgb(r: byte, g: byte, b: byte)

  /** A packed pixel: ten bits a channel in one little-endian word. */
  function Pack(c: Rgb): (r: seq<byte>)
    ensures |r| == PIXEL
  {
    P4(0x10_0000 * (c.r as int) + 1024 * (c.g as int) + c.b)
  }

  function Unpack(s: seq<byte>): Rgb
    requires |s| == PIXEL
  {
    var v := G4(s, 0);
    Rgb(v / 0x10_0000 % 256, v / 1024 % 256, v % 256)
  }

  lemma PackRoundTrip(c: Rgb)
    ensures Unpack(Pack(c)) == c
  {
    hide G4, P4;
    var v := 0x10_0000 * (c.r as int) + 1024 * (c.g as int) + c.b;
    G4P4(v, [], []);
    assert [] + P4(v) + [] == P4(v);
    Fields(c.r, c.g, c.b);
  }

  lemma Fields(r: int, g: int, b: int)
    requires 0 <= r < 256 && 0 <= g < 256 && 0 <= b < 256
    ensures var v := 0x10_0000 * r + 1024 * g + b;
      v / 0x10_0000 % 256 == r && v / 1024 % 256 == g && v % 256 == b
  {
    var v := 0x10_0000 * r + 1024 * g + b;
    assert v / 0x10_0000 == r;
    assert v / 1024 == 1024 * r + g;
    assert v == 256 * (4096 * r + 4 * g) + b;
  }

  /** The i-th 3-byte pixel from p on. */
  function Raw(s: seq<byte>, p: nat, i: nat): Rgb
    requires p + 3 * i + 3 <= |s|
  {
    Rgb(s[p + 3 * i], s[p + 3 * i + 1], s[p + 3 * i + 2])
  }

  function Image(s: seq<byte>, p: nat, n: nat): (px: seq<Rgb>)
    requires p + 3 * n <= |s|
    ensures |px| == n
  {
    seq(n, i requires 0 <= i < n => Raw(s, p, i))
  }

  function Flat(px: seq<Rgb>): (r: seq<byte>)
    ensures |r| == 3 * |px|
  {
    if px == [] then [] else
      var c := px[|px| - 1];
      Flat(px[..|px| - 1]) + [c.r, c.g, c.b]
  }

  /** A pixel is its red, green and blue byte, in that order: an image's bytes are those it was read from. */
  lemma {:induction false} FlatImage(s: seq<byte>, p: nat, n: nat)
    requires p + 3 * n <= |s|
    ensures Flat(Image(s, p, n)) == s[p..p + 3 * n]
  {
    if n > 0 {
      FlatImage(s, p, n - 1);
      assert Image(s, p, n)[..n - 1] == Image(s, p, n - 1);
      assert s[p..p + 3 * n] == s[p..p + 3 * (n - 1)] + [s[p + 3 * n - 3], s[p + 3 * n - 2], s[p + 3 * n - 1]];
    }
  }

  /** Pixels i on of px are in the array behind the gap. */
  predicate Packed(s: seq<byte>, px: seq<Rgb>, i: int) {
    forall j :: 0 <= i <= j < |px| ==> Laid(s, PS_GAP + PIXEL * j, Pack(px[j]))
  }

  // ---- room --------------------------------------------------------------------------------------

  /** ppm_readppm's own test that the array fits below the input it is made from; offsets from ps_out. */
  predicate Room(p: nat, n: nat, end: nat) { PS_GAP + n * (PIXEL - 3) <= p && PS_GAP + n * PIXEL <= end }

  /** For a P6 file of any size behind its 4-byte colour count, QGAP always leaves the room. */
  lemma QgapSuffices(payload: nat, header: nat, pixels: nat)
    requires payload == 4 + header + 3 * pixels
    ensures var input := JobHeap.QGAP(payload) - LREP_HDR + 4;
      Room(input + header, pixels, input + header + 3 * pixels)
  {
  }

  // ---- reading -----------------------------------------------------------------------------------

  /** ppm_readppm with the overlay: the array is what a separate copy of the input would have given. */
  method ReadPpm(mem: array<byte>, p: nat, n: nat)
    requires p + 3 * n <= mem.Length && Room(p, n, p + 3 * n)
    modifies mem
    ensures Packed(mem[..], Image(old(mem[..]), p, n), 0)
  {
    hide Pack, Laid, Over, Image;
    ghost var px := Image(mem[..], p, n);
    var i := 0;
    while i < n
      invariant 0 <= i <= n && Expanded(mem[..], px, i) && SameFrom(old(mem[..]), mem[..], p + 3 * i)
    {
      var c := Rgb(mem[p + 3 * i], mem[p + 3 * i + 1], mem[p + 3 * i + 2]);
      ghost var s := mem[..];
      Put(mem, PS_GAP + PIXEL * i, Pack(c));
      OneExpanded(old(mem[..]), s, mem[..], p, n, i, c);
      i := i + 1;
    }
    assert Packed(mem[..], px, 0);
  }

  predicate Expanded(s: seq<byte>, px: seq<Rgb>, i: int) {
    forall j :: 0 <= j < i && j < |px| ==> Laid(s, PS_GAP + PIXEL * j, Pack(px[j]))
  }

  predicate SameFrom(s: seq<byte>, t: seq<byte>, k: nat) {
    |s| == |t| && forall i :: k <= i < |s| ==> t[i] == s[i]
  }

  /** Each pixel's four bytes land behind the next unread three. */
  lemma OneExpanded(was: seq<byte>, s: seq<byte>, t: seq<byte>, p: nat, n: nat, i: nat, c: Rgb)
    requires p + 3 * n <= |was| && Room(p, n, p + 3 * n) && i < n && SameFrom(was, s, p + 3 * i)
    requires Expanded(s, Image(was, p, n), i) && c == Raw(s, p, i)
    requires PS_GAP + PIXEL * i + PIXEL <= |s| && t == Over(s, PS_GAP + PIXEL * i, Pack(c))
    ensures Expanded(t, Image(was, p, n), i + 1) && SameFrom(was, t, p + 3 * (i + 1))
  {
    hide Pack;
    var px, o := Image(was, p, n), PS_GAP + PIXEL * i;
    assert c == px[i];
    assert Laid(t, o, Pack(px[i])) by {
      OverLaid(s, o, Pack(c));
    }
    hide Laid;
    forall j | 0 <= j < i ensures Laid(t, PS_GAP + PIXEL * j, Pack(px[j])) {
      OverKeeps(s, o, Pack(c), PS_GAP + PIXEL * j, Pack(px[j]));
    }
  }

  // ---- writing -----------------------------------------------------------------------------------

  /** The output so far, and the pixels that are still to be written. */
  predicate Writing(s: seq<byte>, head: seq<byte>, px: seq<Rgb>, i: nat) {
    i <= |px| && Laid(s, 0, head + Flat(px[..i])) && Packed(s, px, i)
  }

  method GetPixel(mem: array<byte>, ghost px: seq<Rgb>, i: nat) returns (c: Rgb)
    requires i < |px| && Laid(mem[..], PS_GAP + PIXEL * i, Pack(px[i]))
    ensures c == px[i]
  {
    PackRoundTrip(px[i]);
    c := Unpack(mem[PS_GAP + PIXEL * i..PS_GAP + PIXEL * i + PIXEL]);
  }

  /** One pixel of ppm_writeppmrow: three bytes behind the output, none of them over a pixel not yet written. */
  method WritePixel(mem: array<byte>, head: seq<byte>, ghost px: seq<Rgb>, i: nat)
    requires |head| <= 40 && i < |px| && Writing(mem[..], head, px, i)
    modifies mem
    ensures Writing(mem[..], head, px, i + 1)
  {
    hide Pack, Flat, Writing, Over, Laid;
    Here(mem[..], head, px, i);
    var o := |head| + 3 * i;
    ghost var s, here, c := mem[..], PS_GAP + PIXEL * i, px[i];
    var now := GetPixel(mem, px, i);
    Put(mem, o, [now.r]);
    OverKeeps(s, o, [c.r], here, Pack(c));
    now := GetPixel(mem, px, i);
    ghost var t := mem[..];
    Put(mem, o + 1, [now.g]);
    OverTwice(s, o, [c.r], [c.g]);
    OverKeeps(t, o + 1, [c.g], here, Pack(c));
    now := GetPixel(mem, px, i);
    Put(mem, o + 2, [now.b]);
    assert [c.r] + [c.g] == [c.r, c.g] && [c.r, c.g] + [c.b] == [c.r, c.g, c.b];
    OverTwice(s, o, [c.r, c.g], [c.b]);
    Written(s, mem[..], head, px, i);
  }

  lemma Here(s: seq<byte>, head: seq<byte>, px: seq<Rgb>, i: nat)
    requires |head| <= 40 && i < |px| && Writing(s, head, px, i)
    ensures Laid(s, PS_GAP + PIXEL * i, Pack(px[i])) && PS_GAP + PIXEL * i + PIXEL <= |s|
  {
  }

  lemma Written(s: seq<byte>, t: seq<byte>, head: seq<byte>, px: seq<Rgb>, i: nat)
    requires |head| <= 40 && i < |px| && Writing(s, head, px, i) && |head| + 3 * i + 3 <= |s|
    requires t == Over(s, |head| + 3 * i, [px[i].r, px[i].g, px[i].b])
    ensures Writing(t, head, px, i + 1)
  {
    hide Pack;
    var o, rgb := |head| + 3 * i, [px[i].r, px[i].g, px[i].b];
    OverLaid(s, o, rgb);
    OverKeeps(s, o, rgb, 0, head + Flat(px[..i]));
    assert px[..i + 1][..i] == px[..i];
    assert head + Flat(px[..i + 1]) == (head + Flat(px[..i])) + rgb;
    Joined(t, head + Flat(px[..i]), rgb);
    forall j | i + 1 <= j < |px| ensures Laid(t, PS_GAP + PIXEL * j, Pack(px[j])) {
      OverKeeps(s, o, rgb, PS_GAP + PIXEL * j, Pack(px[j]));
    }
  }

  lemma Joined(s: seq<byte>, a: seq<byte>, b: seq<byte>)
    requires Laid(s, 0, a) && Laid(s, |a|, b)
    ensures Laid(s, 0, a + b)
  {
  }

  /** The program's pass over one row: each pixel is replaced, in the array. */
  function Remapped(px: seq<Rgb>, from: nat, to: nat, f: Rgb -> Rgb): (r: seq<Rgb>)
    requires from <= to <= |px|
    ensures |r| == |px|
  {
    seq(|px|, j requires 0 <= j < |px| => if from <= j < to then f(px[j]) else px[j])
  }

  method RemapPixel(mem: array<byte>, ghost head: seq<byte>, ghost px: seq<Rgb>, ghost from: nat, i: nat, f: Rgb -> Rgb)
    requires |head| <= 40 && from <= i < |px| && Writing(mem[..], head, px, from)
    modifies mem
    ensures Writing(mem[..], head, px[i := f(px[i])], from)
  {
    hide Pack, Flat;
    var c := GetPixel(mem, px, i);
    ghost var s, o := mem[..], PS_GAP + PIXEL * i;
    Put(mem, PS_GAP + PIXEL * i, Pack(f(c)));
    OverLaid(s, o, Pack(f(c)));
    OverKeeps(s, o, Pack(f(c)), 0, head + Flat(px[..from]));
    assert px[i := f(c)][..from] == px[..from];
    forall j | from <= j < |px| ensures Laid(mem[..], PS_GAP + PIXEL * j, Pack(px[i := f(c)][j])) {
      if j != i {
        OverKeeps(s, o, Pack(f(c)), PS_GAP + PIXEL * j, Pack(px[j]));
      }
    }
  }

  /** The row of cols pixels from i on is remapped where it lies. */
  method RemapRow(mem: array<byte>, ghost head: seq<byte>, ghost px: seq<Rgb>, i: nat, cols: nat, f: Rgb -> Rgb)
    requires |head| <= 40 && i + cols <= |px| && Writing(mem[..], head, px, i)
    modifies mem
    ensures Writing(mem[..], head, Remapped(px, i, i + cols, f), i)
  {
    hide Flat, Writing;
    ghost var cur := px;
    var x := 0;
    while x < cols
      invariant 0 <= x <= cols && cur == Remapped(px, i, i + x, f) && Writing(mem[..], head, cur, i)
    {
      RemapPixel(mem, head, cur, i, i + x, f);
      cur := cur[i + x := f(cur[i + x])];
      x := x + 1;
    }
  }

  /** ppm_writeppmrow */
  method WriteRow(mem: array<byte>, head: seq<byte>, ghost px: seq<Rgb>, i: nat, cols: nat)
    requires |head| <= 40 && i + cols <= |px| && Writing(mem[..], head, px, i)
    modifies mem
    ensures Writing(mem[..], head, px, i + cols)
  {
    hide Writing;
    var x := 0;
    while x < cols
      invariant 0 <= x <= cols && Writing(mem[..], head, px, i + x)
    {
      WritePixel(mem, head, px, i + x);
      x := x + 1;
    }
  }

  /** ppmquant's output loop: a row is remapped where it lies, then written.  The file is the header and the remapped
      image, as if the image had never shared its memory with the output. */
  method WritePpm(mem: array<byte>, head: seq<byte>, ghost px: seq<Rgb>, cols: nat, rows: nat, f: Rgb -> Rgb)
    requires |head| <= 40 && |head| <= mem.Length && |px| == rows * cols && Packed(mem[..], px, 0)
    modifies mem
    ensures Laid(mem[..], 0, head + Flat(Remapped(px, 0, |px|, f)))
  {
    hide Flat, Writing;
    ghost var s := mem[..];
    Put(mem, 0, head);
    ghost var cur := px;
    HeadWritten(s, head, px);
    var y, i := 0, 0;
    while y < rows
      invariant 0 <= y <= rows && i == y * cols <= |px| && cur == Remapped(px, 0, i, f)
      invariant Writing(mem[..], head, cur, i)
    {
      NextRow(y, rows, cols);
      RemapRow(mem, head, cur, i, cols, f);
      cur := Remapped(cur, i, i + cols, f);
      WriteRow(mem, head, cur, i, cols);
      y, i := y + 1, i + cols;
    }
    AllWritten(mem[..], head, cur);
  }

  lemma NextRow(y: nat, rows: nat, cols: nat)
    requires y < rows
    ensures (y + 1) * cols == y * cols + cols <= rows * cols
  {
  }

  lemma HeadWritten(s: seq<byte>, head: seq<byte>, px: seq<Rgb>)
    requires |head| <= 40 && |head| <= |s| && Packed(s, px, 0)
    ensures Writing(Over(s, 0, head), head, px, 0)
  {
  }

  lemma AllWritten(s: seq<byte>, head: seq<byte>, px: seq<Rgb>)
    requires Writing(s, head, px, |px|)
    ensures Laid(s, 0, head + Flat(px))
  {
    assert px[..|px|] == px;
  }

  /** Op 'q' on the transputer: payload behind QGAP bytes of room, quantized in place.  The answer is made from the
      image that arrived. */
  method QuantizeInPlace(mem: array<byte>, payload: nat, header: nat, cols: nat, rows: nat, head: seq<byte>, f: Rgb -> Rgb)
    requires payload == 4 + header + 3 * (rows * cols) && mem.Length == JobHeap.QGAP(payload) - LREP_HDR + payload
    requires |head| <= 40
    modifies mem
    ensures |head| + 3 * (rows * cols) <= mem.Length
    ensures var img := Image(old(mem[..]), JobHeap.QGAP(payload) - LREP_HDR + 4 + header, rows * cols);
      mem[..|head| + 3 * (rows * cols)] == head + Flat(Remapped(img, 0, rows * cols, f))
    ensures var p := JobHeap.QGAP(payload) - LREP_HDR + 4 + header;
      (forall c :: f(c) == c) ==> mem[..|head| + 3 * (rows * cols)] == head + old(mem[p..p + 3 * (rows * cols)])
  {
    hide Flat;
    QgapSuffices(payload, header, rows * cols);
    var p := JobHeap.QGAP(payload) - LREP_HDR + 4 + header;
    ghost var px := Image(mem[..], p, rows * cols);
    ReadPpm(mem, p, rows * cols);
    WritePpm(mem, head, px, cols, rows, f);
    assert mem[0..|head| + 3 * (rows * cols)] == mem[..|head| + 3 * (rows * cols)];
    FlatImage(old(mem[..]), p, rows * cols);
    if forall c :: f(c) == c {
      assert Remapped(px, 0, rows * cols, f) == px;
    }
    assert old(mem[..])[p..p + 3 * (rows * cols)] == old(mem[p..p + 3 * (rows * cols)]);
  }
}
