/** The PNG file that pe_encode lays out in one buffer (sam-yum-tt/src/pngenc.c), and a reader for it. */
module PngFile {
  import opened Wire
  import opened Bytes
  import opened PngFilter

  const IDAT_MAX := 8192
  const SIGNATURE: seq<byte> := [137, 80, 78, 71, 13, 10, 26, 10]
  const IHDR: seq<byte> := [73, 72, 68, 82]
  const IDAT: seq<byte> := [73, 68, 65, 84]
  const IEND: seq<byte> := [73, 69, 78, 68]

  // ---- chunks ------------------------------------------------------------------------------------

  /** A chunk, under a given CRC function. */
  function Chunk(t: seq<byte>, body: seq<byte>, crc: seq<byte> -> u32): (r: seq<byte>)
    requires |t| == 4 && |body| < 0x8000_0000
    ensures |r| == |body| + 12
  {
    Be4(|body|) + t + body + Be4(crc(t + body))
  }

  /** The chunk at the front of s: its type, its body and what follows it. */
  function ReadChunk(s: seq<byte>, crc: seq<byte> -> u32): Option<(seq<byte>, seq<byte>, seq<byte>)> {
    if |s| < 12 then None
    else
      var n := GetBe4(s[..4]);
      if |s| < n + 12 || GetBe4(s[n + 8..n + 12]) != crc(s[4..n + 8]) then None
      else Some((s[4..8], s[8..n + 8], s[n + 12..]))
  }

  lemma ChunkRoundTrip(t: seq<byte>, body: seq<byte>, rest: seq<byte>, crc: seq<byte> -> u32)
    requires |t| == 4 && |body| < 0x8000_0000
    ensures ReadChunk(Chunk(t, body, crc) + rest, crc) == Some((t, body, rest))
  {
    var s, n := Chunk(t, body, crc) + rest, |body|;
    Be4RoundTrip(n);
    Be4RoundTrip(crc(t + body));
    assert s[..4] == Be4(n) && s[4..8] == t && s[8..n + 8] == body && s[4..n + 8] == t + body;
    assert s[n + 8..n + 12] == Be4(crc(t + body)) && s[n + 12..] == rest;
  }

  /** A stream cut into IDAT chunks of at most 8192 bytes. */
  function Idats(z: seq<byte>, crc: seq<byte> -> u32): seq<byte>
    decreases |z|
  {
    if z == [] then []
    else
      var c := if |z| < IDAT_MAX then |z| else IDAT_MAX;
      Chunk(IDAT, z[..c], crc) + Idats(z[c..], crc)
  }

  /** The reader's side: the bodies of all IDAT chunks up to IEND, which ends the file. */
  function Bodies(s: seq<byte>, crc: seq<byte> -> u32): Option<seq<byte>>
    decreases |s|
  {
    var c := ReadChunk(s, crc);
    if c.None? then None
    else if c.value.0 == IEND then (if c.value.1 == [] && c.value.2 == [] then Some([]) else None)
    else if c.value.0 != IDAT then None
    else
      var rest := Bodies(c.value.2, crc);
      if rest.None? then None else Some(c.value.1 + rest.value)
  }

  /** The chunk bodies concatenate to the stream. */
  lemma {:induction false} IdatRoundTrip(z: seq<byte>, crc: seq<byte> -> u32)
    ensures Bodies(Idats(z, crc) + Chunk(IEND, [], crc), crc) == Some(z)
    decreases |z|
  {
    hide Chunk, ReadChunk;
    var e := Chunk(IEND, [], crc);
    if z == [] {
      ChunkRoundTrip(IEND, [], [], crc);
      assert Idats(z, crc) + e == e + [];
      assert Bodies(e + [], crc) == Some([]);
    } else {
      var c := if |z| < IDAT_MAX then |z| else IDAT_MAX;
      var k := Chunk(IDAT, z[..c], crc);
      assert Idats(z, crc) + e == k + (Idats(z[c..], crc) + e);
      ChunkRoundTrip(IDAT, z[..c], Idats(z[c..], crc) + e, crc);
      IdatRoundTrip(z[c..], crc);
      assert z == z[..c] + z[c..];
    }
  }

  // ---- the buffer --------------------------------------------------------------------------------

  /** memmove */
  method Move(out: array<byte>, dst: nat, src: nat, n: nat)
    requires dst + n <= out.Length && src + n <= out.Length
    modifies out
    ensures out[..] == Over(old(out[..]), dst, old(out[src..src + n]))
  {
    var copy := out[src..src + n];
    Put(out, dst, copy);
  }

  /** pe_chunk: length, type and CRC around a body that is already in place. */
  method PeChunk(out: array<byte>, p: nat, t: seq<byte>, len: nat, crc: seq<byte> -> u32) returns (q: nat)
    requires |t| == 4 && len < 0x8000_0000 && p + len + 12 <= out.Length
    modifies out
    ensures q == p + len + 12
    ensures out[..] == Over(old(out[..]), p, Chunk(t, old(out[p + 8..p + 8 + len]), crc))
  {
    hide Over, Be4, Laid;
    ghost var s := out[..];
    ghost var body := s[p + 8..p + 8 + len];
    Put(out, p, Be4(len));
    Put(out, p + 4, t);
    assert out[p + 4..p + 8 + len] == out[..][p + 4..p + 8 + len];
    TypeAndBody(s, p, Be4(len), t, body);
    var sum := crc(out[p + 4..p + 8 + len]);
    Put(out, p + 8 + len, Be4(sum));
    q := p + len + 12;
    Framed(s, p, Be4(len), t, body, Be4(sum));
  }

  lemma TypeAndBody(s: seq<byte>, p: nat, a: seq<byte>, t: seq<byte>, body: seq<byte>)
    requires |a| == |t| == 4 && p + |body| + 8 <= |s| && body == s[p + 8..p + 8 + |body|]
    ensures Over(Over(s, p, a), p + 4, t)[p + 4..p + 8 + |body|] == t + body
  {
  }

  lemma Framed(s: seq<byte>, p: nat, a: seq<byte>, t: seq<byte>, body: seq<byte>, z: seq<byte>)
    requires |a| == |t| == |z| == 4 && p + |body| + 12 <= |s| && body == s[p + 8..p + 8 + |body|]
    ensures Over(Over(Over(s, p, a), p + 4, t), p + 8 + |body|, z) == Over(s, p, a + t + body + z)
  {
    OverTwice(s, p, a, t);
    var u := Over(s, p, a + t);
    assert u[..p + 8 + |body|] == s[..p] + (a + t) + body;
    assert u[p + 12 + |body|..] == s[p + 12 + |body|..];
  }

  function ZBound(raw: nat): nat { raw + raw / 1000 + 64 }

  function FrameRoom(zb: nat): nat { 12 * (zb / IDAT_MAX + 2) }

  /** What the copying loop has left to do: chunks up to p, and the rest of the stream still whole at z + m. */
  predicate Laying(s: seq<byte>, p0: nat, p: nat, z: nat, zs: seq<byte>, m: nat, done: seq<byte>, crc: seq<byte> -> u32) {
    && m <= |zs| && Laid(s, p0, done) && p == p0 + |done| && Laid(s, z + m, zs[m..])
    && done + Idats(zs[m..], crc) == Idats(zs, crc)
  }

  /** One turn: the chunk is written below the part of the stream that is still to be read. */
  lemma LayStep(s: seq<byte>, t: seq<byte>, u: seq<byte>, p0: nat, p: nat, z: nat, zs: seq<byte>, m: nat, c: nat,
    done: seq<byte>, crc: seq<byte> -> u32)
    requires Laying(s, p0, p, z, zs, m, done, crc) && m < |zs|
    requires c == (if |zs| - m < IDAT_MAX then |zs| - m else IDAT_MAX) && p + 12 <= z + m
    requires t == Over(s, p + 8, s[z + m..z + m + c])
    requires u == Over(t, p, Chunk(IDAT, t[p + 8..p + 8 + c], crc))
    ensures Laying(u, p0, p + c + 12, z, zs, m + c, done + Chunk(IDAT, zs[m..m + c], crc), crc)
  {
    hide Chunk, Over, Idats;
    var body, rest := zs[m..m + c], zs[m + c..];
    assert zs[m..] == body + rest;
    LaidSplit(s, z + m, body, rest);
    assert s[z + m..z + m + c] == body;
    OverLaid(s, p + 8, body);
    assert t[p + 8..p + 8 + c] == body;
    hide Laid;
    var k := Chunk(IDAT, body, crc);
    OverKeeps(s, p + 8, body, p0, done);
    OverKeeps(s, p + 8, body, z + m + c, rest);
    OverKeeps(t, p, k, p0, done);
    OverKeeps(t, p, k, z + m + c, rest);
    OverLaid(t, p, k);
    LaidJoin(u, p0, done, k);
    IdatStep(zs[m..], crc);
    assert zs[m..][..c] == body && zs[m..][c..] == rest;
    assert done + (k + Idats(rest, crc)) == (done + k) + Idats(rest, crc);
  }

  lemma IdatStep(z: seq<byte>, crc: seq<byte> -> u32)
    requires z != []
    ensures var c := if |z| < IDAT_MAX then |z| else IDAT_MAX;
      Idats(z, crc) == Chunk(IDAT, z[..c], crc) + Idats(z[c..], crc)
  {
  }

  lemma LaidJoin(s: seq<byte>, o: int, a: seq<byte>, b: seq<byte>)
    requires Laid(s, o, a) && Laid(s, o + |a|, b)
    ensures Laid(s, o, a + b)
  {
  }

  method LayOne(out: array<byte>, ghost p0: nat, p: nat, z: nat, ghost zs: seq<byte>, k: nat, c: nat, ghost done: seq<byte>,
    crc: seq<byte> -> u32) returns (q: nat)
    requires Laying(out[..], p0, p, z, zs, k, done, crc) && k < |zs| && p + 12 <= z + k
    requires c == if |zs| - k < IDAT_MAX then |zs| - k else IDAT_MAX
    modifies out
    ensures q == p + c + 12 && out[..p0] == old(out[..p0])
    ensures Laying(out[..], p0, q, z, zs, k + c, done + Chunk(IDAT, zs[k..k + c], crc), crc)
  {
    hide Idats, Chunk, Over;
    ghost var s := out[..];
    Move(out, p + 8, z + k, c);
    ghost var t := out[..];
    OverBelow(s, p0, p + 8, s[z + k..z + k + c]);
    q := PeChunk(out, p, IDAT, c, crc);
    OverBelow(t, p0, p, Chunk(IDAT, t[p + 8..p + 8 + c], crc));
    LayStep(s, t, out[..], p0, p, z, zs, k, c, done, crc);
  }

  /** The loop of pe_encode that lays the IDAT chunks over the stream they frame, then IEND: in a buffer of pe_cap bytes
      the file ends inside it and holds every byte of the stream. */
  method LayChunks(out: array<byte>, p0: nat, z: nat, zs: seq<byte>, ghost zb: nat, crc: seq<byte> -> u32) returns (end: nat)
    requires |zs| <= zb && z == p0 + FrameRoom(zb) && z + zb + 12 <= out.Length && Laid(out[..], z, zs)
    modifies out
    ensures p0 <= end <= out.Length && out[..p0] == old(out[..p0])
    ensures out[p0..end] == Idats(zs, crc) + Chunk(IEND, [], crc)
  {
    hide Laying, Idats, Chunk, Over;
    var p, k := p0, 0;
    ghost var i, m, done := 0, 0, [];
    LayStart(out[..], p0, z, zs, crc);
    while k < |zs|
      invariant k == IDAT_MAX * i && m == (if k < |zs| then k else |zs|) && k < |zs| + IDAT_MAX
      invariant p == p0 + m + 12 * i && out[..p0] == old(out[..p0])
      invariant Laying(out[..], p0, p, z, zs, m, done, crc)
    {
      var c := if |zs| - k < IDAT_MAX then |zs| - k else IDAT_MAX;
      p := LayOne(out, p0, p, z, zs, k, c, done, crc);
      done := done + Chunk(IDAT, zs[m..m + c], crc);
      k, i, m := k + IDAT_MAX, i + 1, m + c;
    }
    ghost var s := out[..];
    end := PeChunk(out, p, IEND, 0, crc);
    OverBelow(s, p0, p, Chunk(IEND, [], crc));
    LayEnd(s, p0, p, z, zs, done, crc);
  }

  lemma LayStart(s: seq<byte>, p0: nat, z: nat, zs: seq<byte>, crc: seq<byte> -> u32)
    requires Laid(s, z, zs) && p0 <= |s|
    ensures Laying(s, p0, p0, z, zs, 0, [], crc)
  {
  }

  lemma OverBelow(s: seq<byte>, n: nat, o: nat, b: seq<byte>)
    requires n <= o && o + |b| <= |s|
    ensures Over(s, o, b)[..n] == s[..n]
  {
  }

  lemma LayEnd(s: seq<byte>, p0: nat, p: nat, z: nat, zs: seq<byte>, done: seq<byte>, crc: seq<byte> -> u32)
    requires Laying(s, p0, p, z, zs, |zs|, done, crc) && p + 12 <= |s|
    ensures Over(s, p, Chunk(IEND, s[p + 8..p + 8], crc))[p0..p + 12] == Idats(zs, crc) + Chunk(IEND, [], crc)
  {
    assert s[p + 8..p + 8] == [];
    hide Chunk, Over;
    var e := Chunk(IEND, [], crc);
    OverKeeps(s, p, e, p0, done);
    OverLaid(s, p, e);
    LaidJoin(Over(s, p, e), p0, done, e);
    assert zs[|zs|..] == [];
    assert done + [] == done;
    NoIdats(crc);
  }

  lemma NoIdats(crc: seq<byte> -> u32)
    ensures Idats([], crc) == []
  {
  }

  // ---- the file ----------------------------------------------------------------------------------

  datatype Image = Image(w: nat, h: nat, ch: nat, pix: seq<byte>)

  /** What pe_header lets through: at least one pixel, gray or RGB, and as many bytes as that needs. */
  predicate ValidImage(m: Image) {
    && 0 < m.w < 1_000_000 && 0 < m.h < 1_000_000 && (m.ch == 1 || m.ch == 3)
    && |m.pix| == m.h * (m.w * m.ch)
  }

  function HeaderBody(m: Image): (r: seq<byte>)
    requires ValidImage(m)
    ensures |r| == 13
  {
    Be4(m.w) + Be4(m.h) + [8, if m.ch == 3 then 2 else 0, 0, 0, 0]
  }

  function FileBytes(m: Image, z: seq<byte>, crc: seq<byte> -> u32): seq<byte>
    requires ValidImage(m)
  {
    SIGNATURE + Chunk(IHDR, HeaderBody(m), crc) + (Idats(z, crc) + Chunk(IEND, [], crc))
  }

  /** A PNG reader for 8-bit gray and RGB files without interlace. */
  function Decode(file: seq<byte>, inflate: seq<byte> -> seq<byte>, crc: seq<byte> -> u32): Option<Image> {
    if |file| < 8 || file[..8] != SIGNATURE then None
    else
      var c := ReadChunk(file[8..], crc);
      if c.None? || c.value.0 != IHDR || |c.value.1| != 13 || c.value.1[8] != 8 || c.value.1[10..] != [0, 0, 0]
         || c.value.1[9] !in [0, 2] then None
      else
        var b := c.value.1;
        var w, h, ch := GetBe4(b[..4]), GetBe4(b[4..8]), if b[9] == 2 then 3 else 1;
        var z := Bodies(c.value.2, crc);
        if z.None? then None
        else
          var pix := Reconstruct(inflate(z.value), h, w * ch, ch, None);
          if pix.None? then None else Some(Image(w, h, ch, pix.value))
  }

  /** Any PNG reader with a matching inflate gets the image back, whichever filters were chosen. */
  lemma DecodeFile(m: Image, fs: seq<byte>, z: seq<byte>, inflate: seq<byte> -> seq<byte>, crc: seq<byte> -> u32)
    requires ValidImage(m) && |fs| == m.h && forall i :: 0 <= i < |fs| ==> fs[i] <= 4
    requires inflate(z) == FilterImage(fs, m.pix, m.w * m.ch, m.ch, None)
    ensures Decode(FileBytes(m, z, crc), inflate, crc) == Some(m)
  {
    hide ReadChunk, Chunk, Bodies, Reconstruct, FilterImage, Idats;
    var file, b, rest := FileBytes(m, z, crc), HeaderBody(m), Idats(z, crc) + Chunk(IEND, [], crc);
    assert file[..8] == SIGNATURE && file[8..] == Chunk(IHDR, b, crc) + rest;
    ChunkRoundTrip(IHDR, b, rest, crc);
    IdatRoundTrip(z, crc);
    assert b[..4] == Be4(m.w) && b[4..8] == Be4(m.h) && b[10..] == [0, 0, 0];
    Be4RoundTrip(m.w);
    Be4RoundTrip(m.h);
    ImageRoundTrip(fs, m.pix, m.w * m.ch, m.ch, None);
  }

  /** pe_cap */
  function Cap(m: Image): nat {
    var zb := ZBound((m.w * m.ch + 1) * m.h);
    8 + 25 + FrameRoom(zb) + zb + 12
  }

  lemma {:induction false} IdatsLength(z: seq<byte>, crc: seq<byte> -> u32)
    ensures |Idats(z, crc)| == |z| + 12 * ((|z| + IDAT_MAX - 1) / IDAT_MAX)
    decreases |z|
  {
    hide Chunk;
    if z != [] {
      IdatStep(z, crc);
      IdatsLength(z[if |z| < IDAT_MAX then |z| else IDAT_MAX..], crc);
    } else {
      NoIdats(crc);
    }
  }

  /** pe_cap wastes next to nothing: of the longest file there can be, it is 12 or 24 bytes off. */
  lemma CapIsTight(m: Image, z: seq<byte>, crc: seq<byte> -> u32)
    requires ValidImage(m) && |z| == ZBound((m.w * m.ch + 1) * m.h)
    ensures Cap(m) - |FileBytes(m, z, crc)| in {12, 24}
  {
    hide Chunk, Idats, ZBound;
    IdatsLength(z, crc);
    assert |Chunk(IHDR, HeaderBody(m), crc)| == 25 && |Chunk(IEND, [], crc)| == 12;
  }

  /** pe_encode, around a deflate that keeps zlib's bound: refused exactly when the buffer is smaller than pe_cap, else
      the file is in the buffer, every row under its best filter. */
  method PeEncode(m: Image, deflate: seq<byte> -> seq<byte>, crc: seq<byte> -> u32, out: array<byte>)
    returns (end: Option<nat>, ghost fs: seq<byte>)
    requires ValidImage(m) && forall x :: |deflate(x)| <= ZBound(|x|)
    modifies out
    ensures end.Some? <==> out.Length >= Cap(m)
    ensures end.Some? ==>
      && |fs| == m.h && (forall i :: 0 <= i < m.h ==> fs[i] <= 4)
      && |m.pix| == |fs| * (m.w * m.ch) && AllBest(fs, m.pix, m.w * m.ch, m.ch, None)
      && end.value <= out.Length
      && out[..end.value] == FileBytes(m, deflate(FilterImage(fs, m.pix, m.w * m.ch, m.ch, None)), crc)
  {
    hide Over, Chunk, Idats, FilterImage, AllBest, FrameRoom, ZBound;
    fs := [];
    if out.Length < Cap(m) {
      return None, fs;
    }
    var len := m.w * m.ch;
    OverLaid(out[..], 0, SIGNATURE);
    Put(out, 0, SIGNATURE);
    OverLaid(out[..], 16, HeaderBody(m));
    OverKeeps(out[..], 16, HeaderBody(m), 0, SIGNATURE);
    Put(out, 16, HeaderBody(m));
    ghost var s := out[..];
    var p := PeChunk(out, 8, IHDR, 13, crc);
    assert out[..33] == SIGNATURE + Chunk(IHDR, HeaderBody(m), crc) by { HeadLaid(s, m, crc); }
    var zb := ZBound((len + 1) * m.h);
    var z := p + FrameRoom(zb);
    var rows;
    rows, fs := FilterRows(m.pix, m.h, len, m.ch);
    var zs := deflate(rows);
    ghost var t := out[..];
    Put(out, z, zs);
    OverLaid(t, z, zs);
    OverBelow(t, 33, z, zs);
    var e := LayChunks(out, p, z, zs, zb, crc);
    end := Some(e);
    assert out[..e] == out[..33] + out[33..e];
  }

  lemma HeadLaid(s: seq<byte>, m: Image, crc: seq<byte> -> u32)
    requires ValidImage(m) && |s| >= 33
    requires Laid(s, 0, SIGNATURE) && Laid(s, 16, HeaderBody(m))
    ensures s[16..29] == HeaderBody(m)
    ensures Over(s, 8, Chunk(IHDR, HeaderBody(m), crc))[..33] == SIGNATURE + Chunk(IHDR, HeaderBody(m), crc)
  {
  }
}
