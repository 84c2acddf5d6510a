/** PNG row filters (sam-yum-tt/src/pngenc.c) and their inverse (section 6 of RFC 2083). */
module PngFilter {
  import opened Wire

  // ---- predictors --------------------------------------------------------------------------------

  function Abs(x: int): nat { if x < 0 then -x else x }

  /** Of left, above and upper left, the one nearest to left + above - upper left; ties in that order. */
  function Paeth(a: byte, b: byte, c: byte): (r: byte)
  {
    var p := a + b - c;
    var pa, pb, pc := Abs(p - a), Abs(p - b), Abs(p - c);
    if pa <= pb && pa <= pc then a else if pb <= pc then b else c
  }

  function Predict(f: int, a: byte, b: byte, c: byte): (r: byte) {
    if f == 0 then 0 else if f == 1 then a else if f == 2 then b else if f == 3 then (a + b) / 2 else Paeth(a, b, c)
  }

  /** The byte bpp places back, or 0. */
  function Left(row: seq<byte>, i: nat, bpp: nat): byte
    requires i <= |row| + bpp
  {
    if i >= bpp && i - bpp < |row| then row[i - bpp] else 0
  }

  /** The byte above, or 0 on the first row. */
  function Above(prev: Option<seq<byte>>, i: int): byte {
    if prev.Some? && 0 <= i < |prev.value| then prev.value[i] else 0
  }

  // ---- filtering and its inverse -----------------------------------------------------------------

  function Filtered(f: int, row: seq<byte>, prev: Option<seq<byte>>, bpp: nat, i: nat): byte
    requires i < |row|
  {
    (row[i] - Predict(f, Left(row, i, bpp), Above(prev, i), Above(prev, i - bpp))) % 256
  }

  function FilterRow(f: int, row: seq<byte>, prev: Option<seq<byte>>, bpp: nat): (r: seq<byte>)
    ensures |r| == |row|
  {
    seq(|row|, i requires 0 <= i < |row| => Filtered(f, row, prev, bpp, i))
  }

  /** Reconstruction: each byte adds the prediction made from bytes already reconstructed. */
  function Unfilter(f: int, s: seq<byte>, prev: Option<seq<byte>>, bpp: nat): (r: seq<byte>)
    ensures |r| == |s|
  {
    if s == [] then []
    else
      var n := |s| - 1;
      var done := Unfilter(f, s[..n], prev, bpp);
      done + [(s[n] + Predict(f, Left(done, n, bpp), Above(prev, n), Above(prev, n - bpp))) % 256]
  }

  lemma {:induction false} UnfilterPrefix(f: int, row: seq<byte>, prev: Option<seq<byte>>, bpp: nat, n: nat)
    requires n <= |row| && bpp > 0
    ensures Unfilter(f, FilterRow(f, row, prev, bpp)[..n], prev, bpp) == row[..n]
    decreases n
  {
    hide Predict, Above;
    if n > 0 {
      var s := FilterRow(f, row, prev, bpp);
      var t := s[..n];
      assert t[..n - 1] == s[..n - 1];
      UnfilterPrefix(f, row, prev, bpp, n - 1);
      var pr := Predict(f, Left(row, n - 1, bpp), Above(prev, n - 1), Above(prev, n - 1 - bpp));
      assert Left(row[..n - 1], n - 1, bpp) == Left(row, n - 1, bpp);
      assert t[n - 1] == (row[n - 1] as int - pr) % 256;
      AddBack(row[n - 1], pr);
      assert row[..n] == row[..n - 1] + [row[n - 1]];
    }
  }

  lemma AddBack(x: byte, p: byte)
    ensures ((x as int - p) % 256 + p) % 256 == x
  {
  }

  /** Every filter type is undone, whatever the row and the row above. */
  lemma FilterRoundTrip(f: int, row: seq<byte>, prev: Option<seq<byte>>, bpp: nat)
    requires bpp > 0
    ensures Unfilter(f, FilterRow(f, row, prev, bpp), prev, bpp) == row
  {
    var s := FilterRow(f, row, prev, bpp);
    UnfilterPrefix(f, row, prev, bpp, |row|);
    assert s[..|row|] == s && row[..|row|] == row;
  }

  /** What the five filter bytes mean (section 6 of RFC 2083), with the bytes to the left, above and above the left one
      taken from the row and the row above, or 0 outside them.  The prediction is what the filtered byte leaves out. */
  lemma FilterMeans(f: int, row: seq<byte>, prev: Option<seq<byte>>, bpp: nat, i: nat)
    requires 0 <= f < 5 && bpp > 0 && i < |row| && (prev.Some? ==> |prev.value| == |row|)
    ensures var r := (row[i] as int - FilterRow(f, row, prev, bpp)[i]) % 256;
            var left: int := if i >= bpp then row[i - bpp] else 0;
            var above: int := if prev.Some? then prev.value[i] else 0;
            var corner: int := if i >= bpp && prev.Some? then prev.value[i - bpp] else 0;
            && (f == 0 ==> r == 0)
            && (f == 1 ==> r == left)
            && (f == 2 ==> r == above)
            && (f == 3 ==> 2 * r <= left + above < 2 * r + 2)
            && (f == 4 ==> Nearest(r, left, above, corner))
  {
    var left: byte := if i >= bpp then row[i - bpp] else 0;
    var above: byte := if prev.Some? then prev.value[i] else 0;
    var corner: byte := if i >= bpp && prev.Some? then prev.value[i - bpp] else 0;
    var p := Predict(f, left, above, corner);
    assert FilterRow(f, row, prev, bpp)[i] == (row[i] as int - p) % 256;
    LeftOut(row[i], p);
    hide Predict;
    assert (row[i] as int - FilterRow(f, row, prev, bpp)[i]) % 256 == p;
    PredictMeans(f, left, above, corner);
  }

  lemma LeftOut(x: int, p: byte)
    ensures (x - (x - p) % 256) % 256 == p
  {
  }

  /** r is the one of the three bytes that is nearest to left + above - corner; the first of them on a tie. */
  predicate Nearest(r: int, left: int, above: int, corner: int) {
    var p := left + above - corner;
    && (r == left || r == above || r == corner)
    && Abs(p - r) <= Abs(p - left) && Abs(p - r) <= Abs(p - above) && Abs(p - r) <= Abs(p - corner)
    && (r != left ==> Abs(p - r) < Abs(p - left))
    && (r != left && r != above ==> Abs(p - r) < Abs(p - above))
  }

  lemma PredictMeans(f: int, left: byte, above: byte, corner: byte)
    requires 0 <= f < 5
    ensures var r := Predict(f, left, above, corner);
            && (f == 0 ==> r == 0) && (f == 1 ==> r == left) && (f == 2 ==> r == above)
            && (f == 3 ==> 2 * r <= left + above < 2 * r + 2) && (f == 4 ==> Nearest(r, left, above, corner))
  {
  }

  // ---- the choice --------------------------------------------------------------------------------

  /** The magnitude of a byte taken as a signed one. */
  function Weight(x: byte): nat { if x < 128 then x else 256 - x }

  lemma WeightMeans(x: byte, v: int)
    requires -128 <= v < 128 && (x - v) % 256 == 0
    ensures Weight(x) == if v < 0 then -v else v
  {
  }

  /** The sum of the bytes' magnitudes as signed bytes. */
  function Cost(s: seq<byte>): nat {
    if s == [] then 0 else Cost(s[..|s| - 1]) + Weight(s[|s| - 1])
  }

  function RowCost(f: int, row: seq<byte>, prev: Option<seq<byte>>, bpp: nat): nat {
    Cost(FilterRow(f, row, prev, bpp))
  }

  /** f is the cheapest filter, and the lowest-numbered of the cheapest, among the first n. */
  predicate Best(f: int, n: int, row: seq<byte>, prev: Option<seq<byte>>, bpp: nat) {
    && 0 <= f < n
    && (forall g :: 0 <= g < n ==> RowCost(f, row, prev, bpp) <= RowCost(g, row, prev, bpp))
    && (forall g :: 0 <= g < f ==> RowCost(f, row, prev, bpp) < RowCost(g, row, prev, bpp))
  }

  /** One turn of pe_filter's outer loop: filter the row into o and weigh it. */
  method TryFilter(f: int, row: seq<byte>, prev: Option<seq<byte>>, bpp: nat, o: array<byte>) returns (sum: nat)
    requires 0 <= f < 5 && o.Length == |row| + 1 && (prev.Some? ==> |prev.value| == |row|)
    modifies o
    ensures o[0] == f && o[1..] == FilterRow(f, row, prev, bpp) && sum == RowCost(f, row, prev, bpp)
  {
    hide Predict;
    o[0] := f;
    var i := 0;
    sum := 0;
    ghost var s := FilterRow(f, row, prev, bpp);
    while i < |row|
      invariant 0 <= i <= |row| && o[0] == f && o[1..i + 1] == s[..i] && sum == Cost(s[..i])
    {
      var a: byte := if i >= bpp then row[i - bpp] else 0;
      var b: byte := if prev.Some? then prev.value[i] else 0;
      var c: byte := if i >= bpp && prev.Some? then prev.value[i - bpp] else 0;
      var pr := Prediction(f, a, b, c);
      o[i + 1] := (row[i] as int - pr) % 256;
      sum := sum + if o[i + 1] < 128 then o[i + 1] else 256 - o[i + 1];
      CostStep(s, i);
      i := i + 1;
    }
    assert i == |row| && s[..i] == s;
    assert o[1..o.Length] == o[1..i + 1];
    assert o[1..] == o[1..o.Length];
  }

  /** pe_filter's switch. */
  method Prediction(f: int, a: byte, b: byte, c: byte) returns (pr: byte)
    requires 0 <= f < 5
    ensures pr == Predict(f, a, b, c)
  {
    match f {
      case 0 => pr := 0;
      case 1 => pr := a;
      case 2 => pr := b;
      case 3 => pr := (a + b) / 2;
      case _ =>
        var p := a + b - c;
        var pa, pb, pc := Abs(p - a), Abs(p - b), Abs(p - c);
        pr := if pa <= pb && pa <= pc then a else if pb <= pc then b else c;
    }
  }

  lemma CostStep(s: seq<byte>, i: nat)
    requires i < |s|
    ensures Cost(s[..i + 1]) == Cost(s[..i]) + Weight(s[i])
  {
    assert s[..i + 1][..i] == s[..i];
  }

  /** pe_filter: best gets the filter byte and the row under the cheapest filter, ties to the lower number. */
  method PeFilter(row: seq<byte>, prev: Option<seq<byte>>, bpp: nat, best: array<byte>, tmp: array<byte>)
    returns (ghost f: int)
    requires best != tmp && best.Length == tmp.Length == |row| + 1 && (prev.Some? ==> |prev.value| == |row|)
    modifies best, tmp
    ensures Best(f, 5, row, prev, bpp)
    ensures best[0] == f && best[1..] == FilterRow(f, row, prev, bpp)
  {
    hide FilterRow, RowCost;
    var bestsum := TryFilter(0, row, prev, bpp, best);
    f := 0;
    var g := 1;
    while g < 5
      invariant 1 <= g <= 5 && Best(f, g, row, prev, bpp) && bestsum == RowCost(f, row, prev, bpp)
      invariant best[0] == f && best[1..] == FilterRow(f, row, prev, bpp)
    {
      var sum := TryFilter(g, row, prev, bpp, tmp);
      if sum < bestsum {
        bestsum := sum;
        forall i | 0 <= i < best.Length {
          best[i] := tmp[i];
        }
        assert best[1..] == tmp[1..];
        f := g;
      }
      g := g + 1;
    }
  }

  // ---- whole images ------------------------------------------------------------------------------

  /** The row of n bytes at the front of the image comes back, then the next: what a PNG reader does with the
      decompressed stream. */
  function Reconstruct(s: seq<byte>, h: nat, len: nat, bpp: nat, prev: Option<seq<byte>>): (r: Option<seq<byte>>)
    decreases h
  {
    if h == 0 then (if s == [] then Some([]) else None)
    else if |s| < len + 1 || s[0] > 4 then None
    else
      var row := Unfilter(s[0], s[1..len + 1], prev, bpp);
      var rest := Reconstruct(s[len + 1..], h - 1, len, bpp, Some(row));
      if rest.None? then None else Some(row + rest.value)
  }

  /** An image's rows under any filters. */
  function FilterImage(fs: seq<byte>, pix: seq<byte>, len: nat, bpp: nat, prev: Option<seq<byte>>): seq<byte>
    requires |pix| == |fs| * len
    decreases |fs|
  {
    if fs == [] then []
    else
      Rows(|fs|, len);
      var row := pix[..len];
      [fs[0]] + FilterRow(fs[0], row, prev, bpp) + FilterImage(fs[1..], pix[len..], len, bpp, Some(row))
  }

  lemma Rows(h: nat, len: nat)
    requires h > 0
    ensures h * len == len + (h - 1) * len && (h - 1) * len >= 0
  {
  }

  /** Whichever filters are chosen, reconstruction gives the pixels. */
  lemma {:induction false} ImageRoundTrip(fs: seq<byte>, pix: seq<byte>, len: nat, bpp: nat, prev: Option<seq<byte>>)
    requires |pix| == |fs| * len && bpp > 0 && forall i :: 0 <= i < |fs| ==> fs[i] <= 4
    ensures Reconstruct(FilterImage(fs, pix, len, bpp, prev), |fs|, len, bpp, prev) == Some(pix)
    decreases |fs|
  {
    hide FilterRow, Unfilter;
    if fs == [] {
      assert pix == [];
    } else {
      Rows(|fs|, len);
      var row, rest := pix[..len], pix[len..];
      var body, tail := FilterRow(fs[0], row, prev, bpp), FilterImage(fs[1..], rest, len, bpp, Some(row));
      var s := FilterImage(fs, pix, len, bpp, prev);
      assert s == [fs[0]] + body + tail;
      assert s[0] == fs[0] && s[1..len + 1] == body && s[len + 1..] == tail;
      FilterRoundTrip(fs[0], row, prev, bpp);
      ImageRoundTrip(fs[1..], rest, len, bpp, Some(row));
      assert row + rest == pix;
    }
  }

  /** Each row's filter is the best one for it. */
  predicate AllBest(fs: seq<byte>, pix: seq<byte>, len: nat, bpp: nat, prev: Option<seq<byte>>)
    requires |pix| == |fs| * len
    decreases |fs|
  {
    fs == [] ||
    (Rows(|fs|, len);
     Best(fs[0], 5, pix[..len], prev, bpp) && AllBest(fs[1..], pix[len..], len, bpp, Some(pix[..len])))
  }

  /** The row above the next one. */
  function LastRow(pix: seq<byte>, len: nat, prev: Option<seq<byte>>): Option<seq<byte>> {
    if |pix| < len || pix == [] then prev else Some(pix[|pix| - len..])
  }

  lemma {:induction false} OneMoreRow(
    fs: seq<byte>, pix: seq<byte>, f: byte, row: seq<byte>, len: nat, bpp: nat, prev: Option<seq<byte>>)
    requires |pix| == |fs| * len && |row| == len > 0
    ensures |pix + row| == |fs + [f]| * len
    ensures FilterImage(fs + [f], pix + row, len, bpp, prev) ==
            FilterImage(fs, pix, len, bpp, prev) + [f] + FilterRow(f, row, LastRow(pix, len, prev), bpp)
    ensures AllBest(fs + [f], pix + row, len, bpp, prev) ==
            (AllBest(fs, pix, len, bpp, prev) && Best(f, 5, row, LastRow(pix, len, prev), bpp))
    decreases |fs|
  {
    hide FilterRow, Best;
    var gs, qix := fs + [f], pix + row;
    Rows(|gs|, len);
    if fs == [] {
      assert pix == [] && gs[1..] == [] && qix[..len] == row && qix[len..] == [];
    } else {
      Rows(|fs|, len);
      var first := pix[..len];
      OneMoreRow(fs[1..], pix[len..], f, row, len, bpp, Some(first));
      assert gs[1..] == fs[1..] + [f] && qix[..len] == first && qix[len..] == pix[len..] + row;
      assert LastRow(pix[len..], len, Some(first)) == LastRow(pix, len, prev) by {
        NextLast(pix, len, prev, |fs| - 1);
      }
    }
  }

  lemma NextLast(pix: seq<byte>, len: nat, prev: Option<seq<byte>>, n: nat)
    requires |pix| == len + n * len && len > 0
    ensures LastRow(pix[len..], len, Some(pix[..len])) == LastRow(pix, len, prev)
  {
    if n > 0 {
      Rows(n, len);
      assert pix[len..][|pix| - len - len..] == pix[|pix| - len..];
    } else {
      assert pix[0..] == pix[..len];
    }
  }

  /** The row loop of pe_encode: what goes into the compressor. */
  method FilterRows(pix: seq<byte>, h: nat, len: nat, bpp: nat) returns (s: seq<byte>, ghost fs: seq<byte>)
    requires len > 0 && |pix| == h * len
    ensures |fs| == h && (forall i :: 0 <= i < h ==> fs[i] <= 4) && |s| == (len + 1) * h
    ensures s == FilterImage(fs, pix, len, bpp, None) && AllBest(fs, pix, len, bpp, None)
  {
    hide FilterImage, AllBest, FilterRow, Best, LastRow;
    var best, tmp := new byte[len + 1], new byte[len + 1];
    var y, prev := 0, None;
    s, fs := [], [];
    ghost var done := [];
    NoRows(len, bpp);
    assert pix[..0] == [];
    while y < h
      invariant 0 <= y <= h && |fs| == y && done == pix[..y * len] && |done| == y * len && |s| == (len + 1) * y
      invariant y * len <= |pix| && prev == LastRow(done, len, None) && (prev.Some? ==> |prev.value| == len)
      invariant forall i :: 0 <= i < y ==> fs[i] <= 4
      invariant s == FilterImage(fs, done, len, bpp, None) && AllBest(fs, done, len, bpp, None)
    {
      RowAt(y, h, len);
      var row := pix[y * len..y * len + len];
      ghost var f := PeFilter(row, prev, bpp, best, tmp);
      assert 0 <= f <= 4 by { BestRange(f, row, prev, bpp); }
      OneMoreRow(fs, done, f, row, len, bpp, None);
      assert best[..] == [f as byte] + FilterRow(f, row, prev, bpp);
      assert s + best[..] == s + [f as byte] + FilterRow(f, row, prev, bpp);
      NewLast(done, row, len);
      s, fs, done := s + best[..], fs + [f], done + row;
      prev := Some(row);
      y := y + 1;
    }
    assert pix[..y * len] == pix;
  }

  lemma NoRows(len: nat, bpp: nat)
    ensures FilterImage([], [], len, bpp, None) == [] && AllBest([], [], len, bpp, None) && LastRow([], len, None) == None
  {
  }

  lemma NewLast(pix: seq<byte>, row: seq<byte>, len: nat)
    requires |row| == len > 0
    ensures LastRow(pix + row, len, None) == Some(row)
  {
  }

  lemma BestRange(f: int, row: seq<byte>, prev: Option<seq<byte>>, bpp: nat)
    requires Best(f, 5, row, prev, bpp)
    ensures 0 <= f <= 4
  {
  }

  lemma RowAt(y: nat, h: nat, len: nat)
    requires y < h
    ensures 0 <= y * len && (y + 1) * len == y * len + len <= h * len && (len + 1) * (y + 1) == (len + 1) * y + len + 1
  {
  }
}
