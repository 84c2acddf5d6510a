/** Byte strings that are laid over parts of other byte strings. */
module Bytes {
  import opened Wire

  function Zeros(n: nat): (s: seq<byte>)
    ensures |s| == n && forall i :: 0 <= i < n ==> s[i] == 0
  {
    seq(n, _ => 0 as byte)
  }

  function Padded(s: seq<byte>, len: nat): (r: seq<byte>)
    requires |s| <= len
    ensures |r| == len
  {
    s + Zeros(len - |s|)
  }

  /** bytes are at o in img. */
  predicate Laid(img: seq<byte>, o: int, bytes: seq<byte>) {
    0 <= o && o + |bytes| <= |img| && img[o..o + |bytes|] == bytes
  }

  lemma LaidSplit(img: seq<byte>, o: int, a: seq<byte>, b: seq<byte>)
    requires Laid(img, o, a + b)
    ensures Laid(img, o, a) && Laid(img, o + |a|, b)
  {
    var s := img[o..o + |a + b|];
    assert s[..|a|] == a && s[|a|..] == b;
    assert img[o..o + |a|] == s[..|a|] && img[o + |a|..o + |a| + |b|] == s[|a|..];
  }

  function Over(s: seq<byte>, o: int, b: seq<byte>): (r: seq<byte>)
    requires 0 <= o && o + |b| <= |s|
    ensures |r| == |s|
  {
    s[..o] + b + s[o + |b|..]
  }

  lemma OverLaid(s: seq<byte>, o: int, b: seq<byte>)
    requires 0 <= o && o + |b| <= |s|
    ensures Laid(Over(s, o, b), o, b)
  {
  }

  lemma OverKeeps(s: seq<byte>, o: int, b: seq<byte>, p: int, x: seq<byte>)
    requires 0 <= o && o + |b| <= |s| && Laid(s, p, x) && (p + |x| <= o || o + |b| <= p)
    ensures Laid(Over(s, o, b), p, x)
  {
  }

  lemma OverTwice(s: seq<byte>, o: int, a: seq<byte>, b: seq<byte>)
    requires 0 <= o && o + |a| + |b| <= |s|
    ensures Over(Over(s, o, a), o + |a|, b) == Over(s, o, a + b)
  {
  }

  lemma OverPad(s: seq<byte>, o: int, b: seq<byte>, len: nat)
    requires |b| <= len && Laid(s, o, Zeros(len))
    ensures Over(s, o, b) == Over(s, o, Padded(b, len))
  {
  }

  lemma ZerosPart(s: seq<byte>, o: int, len: nat, p: int, m: nat)
    requires Laid(s, o, Zeros(len)) && o <= p && p + m <= o + len
    ensures Laid(s, p, Zeros(m))
  {
    var z := s[o..o + len];
    forall i | p <= i < p + m ensures s[i] == 0 {
      assert s[i] == z[i - o];
    }
  }

  lemma LaidFits(s: seq<byte>, o: int, b: seq<byte>)
    requires Laid(s, o, b)
    ensures 0 <= o && o + |b| <= |s|
  {
  }

  /** out[o..o + |data|] := data */
  method Put(out: array<byte>, o: int, data: seq<byte>)
    requires 0 <= o && o + |data| <= out.Length
    modifies out
    ensures out[..] == Over(old(out[..]), o, data)
  {
    var i := 0;
    while i < |data|
      invariant 0 <= i <= |data|
      invariant out[o..o + i] == data[..i]
      invariant forall j :: 0 <= j < out.Length && !(o <= j < o + i) ==> out[j] == old(out[j])
    {
      out[o + i] := data[i];
      i := i + 1;
    }
    assert out[..o] == old(out[..o]) && out[o + |data|..] == old(out[o + |data|..]);
    assert out[..] == out[..o] + out[o..o + |data|] + out[o + |data|..];
  }

  lemma OverNothing(s: seq<byte>, o: int)
    requires 0 <= o <= |s|
    ensures Over(s, o, []) == s
  {
  }

  /** Four bytes, most significant first. */
  function Be4(v: u32): (r: seq<byte>)
    ensures |r| == 4
  {
    [v / 0x100_0000, v / 0x1_0000 % 256, v / 256 % 256, v % 256]
  }

  function GetBe4(s: seq<byte>): u32
    requires |s| == 4
  {
    0x100_0000 * (s[0] as int) + 0x1_0000 * (s[1] as int) + 256 * (s[2] as int) + s[3]
  }

  lemma Be4RoundTrip(v: u32)
    ensures GetBe4(Be4(v)) == v
  {
    var a, b := v / 256, v / 0x1_0000;
    assert v == 256 * a + v % 256 && a == 256 * b + a % 256 && b == 256 * (v / 0x100_0000) + b % 256;
  }
}
