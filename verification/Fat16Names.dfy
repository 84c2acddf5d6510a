/** 8.3 names and directory entries of an Atari FAT16 partition (scripts/atari_fat16.py). */
module Fat16Names {
  import opened Wire
  import opened Bytes

  const SPACE: byte := 32
  const DOT: byte := 46

  // ---- names -----------------------------------------------------------------------------------

  /** What str.rstrip() strips, within latin-1. */
  predicate Blank(c: byte) { 9 <= c <= 13 || 28 <= c <= 32 || c == 133 || c == 160 }

  /** str.upper() on one latin-1 character; None where the result is no longer latin-1. */
  function Upper1(c: byte): Option<seq<byte>> {
    if 97 <= c <= 122 || (224 <= c <= 254 && c != 247) then Some([c - 32])
    else if c == 223 then Some([83, 83])
    else if c == 181 || c == 255 then None
    else Some([c])
  }

  function Upper(s: seq<byte>): Option<seq<byte>> {
    if s == [] then Some([])
    else
      var a, b := Upper1(s[0]), Upper(s[1..]);
      if a.Some? && b.Some? then Some(a.value + b.value) else None
  }

  predicate Caps(s: seq<byte>) { forall i :: 0 <= i < |s| ==> Upper1(s[i]) == Some([s[i]]) }

  function Rstrip(s: seq<byte>): seq<byte> {
    if s == [] || !Blank(s[|s| - 1]) then s else Rstrip(s[..|s| - 1])
  }

  predicate Trimmed(s: seq<byte>) { s == [] || !Blank(s[|s| - 1]) }

  function Spaces(n: nat): (s: seq<byte>)
    ensures |s| == n && forall i :: 0 <= i < n ==> s[i] == SPACE
  {
    seq(n, _ => SPACE)
  }

  function Join(base: seq<byte>, ext: seq<byte>): seq<byte> {
    base + (if ext == [] then [] else [DOT] + ext)
  }

  function Name83(raw: seq<byte>): seq<byte>
    requires |raw| == 11
  {
    Join(Rstrip(raw[..8]), Rstrip(raw[8..]))
  }

  /** The place of the first dot, or |s|. */
  function FirstDot(s: seq<byte>): (i: nat)
    ensures i <= |s| && (i < |s| ==> s[i] == DOT) && forall k :: 0 <= k < i ==> s[k] != DOT
  {
    if s == [] || s[0] == DOT then 0 else 1 + FirstDot(s[1..])
  }

  function Base(name: seq<byte>): seq<byte> { name[..FirstDot(name)] }

  function Extn(name: seq<byte>): seq<byte> {
    if FirstDot(name) == |name| then [] else name[FirstDot(name) + 1..]
  }

  function Columns(base: seq<byte>, ext: seq<byte>): (r: seq<byte>)
    requires |base| <= 8 && |ext| <= 3
    ensures |r| == 11
  {
    (base + Spaces(8 - |base|)) + (ext + Spaces(3 - |ext|))
  }

  function Pad83(name: seq<byte>): (r: Option<seq<byte>>)
    ensures r.Some? ==> |r.value| == 11
  {
    var u := Upper(name);
    if u.Some? && 0 < |Base(u.value)| <= 8 && |Extn(u.value)| <= 3 then Some(Columns(Base(u.value), Extn(u.value)))
    else None
  }

  /** Upper case, no part ending in white space, and no dot without an extension. */
  predicate Canonical(name: seq<byte>) {
    && Caps(name)
    && 0 < |Base(name)| <= 8 && |Extn(name)| <= 3
    && Trimmed(Base(name)) && Trimmed(Extn(name))
    && (FirstDot(name) < |name| ==> Extn(name) != [])
  }

  lemma {:induction false} RstripSpaces(s: seq<byte>, n: nat)
    ensures Rstrip(s + Spaces(n)) == Rstrip(s)
    decreases n
  {
    if n == 0 {
      assert s + Spaces(0) == s;
    } else {
      var t := s + Spaces(n);
      assert t[|t| - 1] == SPACE && t[..|t| - 1] == s + Spaces(n - 1);
      RstripSpaces(s, n - 1);
    }
  }

  /** Stripping keeps a prefix, and keeps all of it only when there was nothing to strip. */
  lemma {:induction false} RstripPrefix(s: seq<byte>)
    ensures |Rstrip(s)| <= |s| && Rstrip(s) == s[..|Rstrip(s)|] && Trimmed(Rstrip(s))
    ensures Rstrip(s) == s <==> Trimmed(s)
    decreases |s|
  {
    if s != [] && Blank(s[|s| - 1]) {
      RstripPrefix(s[..|s| - 1]);
      assert s[..|s| - 1][..|Rstrip(s)|] == s[..|Rstrip(s)|];
    }
  }

  lemma {:induction false} CapsUpper(s: seq<byte>)
    requires Caps(s)
    ensures Upper(s) == Some(s)
  {
    if s != [] {
      CapsUpper(s[1..]);
      assert s == [s[0]] + s[1..];
    }
  }

  lemma {:induction false} UpperCaps(s: seq<byte>)
    requires Upper(s).Some?
    ensures Caps(Upper(s).value)
  {
    if s != [] {
      UpperCaps(s[1..]);
    }
  }

  /** In ASCII, upper case is the 26 letters, and everything else stays. */
  lemma {:induction false} UpperAscii(s: seq<byte>, i: nat)
    requires i < |s| && forall k :: 0 <= k < |s| ==> s[k] < 128
    ensures Upper(s).Some? && |Upper(s).value| == |s|
    ensures Upper(s).value[i] == if 97 <= s[i] <= 122 then s[i] - 32 else s[i]
  {
    if |s| > 1 {
      UpperAscii(s[1..], if i == 0 then 0 else i - 1);
    } else {
      assert Upper(s[1..]) == Some([]);
    }
  }

  /** No name ending in white space survives. */
  lemma WhiteIsStripped(base: seq<byte>, c: byte)
    requires c in {9, 10, 11, 12, 13, 32, 133, 160}
    ensures !Canonical(base + [c])
  {
    var s := base + [c];
    assert FirstDot(s) < |s| ==> Extn(s) == [] || Extn(s)[|Extn(s)| - 1] == c;
    assert FirstDot(s) == |s| ==> Base(s)[|Base(s)| - 1] == c;
  }

  lemma {:induction false} DotAt(s: seq<byte>, i: nat)
    requires i <= |s| && (i < |s| ==> s[i] == DOT) && forall k :: 0 <= k < i ==> s[k] != DOT
    ensures FirstDot(s) == i
  {
  }

  lemma {:induction false} ReadColumns(base: seq<byte>, ext: seq<byte>)
    requires |base| <= 8 && |ext| <= 3
    ensures Name83(Columns(base, ext)) == Join(Rstrip(base), Rstrip(ext))
  {
    hide Rstrip;
    var l, x := base + Spaces(8 - |base|), ext + Spaces(3 - |ext|);
    assert (l + x)[..8] == l && (l + x)[8..] == x;
    RstripSpaces(base, 8 - |base|);
    RstripSpaces(ext, 3 - |ext|);
  }

  /** base and ext, neither ending in white space, come apart again. */
  lemma SplitJoin(base: seq<byte>, ext: seq<byte>)
    requires forall k :: 0 <= k < |base| ==> base[k] != DOT
    ensures Base(Join(base, ext)) == base && Extn(Join(base, ext)) == ext
    ensures FirstDot(Join(base, ext)) < |Join(base, ext)| <==> ext != []
  {
    hide Upper1;
    var s := Join(base, ext);
    DotAt(s, |base|);
    assert s[..|base|] == base;
    if ext != [] {
      assert s[|base| + 1..] == ext;
    }
  }

  lemma {:induction false} JoinSplit(name: seq<byte>)
    requires FirstDot(name) < |name| ==> Extn(name) != []
    ensures Join(Base(name), Extn(name)) == name
  {
    hide Rstrip;
    var d := FirstDot(name);
    if d < |name| {
      assert name == name[..d] + ([DOT] + name[d + 1..]);
    } else {
      assert name == name[..d] + [];
    }
  }

  /** pad83 writes what name83 reads back exactly on the canonical names, of all names pad83 accepts. */
  lemma NameRoundTrip(name: seq<byte>)
    requires Pad83(name).Some?
    ensures Name83(Pad83(name).value) == name <==> Canonical(name)
  {
    hide Upper1, Rstrip, Columns;
    var u := Upper(name).value;
    var b, x := Base(u), Extn(u);
    ReadColumns(b, x);
    RstripPrefix(b);
    RstripPrefix(x);
    if Canonical(name) {
      CapsUpper(name);
      JoinSplit(name);
    }
    if Name83(Pad83(name).value) == name {
      UpperCaps(name);
      JoinCaps(u, Rstrip(b), Rstrip(x));
      CapsUpper(name);
      SplitJoin(Rstrip(b), Rstrip(x));
    }
  }

  lemma JoinCaps(u: seq<byte>, b: seq<byte>, x: seq<byte>)
    requires Caps(u) && |b| <= |Base(u)| && b == Base(u)[..|b|] && |x| <= |Extn(u)| && x == Extn(u)[..|x|]
    ensures Caps(Join(b, x))
  {
    var s, d := Join(b, x), FirstDot(u);
    assert Upper1(DOT) == Some([DOT]);
    hide Upper1, FirstDot;
    forall i | 0 <= i < |s| ensures Upper1(s[i]) == Some([s[i]]) {
      if i < |b| {
        assert s[i] == b[i] == u[i];
      } else if i > |b| {
        assert s[i] == x[i - |b| - 1] == u[d + 1 + (i - |b| - 1)];
      } else {
        assert s[i] == DOT;
      }
    }
  }

  lemma CanonicalPads(name: seq<byte>)
    requires Canonical(name)
    ensures Pad83(name) == Some(Columns(Base(name), Extn(name)))
    ensures Pad83(name).value[0] == name[0] != DOT
  {
    CapsUpper(name);
  }

  // ---- little-endian words -----------------------------------------------------------------------

  function U16(s: seq<byte>, o: nat): int
    requires o + 2 <= |s|
  {
    s[o] + 256 * (s[o + 1] as int)
  }

  function P16(v: int): (r: seq<byte>)
    requires 0 <= v < 65536
    ensures |r| == 2 && U16(r, 0) == v
  {
    [v % 256, v / 256]
  }

  // ---- directory entries -------------------------------------------------------------------------

  const ENTRY := 32

  /** dirent: name, attribute, cluster and size over the old entry, or over a fresh one with the given time stamp. */
  function Dirent(name: seq<byte>, attr: byte, clus: int, size: nat, raw: seq<byte>, stamp: seq<byte>): (e: seq<byte>)
    requires |name| == 11 && 0 <= clus < 65536 && size < 0x1_0000_0000 && (raw == [] || |raw| == ENTRY) && |stamp| == 4
    ensures |e| == ENTRY && e[..11] == name && e[11] == attr && U16(e, 26) == clus && G4(e, 28) == size
    ensures e[12..26] == if raw == [] then Zeros(10) + stamp else raw[12..26]
  {
    var mid := if raw == [] then Zeros(10) + stamp else raw[12..26];
    var e := name + [attr] + mid + P16(clus) + P4(size);
    G4P4(size, name + [attr] + mid + P16(clus), []);
    assert e == name + [attr] + mid + P16(clus) + P4(size) + [];
    assert e[26] == P16(clus)[0] && e[27] == P16(clus)[1];
    e
  }
}
