/** newc archives: the writer in scripts/rpm_header.py and the reader in scripts/wcpu_repack.py. */
module Cpio {
  import opened Wire
  import opened Bytes

  const SLASH: byte := 47
  const DOT: byte := 46
  const TRAILER: seq<byte> := [84, 82, 65, 73, 76, 69, 82, 33, 33, 33]
  const MAGIC: seq<byte> := [48, 55, 48, 55, 48, 49]
  const MAGIC_CRC: seq<byte> := [48, 55, 48, 55, 48, 50]
  const HDR := 110

  // ---- hexadecimal -------------------------------------------------------------------------------

  function Digit(d: int): byte
    requires 0 <= d < 16
  {
    if d < 10 then 48 + d else 87 + d
  }

  function Undigit(b: byte): Option<int> {
    if 48 <= b <= 57 then Some(b - 48) else if 97 <= b <= 102 then Some(b - 87) else if 65 <= b <= 70 then Some(b - 55) else None
  }

  /** Either case reads back. */
  lemma DigitRead(d: int)
    requires 0 <= d < 16
    ensures Undigit(Digit(d)) == Some(d) && (d >= 10 ==> 97 <= Digit(d) <= 102 && Undigit(Digit(d) - 32) == Some(d))
  {
  }

  /** The last n hexadecimal digits of v. */
  function Hex(v: nat, n: nat): (r: seq<byte>)
    ensures |r| == n
  {
    if n == 0 then [] else Hex(v / 16, n - 1) + [Digit(v % 16)]
  }

  /** int(s, 16), for digits only. */
  function Unhex(s: seq<byte>): Option<int> {
    if s == [] then None
    else if |s| == 1 then Undigit(s[0])
    else
      var h, l := Unhex(s[..|s| - 1]), Undigit(s[|s| - 1]);
      if h.Some? && l.Some? then Some(16 * h.value + l.value) else None
  }

  function Pow16(n: nat): nat { if n == 0 then 1 else 16 * Pow16(n - 1) }

  lemma {:induction false} HexRoundTrip(v: nat, n: nat)
    requires n > 0 && v < Pow16(n)
    ensures Unhex(Hex(v, n)) == Some(v)
    decreases n
  {
    var s := Hex(v, n);
    assert s[..n - 1] == Hex(v / 16, n - 1) && s[n - 1] == Digit(v % 16);
    if n > 1 {
      HexRoundTrip(v / 16, n - 1);
    } else {
      assert Pow16(0) == 1;
    }
  }

  lemma Pow16Of8()
    ensures Pow16(8) == 0x1_0000_0000
  {
  }

  lemma Hex8(v: u32)
    ensures Unhex(Hex(v, 8)) == Some(v)
  {
    Pow16Of8();
    HexRoundTrip(v, 8);
  }

  // ---- paths -------------------------------------------------------------------------------------

  predicate Ascii(s: seq<byte>) { forall i :: 0 <= i < |s| ==> s[i] < 128 }

  /** str.encode() of a latin-1 string. */
  function Utf8(s: seq<byte>): seq<byte> {
    if s == [] then []
    else (if s[0] < 128 then [s[0]] else [0xC0 + s[0] / 64, 0x80 + s[0] % 64]) + Utf8(s[1..])
  }

  /** lstrip of a set of characters. */
  function Lstrip(s: seq<byte>, dots: bool): seq<byte> {
    if s != [] && (s[0] == SLASH || (dots && s[0] == DOT)) then Lstrip(s[1..], dots) else s
  }

  /** The name the writer stores, and the path the reader makes of it. */
  function Stored(path: seq<byte>): seq<byte> { Utf8(Lstrip(path, false)) }

  function PathOf(name: seq<byte>): seq<byte> { [SLASH] + Lstrip(name, true) }

  /** An absolute ASCII path that does not go on with a dot or another slash. */
  predicate PlainPath(path: seq<byte>) {
    && |path| > 0 && path[0] == SLASH && Ascii(path)
    && (|path| > 1 ==> path[1] != SLASH && path[1] != DOT)
  }

  lemma {:induction false} Utf8Length(s: seq<byte>)
    ensures |Utf8(s)| >= |s|
    ensures |Utf8(s)| == |s| ==> Ascii(s)
    ensures Ascii(s) ==> Utf8(s) == s
  {
    if s != [] {
      Utf8Length(s[1..]);
      assert s == [s[0]] + s[1..];
    }
  }

  lemma {:induction false} LstripFront(s: seq<byte>, dots: bool)
    ensures var t := Lstrip(s, dots); t != [] ==> t[0] != SLASH && !(dots && t[0] == DOT)
    ensures |Lstrip(s, dots)| <= |s|
  {
    if s != [] && (s[0] == SLASH || (dots && s[0] == DOT)) {
      LstripFront(s[1..], dots);
    }
  }

  lemma Utf8Front(s: seq<byte>)
    ensures s != [] ==> Utf8(s) != [] && (s[0] < 128 ==> Utf8(s)[0] == s[0]) && (s[0] >= 128 ==> Utf8(s)[0] >= 128)
  {
  }

  /** A path survives writing and reading exactly when it is plain. */
  lemma PathRoundTrip(path: seq<byte>)
    ensures PathOf(Stored(path)) == path <==> PlainPath(path)
  {
    hide Utf8;
    var name, back := Stored(path), PathOf(Stored(path));
    LstripFront(name, true);
    if back == path {
      assert path[0] == SLASH && path[1..] == Lstrip(name, true);
      var x := path[1..];
      assert |path| > 1 ==> path[1] == x[0];
      assert Lstrip(path, false) == Lstrip(x, false) == x;
      Utf8Front(x);
      Utf8Length(x);
      assert x != [] ==> x[0] != SLASH && x[0] != DOT && name[0] != SLASH && name[0] != DOT;
      assert Lstrip(name, true) == name;
      assert Ascii(path);
    }
    if PlainPath(path) {
      var x := path[1..];
      assert Ascii(x);
      Utf8Length(x);
      assert Lstrip(path, false) == Lstrip(x, false) == x;
      assert path == [SLASH] + x;
    }
  }

  // ---- the archive -------------------------------------------------------------------------------

  datatype File = File(path: seq<byte>, mode: u32, body: seq<byte>)

  /** How many zeros there are up to a multiple of four. */
  function Gap4(n: nat): (g: nat)
    ensures (n + g) % 4 == 0
  {
    (4 - n % 4) % 4
  }

  function Pad4(s: seq<byte>): (r: seq<byte>)
    ensures |r| == |s| + Gap4(|s|) && |r| % 4 == 0
  {
    s + Zeros(Gap4(|s|))
  }

  lemma Sum4(a: nat, b: nat)
    requires a % 4 == 0
    ensures Gap4(a + b) == Gap4(b) && (b % 4 == 0 ==> (a + b) % 4 == 0)
  {
  }

  /** The thirteen fields of a newc header; readers take either magic, the writer uses the one without checksums. */
  function Header(crc: bool, ino: u32, mode: u32, size: u32, name: u32): (r: seq<byte>)
    ensures |r| == HDR
  {
    (if crc then MAGIC_CRC else MAGIC) + Hex(ino, 8) + Hex(mode, 8) + Hex(0, 8) + Hex(0, 8) + Hex(1, 8) + Hex(0, 8) + Hex(size, 8)
    + Hex(0, 8) + Hex(0, 8) + Hex(0, 8) + Hex(0, 8) + Hex(name, 8) + Hex(0, 8)
  }

  predicate Encodable(f: File) { |Stored(f.path)| + 1 < 0x1_0000_0000 && |f.body| < 0x1_0000_0000 }

  /** Header, name and padding. */
  function Front(crc: bool, ino: u32, name: seq<byte>, mode: u32, size: u32): (r: seq<byte>)
    requires |name| + 1 < 0x1_0000_0000
    ensures |r| % 4 == 0
  {
    Pad4(Header(crc, ino, mode, size, |name| + 1) + name + [0])
  }

  function Member(crc: bool, ino: u32, f: File): (r: seq<byte>)
    requires Encodable(f)
    ensures |r| % 4 == 0
  {
    var a, b := Front(crc, ino, Stored(f.path), f.mode, |f.body|), Pad4(f.body);
    Sum4(|a|, |b|);
    a + b
  }

  const LAST := File(TRAILER, 0, [])

  predicate AllEncodable(fs: seq<File>, ino: int) {
    0 <= ino && ino + |fs| < 0x1_0000_0000 && forall i :: 0 <= i < |fs| ==> Encodable(fs[i])
  }

  /** The members from number ino on, then the trailer. */
  function Members(fs: seq<File>, ino: int): (r: seq<byte>)
    requires AllEncodable(fs, ino)
    ensures |r| % 4 == 0
  {
    if fs == [] then Trailer(ino)
    else
      var a, b := Member(false, ino, fs[0]), Members(fs[1..], ino + 1);
      Sum4(|a|, |b|);
      a + b
  }

  function Trailer(ino: u32): (r: seq<byte>)
    ensures |r| % 4 == 0
  {
    Front(false, ino, TRAILER, 0, 0)
  }

  /** _cpio: members numbered from 1, each part padded to four bytes of the output so far. */
  method WriteCpio(fs: seq<File>) returns (out: seq<byte>)
    requires AllEncodable(fs, 1)
    ensures out == Members(fs, 1)
  {
    hide Encodable, Stored, Member, Trailer;
    out := [];
    var i := 0;
    while i < |fs|
      invariant 0 <= i <= |fs| && |out| % 4 == 0
      invariant AllEncodable(fs[i..], 1 + i) && out + Members(fs[i..], 1 + i) == Members(fs, 1)
    {
      var m := WriteMember(out, 1 + i, fs[i]);
      assert fs[i..][0] == fs[i] && fs[i..][1..] == fs[i + 1..];
      assert Members(fs[i..], 1 + i) == Member(false, 1 + i, fs[i]) + Members(fs[i + 1..], 1 + (i + 1));
      assert out + (Member(false, 1 + i, fs[i]) + Members(fs[i + 1..], 1 + (i + 1))) == m + Members(fs[i + 1..], 1 + (i + 1));
      out, i := m, i + 1;
    }
    assert fs[i..] == [];
    out := out + Trailer(1 + i);
  }

  method WriteMember(out: seq<byte>, ino: u32, f: File) returns (r: seq<byte>)
    requires |out| % 4 == 0 && Encodable(f)
    ensures r == out + Member(false, ino, f) && |r| % 4 == 0
  {
    hide Header, Stored, Gap4;
    var name := Stored(f.path) + [0];
    var front := Header(false, ino, f.mode, |f.body|, |name|) + name;
    r := out + front;
    Sum4(|out|, |front|);
    r := r + Zeros(Gap4(|r|));
    assert r == out + Front(false, ino, Stored(f.path), f.mode, |f.body|);
    Sum4(|r|, |f.body|);
    ghost var r1 := r;
    r := r + f.body;
    r := r + Zeros(Gap4(|r|));
    assert r == r1 + Pad4(f.body);
    Sum4(|r1|, |Pad4(f.body)|);
  }

  // ---- the reader --------------------------------------------------------------------------------

  /** An entry as cpio() returns it, with the size its header gave. */
  datatype Entry = Entry(path: seq<byte>, mode: int, ino: int, body: seq<byte>, size: int)

  function PySlice(s: seq<byte>, a: nat, b: int): seq<byte> {
    if a >= b || a >= |s| then [] else s[a..if b < |s| then b else |s|]
  }

  function Up4(n: nat): nat { n + Gap4(n) }

  datatype Fields = Fields(ino: int, mode: int, size: int, name: int)

  function ReadFields(h: seq<byte>): Option<Fields> {
    var ino, mode, size, name :=
      Unhex(PySlice(h, 6, 14)), Unhex(PySlice(h, 14, 22)), Unhex(PySlice(h, 54, 62)), Unhex(PySlice(h, 94, 102));
    if ino.Some? && mode.Some? && size.Some? && name.Some? then Some(Fields(ino.value, mode.value, size.value, name.value))
    else None
  }

  lemma {:induction false} UnhexNat(s: seq<byte>)
    ensures Unhex(s).Some? ==> Unhex(s).value >= 0
  {
    if |s| > 1 {
      UnhexNat(s[..|s| - 1]);
    }
  }

  /** One member at p: its entry and where the next one starts; Done at the trailer or at anything that is no member. */
  datatype Next = Done | Bad | More(e: Entry, p: nat)

  function ReadMember(c: seq<byte>, p: nat): (n: Next)
    ensures n.More? ==> n.p > p && n.p - p >= HDR && p < |c|
  {
    if PySlice(c, p, p + 6) != MAGIC && PySlice(c, p, p + 6) != MAGIC_CRC then Done
    else
      var f := ReadFields(PySlice(c, p, p + HDR));
      if f.None? then Bad
      else
        var h := PySlice(c, p, p + HDR);
        UnhexNat(PySlice(h, 54, 62));
        UnhexNat(PySlice(h, 94, 102));
        var name := PySlice(c, p + HDR, p + HDR + f.value.name - 1);
        var q := Up4(p + HDR + f.value.name);
        if name == TRAILER then Done
        else More(Entry(PathOf(name), f.value.mode, f.value.ino, PySlice(c, q, q + f.value.size), f.value.size), Up4(q + f.value.size))
  }

  function ReadAll(c: seq<byte>, p: nat): Option<seq<Entry>>
    decreases if p < |c| then |c| - p else 0
  {
    match ReadMember(c, p)
    case Done => Some([])
    case Bad => None
    case More(e, q) => Prepended([e], ReadAll(c, q))
  }

  function Prepended(a: seq<Entry>, b: Option<seq<Entry>>): Option<seq<Entry>> {
    if b.None? then None else Some(a + b.value)
  }

  lemma PrependNone(b: Option<seq<Entry>>)
    ensures Prepended([], b) == b
  {
    assert b.Some? ==> [] + b.value == b.value;
  }

  lemma PrependTwo(a: seq<Entry>, e: Entry, b: Option<seq<Entry>>)
    ensures Prepended(a, Prepended([e], b)) == Prepended(a + [e], b)
  {
    assert b.Some? ==> a + ([e] + b.value) == (a + [e]) + b.value;
  }

  /** The body of the last member of each number whose size is not zero. */
  function LastBodies(es: seq<Entry>): map<int, seq<byte>> {
    if es == [] then map[]
    else
      var e, m := es[|es| - 1], LastBodies(es[..|es| - 1]);
      if e.size != 0 then m[e.ino := e.body] else m
  }

  predicate Regular(mode: int) { mode / 4096 % 16 == 8 }

  /** A hard link's data is on one member only. */
  function Resolve(e: Entry, last: map<int, seq<byte>>): Entry {
    if e.body == [] && Regular(e.mode) && e.ino in last then e.(body := last[e.ino]) else e
  }

  function ResolveAll(es: seq<Entry>, last: map<int, seq<byte>>): (r: seq<Entry>)
    ensures |r| == |es|
  {
    seq(|es|, i requires 0 <= i < |es| => Resolve(es[i], last))
  }

  function Read(c: seq<byte>): Option<seq<Entry>> {
    var es := ReadAll(c, 0);
    if es.None? then None else Some(ResolveAll(es.value, LastBodies(es.value)))
  }

  /** cpio(): the cursor loop, then the pass that fills in hard links. */
  method ReadCpio(c: seq<byte>) returns (r: Option<seq<Entry>>)
    ensures r == Read(c)
  {
    hide ReadMember, Resolve, PySlice;
    var out, p, last := [], 0, map[];
    PrependNone(ReadAll(c, 0));
    while true
      invariant last == LastBodies(out)
      invariant ReadAll(c, 0) == Prepended(out, ReadAll(c, p))
      decreases if p < |c| then |c| - p else 0
    {
      var next := NextMember(c, p);
      match next {
        case Done => break;
        case Bad => return None;
        case More(e, q) =>
          PrependTwo(out, e, ReadAll(c, q));
          assert (out + [e])[..|out|] == out;
          out := out + [e];
          if e.size != 0 {
            last := last[e.ino := e.body];
          }
          p := q;
      }
    }
    assert out + [] == out;
    var fixed := Fix(out, last);
    return Some(fixed);
  }

  /** One turn of the cursor loop: magic, header, name, body. */
  method NextMember(c: seq<byte>, p: nat) returns (n: Next)
    ensures n == ReadMember(c, p)
  {
    hide PySlice, Unhex;
    var magic := PySlice(c, p, p + 6);
    if magic != [48, 55, 48, 55, 48, 49] && magic != [48, 55, 48, 55, 48, 50] {
      return Done;
    }
    var h := PySlice(c, p, p + 110);
    var ino, mode, fs, ns := Unhex(PySlice(h, 6, 14)), Unhex(PySlice(h, 14, 22)), Unhex(PySlice(h, 54, 62)), Unhex(PySlice(h, 94, 102));
    if ino.None? || mode.None? || fs.None? || ns.None? {
      return Bad;
    }
    UnhexNat(PySlice(h, 54, 62));
    UnhexNat(PySlice(h, 94, 102));
    var name := PySlice(c, p + 110, p + 110 + ns.value - 1);
    var q := (p + 110 + ns.value + 3) / 4 * 4;
    Aligned(p + 110 + ns.value);
    if name == TRAILER {
      return Done;
    }
    Aligned(q + fs.value);
    n := More(Entry(PathOf(name), mode.value, ino.value, PySlice(c, q, q + fs.value), fs.value), (q + fs.value + 3) / 4 * 4);
  }

  lemma Aligned(n: nat)
    ensures (n + 3) / 4 * 4 == Up4(n)
  {
  }

  /** The second pass: the bodies of hard links. */
  method Fix(out: seq<Entry>, last: map<int, seq<byte>>) returns (fixed: seq<Entry>)
    ensures fixed == ResolveAll(out, last)
  {
    fixed := [];
    var i := 0;
    while i < |out|
      invariant 0 <= i <= |out| && fixed == ResolveAll(out, last)[..i]
    {
      var e := out[i];
      if |e.body| == 0 && e.mode / 4096 % 16 == 8 && e.ino in last {
        e := e.(body := last[e.ino]);
      }
      fixed := fixed + [e];
      i := i + 1;
    }
    assert ResolveAll(out, last)[..i] == ResolveAll(out, last);
  }

  // ---- the round trip ----------------------------------------------------------------------------

  lemma SliceOfLaid(c: seq<byte>, p: nat, b: seq<byte>)
    requires Laid(c, p, b)
    ensures PySlice(c, p, p + |b|) == b
  {
  }

  lemma HeaderFields(crc: bool, ino: u32, mode: u32, size: u32, name: u32)
    ensures var h := Header(crc, ino, mode, size, name);
      ReadFields(h) == Some(Fields(ino, mode, size, name)) && PySlice(h, 0, 6) == if crc then MAGIC_CRC else MAGIC
  {
    hide Hex, Unhex;
    var h, z, o := Header(crc, ino, mode, size, name), Hex(0, 8), Hex(1, 8);
    var magic := if crc then MAGIC_CRC else MAGIC;
    var a := magic + Hex(ino, 8) + Hex(mode, 8) + z + z + o + z;
    assert a[6..14] == Hex(ino, 8) && a[14..22] == Hex(mode, 8) && |a| == 54;
    var b := a + Hex(size, 8) + z + z + z + z;
    assert b[..54] == a && b[54..62] == Hex(size, 8) && |b| == 94;
    assert h == b + Hex(name, 8) + z;
    assert h[6..14] == a[6..14] && h[14..22] == a[14..22] && h[54..62] == b[54..62] && h[94..102] == Hex(name, 8);
    assert h[0..6] == magic;
    Hex8(ino);
    Hex8(mode);
    Hex8(size);
    Hex8(name);
  }

  /** The front of a member is read as it was written. */
  lemma FrontRead(c: seq<byte>, p: nat, crc: bool, ino: u32, name: seq<byte>, mode: u32, size: u32)
    requires p % 4 == 0 && |name| + 1 < 0x1_0000_0000 && Laid(c, p, Front(crc, ino, name, mode, size))
    ensures PySlice(c, p, p + 6) == (if crc then MAGIC_CRC else MAGIC) && p + HDR <= |c|
    ensures ReadFields(PySlice(c, p, p + HDR)) == Some(Fields(ino, mode, size, |name| + 1))
    ensures PySlice(c, p + HDR, p + HDR + |name|) == name
    ensures Up4(p + HDR + (|name| + 1)) == p + |Front(crc, ino, name, mode, size)|
  {
    hide Header, ReadFields;
    var h := Header(crc, ino, mode, size, |name| + 1);
    var z := [0] + Zeros(Gap4(HDR + |name| + 1));
    assert Front(crc, ino, name, mode, size) == h + (name + z);
    LaidSplit(c, p, h, name + z);
    LaidSplit(c, p + HDR, name, z);
    SliceOfLaid(c, p, h);
    SliceOfLaid(c, p + HDR, name);
    HeaderFields(crc, ino, mode, size, |name| + 1);
    assert c[p..p + 6] == h[0..6];
    Sum4(p, HDR + |name| + 1);
  }

  lemma MemberRead(c: seq<byte>, p: nat, crc: bool, ino: u32, f: File)
    requires p % 4 == 0 && Encodable(f) && Stored(f.path) != TRAILER && Laid(c, p, Member(crc, ino, f))
    ensures ReadMember(c, p) == More(Entry(PathOf(Stored(f.path)), f.mode, ino, f.body, |f.body|), p + |Member(crc, ino, f)|)
  {
    hide Front, ReadFields, PathOf, Stored, Gap4, Unhex, PySlice, Laid;
    var name, front, z := Stored(f.path), Front(crc, ino, Stored(f.path), f.mode, |f.body|), Zeros(Gap4(|f.body|));
    assert Member(crc, ino, f) == front + (f.body + z);
    LaidSplit(c, p, front, f.body + z);
    LaidSplit(c, p + |front|, f.body, z);
    FrontRead(c, p, crc, ino, name, f.mode, |f.body|);
    SliceOfLaid(c, p + |front|, f.body);
    Sum4(p, |front|);
    Sum4(p + |front|, |f.body|);
  }

  /** What reading back gives for the files from number ino on. */
  function Expected(fs: seq<File>, ino: nat): (r: seq<Entry>)
    ensures |r| == |fs|
  {
    seq(|fs|, i requires 0 <= i < |fs| => Entry(PathOf(Stored(fs[i].path)), fs[i].mode, ino + i, fs[i].body, |fs[i].body|))
  }

  lemma ExpectedCons(fs: seq<File>, ino: nat)
    requires fs != []
    ensures Expected(fs, ino) ==
            [Entry(PathOf(Stored(fs[0].path)), fs[0].mode, ino, fs[0].body, |fs[0].body|)] + Expected(fs[1..], ino + 1)
  {
    hide Stored, PathOf;
  }

  predicate NoTrailer(fs: seq<File>) { forall i :: 0 <= i < |fs| ==> Stored(fs[i].path) != TRAILER }

  lemma {:induction false} MembersRead(c: seq<byte>, p: nat, fs: seq<File>, ino: nat)
    requires p % 4 == 0 && AllEncodable(fs, ino) && NoTrailer(fs) && Laid(c, p, Members(fs, ino))
    ensures ReadAll(c, p) == Some(Expected(fs, ino))
    decreases |fs|
  {
    hide Encodable, Stored, PathOf, Member, ReadMember;
    if fs == [] {
      TrailerRead(c, p, ino);
    } else {
      var m := Member(false, ino, fs[0]);
      LaidSplit(c, p, m, Members(fs[1..], ino + 1));
      MemberRead(c, p, false, ino, fs[0]);
      Sum4(p, |m|);
      MembersRead(c, p + |m|, fs[1..], ino + 1);
      ExpectedCons(fs, ino);
    }
  }

  lemma TrailerRead(c: seq<byte>, p: nat, ino: u32)
    requires p % 4 == 0 && Laid(c, p, Trailer(ino))
    ensures ReadMember(c, p) == Done
  {
    hide Front, ReadFields;
    FrontRead(c, p, false, ino, TRAILER, 0, 0);
  }

  lemma {:induction false} LastAre(es: seq<Entry>, n: int)
    requires n in LastBodies(es)
    ensures exists i :: 0 <= i < |es| && es[i].ino == n && es[i].size != 0
  {
    var e, front := es[|es| - 1], es[..|es| - 1];
    if e.size != 0 && e.ino == n {
      assert es[|es| - 1].ino == n;
    } else {
      LastAre(front, n);
      var i :| 0 <= i < |front| && front[i].ino == n && front[i].size != 0;
      assert es[i] == front[i];
    }
  }

  /** A member of any archive: the writer above numbers its members and leaves out checksums, others need not. */
  datatype Part = Part(f: File, ino: u32, crc: bool)

  predicate AllParts(ps: seq<Part>) {
    forall i :: 0 <= i < |ps| ==> Encodable(ps[i].f) && Stored(ps[i].f.path) != TRAILER
  }

  /** The members in order, then a trailer. */
  function Archive(ps: seq<Part>, end: u32): (r: seq<byte>)
    requires AllParts(ps)
    ensures |r| % 4 == 0
  {
    if ps == [] then Trailer(end)
    else
      var a, b := Member(ps[0].crc, ps[0].ino, ps[0].f), Archive(ps[1..], end);
      Sum4(|a|, |b|);
      a + b
  }

  function AsRead(p: Part): Entry { Entry(PathOf(Stored(p.f.path)), p.f.mode, p.ino, p.f.body, |p.f.body|) }

  function AllAsRead(ps: seq<Part>): (r: seq<Entry>)
    ensures |r| == |ps|
  {
    seq(|ps|, i requires 0 <= i < |ps| => AsRead(ps[i]))
  }

  lemma {:induction false} PartsRead(c: seq<byte>, p: nat, ps: seq<Part>, end: u32)
    requires p % 4 == 0 && AllParts(ps) && Laid(c, p, Archive(ps, end))
    ensures ReadAll(c, p) == Some(AllAsRead(ps))
    decreases |ps|
  {
    hide Encodable, Stored, PathOf, Member, ReadMember;
    if ps == [] {
      TrailerRead(c, p, end);
    } else {
      var m := Member(ps[0].crc, ps[0].ino, ps[0].f);
      LaidSplit(c, p, m, Archive(ps[1..], end));
      MemberRead(c, p, ps[0].crc, ps[0].ino, ps[0].f);
      Sum4(p, |m|);
      PartsRead(c, p + |m|, ps[1..], end);
      assert AllAsRead(ps) == [AsRead(ps[0])] + AllAsRead(ps[1..]);
    }
  }

  /** The j-th member is the last one of number n that has a body. */
  predicate LastOf(ps: seq<Part>, n: int, j: int) {
    && 0 <= j < |ps| && ps[j].ino == n && ps[j].f.body != []
    && forall i :: j < i < |ps| && ps[i].ino == n ==> ps[i].f.body == []
  }

  lemma {:induction false} LastBody(ps: seq<Part>, n: int, j: int)
    requires LastOf(ps, n, j)
    ensures n in LastBodies(AllAsRead(ps)) && LastBodies(AllAsRead(ps))[n] == ps[j].f.body
    decreases |ps|
  {
    hide PathOf, Stored;
    var k := |ps| - 1;
    assert AllAsRead(ps)[..k] == AllAsRead(ps[..k]);
    if j < k {
      assert ps[..k][j] == ps[j];
      LastBody(ps[..k], n, j);
    }
  }

  /** What the k-th member comes back as: a regular one without a body gets that of the last member of its number that has
      one; every other one is as it was stored. */
  ghost predicate Linked(ps: seq<Part>, k: int, e: Entry)
    requires 0 <= k < |ps|
  {
    var f, n := ps[k].f, ps[k].ino;
    && e == AsRead(ps[k]).(body := e.body)
    && (f.body == [] && f.mode / 4096 % 16 == 8 ==> forall j :: LastOf(ps, n, j) ==> e.body == ps[j].f.body)
    && (f.body != [] || f.mode / 4096 % 16 != 8 || (forall j :: !LastOf(ps, n, j)) ==> e.body == f.body)
  }

  lemma OneLinked(ps: seq<Part>, k: int)
    requires 0 <= k < |ps|
    ensures Linked(ps, k, Resolve(AsRead(ps[k]), LastBodies(AllAsRead(ps))))
  {
    hide PathOf, Stored, LastOf, LastBodies;
    var last := LastBodies(AllAsRead(ps));
    forall j | LastOf(ps, ps[k].ino, j) ensures 0 <= j < |ps| && ps[k].ino in last && last[ps[k].ino] == ps[j].f.body {
      LastBody(ps, ps[k].ino, j);
      LastInside(ps, ps[k].ino, j);
    }
    if ps[k].ino in last {
      LastExists(ps, ps[k].ino);
    }
  }

  lemma LastInside(ps: seq<Part>, n: int, j: int)
    requires LastOf(ps, n, j)
    ensures 0 <= j < |ps|
  {
  }

  /** Hard links, read from any archive, whatever follows it. */
  lemma LinksResolved(ps: seq<Part>, end: u32, tail: seq<byte>)
    requires AllParts(ps)
    ensures var r := Read(Archive(ps, end) + tail);
      r.Some? && |r.value| == |ps| && forall k :: 0 <= k < |ps| ==> Linked(ps, k, r.value[k])
  {
    hide Encodable, Stored, PathOf, ReadAll, Archive, Linked, LastBodies, Resolve;
    var a, c := Archive(ps, end), Archive(ps, end) + tail;
    assert c[0..0 + |a|] == a;
    PartsRead(c, 0, ps, end);
    forall k | 0 <= k < |ps| ensures Linked(ps, k, ResolveAll(AllAsRead(ps), LastBodies(AllAsRead(ps)))[k]) {
      OneLinked(ps, k);
    }
  }

  lemma {:induction false} LastExists(ps: seq<Part>, n: int)
    requires n in LastBodies(AllAsRead(ps))
    ensures exists j :: LastOf(ps, n, j)
    decreases |ps|
  {
    hide PathOf, Stored;
    var k := |ps| - 1;
    assert AllAsRead(ps)[..k] == AllAsRead(ps[..k]);
    if ps[k].ino == n && ps[k].f.body != [] {
      assert LastOf(ps, n, k);
    } else {
      LastExists(ps[..k], n);
      var j :| LastOf(ps[..k], n, j);
      assert ps[..k][j] == ps[j];
      assert LastOf(ps, n, j);
    }
  }

  /** Distinct numbers leave nothing for the hard-link pass to do. */
  lemma NoLinks(fs: seq<File>, ino: nat)
    ensures var es := Expected(fs, ino); ResolveAll(es, LastBodies(es)) == es
  {
    hide PathOf, Stored;
    var es := Expected(fs, ino);
    var last := LastBodies(es);
    forall i | 0 <= i < |es| ensures Resolve(es[i], last) == es[i] {
      if es[i].ino in last {
        LastAre(es, es[i].ino);
      }
    }
  }

  /** Every archive reads back as its files, in order: modes and bodies unchanged, and each path as the reader makes it
      from the stored name. */
  lemma {:induction false} ArchiveRoundTrip(fs: seq<File>)
    requires AllEncodable(fs, 1) && NoTrailer(fs)
    ensures Read(Members(fs, 1)) == Some(Expected(fs, 1))
  {
    hide Encodable, Stored, PathOf, ReadAll, Members, Expected, ResolveAll;
    var c := Members(fs, 1);
    assert c[0..0 + |c|] == c;
    MembersRead(c, 0, fs, 1);
    NoLinks(fs, 1);
  }

  /** The paths come back as they were exactly when all of them are plain. */
  lemma {:induction false} PathsRoundTrip(fs: seq<File>)
    ensures (forall i :: 0 <= i < |fs| ==> Expected(fs, 1)[i].path == fs[i].path) <==>
            (forall i :: 0 <= i < |fs| ==> PlainPath(fs[i].path))
  {
    hide Stored, PathOf, PlainPath;
    forall i | 0 <= i < |fs| ensures Expected(fs, 1)[i].path == fs[i].path <==> PlainPath(fs[i].path) {
      PathRoundTrip(fs[i].path);
    }
  }

  /** A file called TRAILER!!! hides itself and every file after it. */
  lemma {:induction false} TrailerHides(fs: seq<File>, k: nat, ino: nat, c: seq<byte>, p: nat)
    requires k < |fs| && AllEncodable(fs, ino) && NoTrailer(fs[..k]) && Stored(fs[k].path) == TRAILER
    requires p % 4 == 0 && Laid(c, p, Members(fs, ino))
    ensures ReadAll(c, p) == Some(Expected(fs[..k], ino))
    decreases k
  {
    hide Encodable, Stored, PathOf, ReadMember, Member, Laid, Gap4;
    var m := Member(false, ino, fs[0]);
    LaidSplit(c, p, m, Members(fs[1..], ino + 1));
    if k == 0 {
      HiddenMember(c, p, ino, fs[0]);
      assert Expected(fs[..0], ino) == [];
    } else {
      assert fs[..k][0] == fs[0];
      MemberRead(c, p, false, ino, fs[0]);
      Sum4(p, |m|);
      assert fs[1..][..k - 1] == fs[..k][1..];
      TrailerHides(fs[1..], k - 1, ino + 1, c, p + |m|);
      ExpectedCons(fs[..k], ino);
    }
  }

  lemma HiddenMember(c: seq<byte>, p: nat, ino: u32, f: File)
    requires p % 4 == 0 && Encodable(f) && Stored(f.path) == TRAILER && Laid(c, p, Member(false, ino, f))
    ensures ReadMember(c, p) == Done
  {
    hide Front, ReadFields, Stored;
    var front := Front(false, ino, TRAILER, f.mode, |f.body|);
    LaidSplit(c, p, front, Pad4(f.body));
    FrontRead(c, p, false, ino, TRAILER, f.mode, |f.body|);
  }
}
