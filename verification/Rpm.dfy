/** RPM headers: the writer and the reader in scripts/rpm_header.py. */
module Rpm {
  import opened Wire
  import opened Bytes
  import Cpio

  const HDR_MAGIC: seq<byte> := [0x8E, 0xAD, 0xE8, 0x01]
  const LEAD_MAGIC: seq<byte> := [0xED, 0xAB, 0xEE, 0xDB]
  const LEAD := 96
  const T_INT16 := 3
  const T_INT32 := 4
  const T_STRING := 6
  const T_BIN := 7
  const T_STRING_ARRAY := 8
  const T_I18N := 9
  const NAME := 1000
  const VERSION := 1001
  const RELEASE := 1002

  // ---- values ------------------------------------------------------------------------------------

  datatype Value = Str(s: seq<byte>) | Strs(ss: seq<seq<byte>>) | Ints(ns: seq<int>) | Bin(b: seq<byte>) | Skipped

  datatype Entry = Entry(tag: u32, typ: u32, val: Value)

  predicate NulFree(s: seq<byte>) { forall i :: 0 <= i < |s| ==> s[i] != 0 }

  predicate IsStrs(typ: int) { typ == T_STRING_ARRAY || typ == T_I18N }

  /** A value of the entry's type: NUL-free strings, integers in range. */
  predicate Typed(e: Entry) {
    if e.typ == T_STRING then e.val.Str? && NulFree(e.val.s)
    else if IsStrs(e.typ) then e.val.Strs? && forall i :: 0 <= i < |e.val.ss| ==> NulFree(e.val.ss[i])
    else if e.typ == T_INT32 then e.val.Ints? && forall i :: 0 <= i < |e.val.ns| ==> -0x8000_0000 <= e.val.ns[i] < 0x8000_0000
    else if e.typ == T_INT16 then e.val.Ints? && forall i :: 0 <= i < |e.val.ns| ==> 0 <= e.val.ns[i] < 65536
    else e.typ == T_BIN && e.val.Bin?
  }

  function Strings(ss: seq<seq<byte>>): seq<byte> {
    if ss == [] then [] else ss[0] + [0] + Strings(ss[1..])
  }

  function I32(v: int): (r: seq<byte>)
    requires -0x8000_0000 <= v < 0x8000_0000
    ensures |r| == 4
  {
    Be4(if v < 0 then v + 0x1_0000_0000 else v)
  }

  function I32s(ns: seq<int>): (r: seq<byte>)
    requires forall i :: 0 <= i < |ns| ==> -0x8000_0000 <= ns[i] < 0x8000_0000
    ensures |r| == 4 * |ns|
  {
    if ns == [] then [] else I32(ns[0]) + I32s(ns[1..])
  }

  function Be16s(ns: seq<int>): (r: seq<byte>)
    requires forall i :: 0 <= i < |ns| ==> 0 <= ns[i] < 65536
    ensures |r| == 2 * |ns|
  {
    if ns == [] then [] else [ns[0] / 256, ns[0] % 256] + Be16s(ns[1..])
  }

  function Blob(e: Entry): seq<byte>
    requires Typed(e)
  {
    match e.val
    case Str(s) => s + [0]
    case Strs(ss) => Strings(ss)
    case Ints(ns) => if e.typ == T_INT32 then I32s(ns) else Be16s(ns)
    case Bin(b) => b
  }

  function Count(e: Entry): nat
    requires Typed(e)
  {
    match e.val
    case Str(_) => 1
    case Strs(ss) => |ss|
    case Ints(ns) => |ns|
    case Bin(b) => |b|
  }

  // ---- the reader's side of a value --------------------------------------------------------------

  /** data.index(0, p, end) */
  function FindNul(data: seq<byte>, p: nat, end: nat): (z: Option<nat>)
    requires end <= |data|
    ensures z.Some? ==> p <= z.value < end
    decreases end - p
  {
    if p >= end then None else if data[p] == 0 then Some(p) else FindNul(data, p + 1, end)
  }

  function ReadStrings(data: seq<byte>, p: nat, end: nat, k: nat): Option<seq<seq<byte>>>
    requires end <= |data|
    decreases k
  {
    if k == 0 then Some([])
    else
      var z := FindNul(data, p, end);
      if z.None? then None
      else
        var rest := ReadStrings(data, z.value + 1, end, k - 1);
        if rest.None? then None else Some([data[p..z.value]] + rest.value)
  }

  function ReadI32s(s: seq<byte>): seq<int>
    requires |s| % 4 == 0
  {
    if s == [] then [] else
      var v := GetBe4(s[..4]);
      [if v >= 0x8000_0000 then v - 0x1_0000_0000 else v] + ReadI32s(s[4..])
  }

  function ReadBe16s(s: seq<byte>): seq<int>
    requires |s| % 2 == 0
  {
    if s == [] then [] else [256 * (s[0] as int) + s[1]] + ReadBe16s(s[2..])
  }

  function ReadValue(data: seq<byte>, typ: int, p: nat, cnt: nat, end: nat): Option<Value>
    requires end <= |data|
  {
    if typ == T_STRING then
      var r := ReadStrings(data, p, end, 1);
      if r.None? || |r.value| != 1 then None else Some(Str(r.value[0]))
    else if IsStrs(typ) then
      var r := ReadStrings(data, p, end, cnt);
      if r.None? then None else Some(Strs(r.value))
    else if typ == T_INT32 then
      if p + 4 * cnt > |data| then None else Some(Ints(ReadI32s(data[p..p + 4 * cnt])))
    else if typ == T_INT16 then
      if p + 2 * cnt > |data| then None else Some(Ints(ReadBe16s(data[p..p + 2 * cnt])))
    else if typ == T_BIN then
      Some(Bin(if p > |data| then [] else data[p..if p + cnt <= |data| then p + cnt else |data|]))
    else Some(Skipped)
  }

  lemma {:induction false} NulAfter(data: seq<byte>, p: nat, end: nat, s: seq<byte>)
    requires end <= |data| && NulFree(s) && Laid(data, p, s + [0]) && p + |s| < end
    ensures FindNul(data, p, end) == Some(p + |s|) && data[p..p + |s|] == s
    decreases |s|
  {
    LaidSplit(data, p, s, [0]);
    assert data[p + |s|] == data[p + |s|..p + |s| + 1][0];
    if s != [] {
      assert data[p] == data[p..p + |s|][0];
      assert s + [0] == [s[0]] + (s[1..] + [0]);
      LaidSplit(data, p, [s[0]], s[1..] + [0]);
      NulAfter(data, p + 1, end, s[1..]);
    }
  }

  lemma {:induction false} StringsRoundTrip(data: seq<byte>, p: nat, end: nat, ss: seq<seq<byte>>)
    requires end <= |data| && Laid(data, p, Strings(ss)) && p + |Strings(ss)| <= end
    requires forall i :: 0 <= i < |ss| ==> NulFree(ss[i])
    ensures ReadStrings(data, p, end, |ss|) == Some(ss)
    decreases |ss|
  {
    if ss != [] {
      LaidSplit(data, p, ss[0] + [0], Strings(ss[1..]));
      NulAfter(data, p, end, ss[0]);
      StringsRoundTrip(data, p + |ss[0]| + 1, end, ss[1..]);
      assert ss == [ss[0]] + ss[1..];
    }
  }

  lemma {:induction false} I32RoundTrip(ns: seq<int>)
    requires forall i :: 0 <= i < |ns| ==> -0x8000_0000 <= ns[i] < 0x8000_0000
    ensures ReadI32s(I32s(ns)) == ns
  {
    hide Be4, GetBe4;
    if ns != [] {
      Be4RoundTrip(if ns[0] < 0 then ns[0] + 0x1_0000_0000 else ns[0]);
      assert I32s(ns)[..4] == I32(ns[0]) && I32s(ns)[4..] == I32s(ns[1..]);
      I32RoundTrip(ns[1..]);
    }
  }

  lemma {:induction false} Be16RoundTrip(ns: seq<int>)
    requires forall i :: 0 <= i < |ns| ==> 0 <= ns[i] < 65536
    ensures ReadBe16s(Be16s(ns)) == ns
  {
    if ns != [] {
      assert Be16s(ns)[2..] == Be16s(ns[1..]);
      Be16RoundTrip(ns[1..]);
    }
  }

  lemma ValueRoundTrip(data: seq<byte>, p: nat, end: nat, e: Entry)
    requires Typed(e) && end <= |data| && Laid(data, p, Blob(e)) && p + |Blob(e)| <= end
    ensures ReadValue(data, e.typ, p, Count(e), end) == Some(e.val)
  {
    hide ReadStrings, FindNul, ReadI32s, ReadBe16s, I32s, Be16s, Strings;
    match e.val
    case Str(s) =>
      assert Strings([s]) == s + [0] by { OneString(s); }
      StringsRoundTrip(data, p, end, [s]);
    case Strs(ss) => StringsRoundTrip(data, p, end, ss);
    case Ints(ns) =>
      if e.typ == T_INT32 {
        I32RoundTrip(ns);
      } else {
        Be16RoundTrip(ns);
      }
    case Bin(b) =>
  }

  lemma OneString(s: seq<byte>)
    ensures Strings([s]) == s + [0]
  {
  }

  // ---- the writer --------------------------------------------------------------------------------

  function Align(typ: int): nat { if typ == T_INT32 then 4 else if typ == T_INT16 then 2 else 1 }

  /** Where a value of this type goes in a store of n bytes. */
  function At(n: nat, typ: int): (o: nat)
    ensures o >= n
  {
    n + (Align(typ) - n % Align(typ)) % Align(typ)
  }

  predicate AllTyped(es: seq<Entry>) { forall i :: 0 <= i < |es| ==> Typed(es[i]) }

  /** The store from its n-th byte on. */
  function Store(es: seq<Entry>, n: nat): seq<byte>
    requires AllTyped(es)
  {
    if es == [] then []
    else
      var o := At(n, es[0].typ);
      Zeros(o - n) + Blob(es[0]) + Store(es[1..], o + |Blob(es[0])|)
  }

  function IndexEntry(e: Entry, o: u32): (r: seq<byte>)
    requires Typed(e) && |Blob(e)| < 0x1_0000_0000
    ensures |r| == 16
  {
    CountFits(e);
    Be4(e.tag) + Be4(e.typ) + Be4(o) + Be4(Count(e))
  }

  function Index(es: seq<Entry>, n: nat): (r: seq<byte>)
    requires AllTyped(es) && n + |Store(es, n)| < 0x1_0000_0000
    ensures |r| == 16 * |es|
  {
    if es == [] then []
    else
      var o := At(n, es[0].typ);
      IndexEntry(es[0], o) + Index(es[1..], o + |Blob(es[0])|)
  }

  lemma CountFits(e: Entry)
    requires Typed(e)
    ensures Count(e) <= |Blob(e)|
  {
    if e.val.Strs? {
      StringsLength(e.val.ss);
    }
  }

  lemma {:induction false} StringsLength(ss: seq<seq<byte>>)
    ensures |ss| <= |Strings(ss)|
  {
    if ss != [] {
      StringsLength(ss[1..]);
    }
  }

  function Insert(e: Entry, s: seq<Entry>): seq<Entry> {
    if s == [] || e.tag <= s[0].tag then [e] + s else [s[0]] + Insert(e, s[1..])
  }

  /** sorted(entries), for distinct tags. */
  function Sort(es: seq<Entry>): seq<Entry> { if es == [] then [] else Insert(es[0], Sort(es[1..])) }

  predicate Distinct(es: seq<Entry>) { forall i, j :: 0 <= i < j < |es| ==> es[i].tag != es[j].tag }

  /** What a header can hold: values of their types, distinct tags, no more than the reader takes. */
  predicate HeaderOk(es: seq<Entry>) {
    && AllTyped(es) && Distinct(es) && |es| <= 10000
    && (SortTyped(es); |Store(Sort(es), 0)| < 0x1_0000_0000)
  }

  function Header(es: seq<Entry>): seq<byte>
    requires HeaderOk(es)
  {
    SortTyped(es);
    var s := Sort(es);
    HDR_MAGIC + Zeros(4) + Be4(|es|) + Be4(|Store(s, 0)|) + (Index(s, 0) + Store(s, 0))
  }

  /** _header: the loop that grows index and store. */
  method WriteHeader(es: seq<Entry>) returns (r: seq<byte>)
    requires HeaderOk(es)
    ensures r == Header(es)
  {
    hide Blob, IndexEntry, Typed, Sort, At;
    var s := Sort(es);
    SortTyped(es);
    var index, store, i := [], [], 0;
    assert s[0..] == s;
    while i < |s|
      invariant 0 <= i <= |s| && AllTyped(s[i..]) && |store| + |Store(s[i..], |store|)| < 0x1_0000_0000
      invariant index + Index(s[i..], |store|) == Index(s, 0) && store + Store(s[i..], |store|) == Store(s, 0)
    {
      var e, o := s[i], At(|store|, s[i].typ);
      ghost var rest, n := s[i + 1..], o + |Blob(e)|;
      assert s[i..][0] == e && s[i..][1..] == rest;
      var pad := store + Zeros(o - |store|);
      assert index + (IndexEntry(e, o) + Index(rest, n)) == (index + IndexEntry(e, o)) + Index(rest, n);
      assert store + (Zeros(o - |store|) + Blob(e) + Store(rest, n)) == (pad + Blob(e)) + Store(rest, n);
      index := index + IndexEntry(e, |pad|);
      store := pad + Blob(e);
      i := i + 1;
    }
    assert s[i..] == [];
    assert index == Index(s, 0) && store == Store(s, 0);
    r := HDR_MAGIC + Zeros(4) + Be4(|es|) + Be4(|store|) + (index + store);
  }

  // ---- the reader --------------------------------------------------------------------------------

  type Tags = map<int, Value>

  /** k index entries at `at`, into m. */
  function ReadTags(data: seq<byte>, at: nat, k: nat, store: nat, end: nat, m: Tags): Option<Tags>
    requires end <= |data|
    decreases k
  {
    if k == 0 then Some(m)
    else if at + 16 > |data| then None
    else
      var tag, typ, o, cnt :=
        GetBe4(data[at..at + 4]), GetBe4(data[at + 4..at + 8]), GetBe4(data[at + 8..at + 12]), GetBe4(data[at + 12..at + 16]);
      if store + o > end then None
      else
        var v := ReadValue(data, typ, store + o, cnt, end);
        if v.None? then None else ReadTags(data, at + 16, k - 1, store, end, m[tag := v.value])
  }

  /** _read_header: the tags and where the header ends. */
  function ReadHeader(data: seq<byte>, off: nat): Option<(Tags, nat)> {
    if |data| < off + 16 || data[off..off + 4] != HDR_MAGIC then None
    else
      var nidx, hsize := GetBe4(data[off + 8..off + 12]), GetBe4(data[off + 12..off + 16]);
      var store := off + 16 + nidx * 16;
      var end := store + hsize;
      if nidx > 10000 || end > |data| then None
      else
        var m := ReadTags(data, off + 16, nidx, store, end, map[]);
        if m.None? then None else Some((m.value, end))
  }

  /** The loop of _read_header. */
  method TagsLoop(data: seq<byte>, off: nat, nidx: nat, store: nat, end: nat) returns (r: Option<Tags>)
    requires end <= |data|
    ensures r == ReadTags(data, off + 16, nidx, store, end, map[])
  {
    hide ReadValue;
    var tags: Tags, i := map[], 0;
    while i < nidx
      invariant 0 <= i <= nidx
      invariant ReadTags(data, off + 16, nidx, store, end, map[]) == ReadTags(data, off + 16 + i * 16, nidx - i, store, end, tags)
    {
      var at := off + 16 + i * 16;
      if at + 16 > |data| {
        return None;
      }
      var tag, typ, o, cnt :=
        GetBe4(data[at..at + 4]), GetBe4(data[at + 4..at + 8]), GetBe4(data[at + 8..at + 12]), GetBe4(data[at + 12..at + 16]);
      if store + o > end {
        return None;
      }
      var v := ReadValue(data, typ, store + o, cnt, end);
      if v.None? {
        return None;
      }
      tags := tags[tag := v.value];
      i := i + 1;
    }
    return Some(tags);
  }

  // ---- the round trip ----------------------------------------------------------------------------

  function AddAll(m: Tags, es: seq<Entry>): Tags
    decreases |es|
  {
    if es == [] then m else AddAll(m[es[0].tag := es[0].val], es[1..])
  }

  lemma {:induction false} TagsRead(data: seq<byte>, at: nat, store: nat, end: nat, es: seq<Entry>, n: nat, m: Tags)
    requires AllTyped(es) && n + |Store(es, n)| < 0x1_0000_0000 && end <= |data|
    requires Laid(data, at, Index(es, n)) && Laid(data, store + n, Store(es, n)) && store + n + |Store(es, n)| <= end
    ensures ReadTags(data, at, |es|, store, end, m) == Some(AddAll(m, es))
    decreases |es|
  {
    hide Blob, IndexEntry, Typed, At, ReadValue, Laid, Be4, GetBe4;
    if es != [] {
      var e := es[0];
      var o := At(n, e.typ);
      var b, rest := Blob(e), es[1..];
      LaidSplit(data, at, IndexEntry(e, o), Index(rest, o + |b|));
      LaidSplit(data, store + n, Zeros(o - n) + b, Store(rest, o + |b|));
      LaidSplit(data, store + n, Zeros(o - n), b);
      IndexRead(data, at, e, o);
      ValueRoundTrip(data, store + o, end, e);
      TagsRead(data, at + 16, store, end, rest, o + |b|, m[e.tag := e.val]);
    }
  }

  lemma IndexRead(data: seq<byte>, at: nat, e: Entry, o: u32)
    requires Typed(e) && |Blob(e)| < 0x1_0000_0000 && Laid(data, at, IndexEntry(e, o))
    ensures at + 16 <= |data| && GetBe4(data[at..at + 4]) == e.tag && GetBe4(data[at + 4..at + 8]) == e.typ
    ensures GetBe4(data[at + 8..at + 12]) == o && GetBe4(data[at + 12..at + 16]) == Count(e)
  {
    hide Be4, GetBe4, Blob, Typed;
    CountFits(e);
    var a, b, c, d := Be4(e.tag), Be4(e.typ), Be4(o), Be4(Count(e));
    LaidSplit(data, at, a + b + c, d);
    LaidSplit(data, at, a + b, c);
    LaidSplit(data, at, a, b);
    Be4RoundTrip(e.tag);
    Be4RoundTrip(e.typ);
    Be4RoundTrip(o);
    Be4RoundTrip(Count(e));
  }

  lemma HeaderRead(data: seq<byte>, off: nat, es: seq<Entry>)
    requires HeaderOk(es) && Laid(data, off, Header(es))
    ensures ReadHeader(data, off) == Some((AddAll(map[], Sort(es)), off + |Header(es)|))
  {
    hide Store, Index, Sort, AllTyped, ReadTags, AddAll, Be4, GetBe4, Laid;
    var s := Sort(es);
    SortTyped(es);
    var index, store, n, z := Index(s, 0), Store(s, 0), Be4(|es|), Be4(|Store(s, 0)|);
    var front := HDR_MAGIC + Zeros(4) + n + z;
    LaidSplit(data, off, front, index + store);
    LaidSplit(data, off + 16, index, store);
    LaidSplit(data, off, HDR_MAGIC + Zeros(4) + n, z);
    LaidSplit(data, off, HDR_MAGIC + Zeros(4), n);
    LaidSplit(data, off, HDR_MAGIC, Zeros(4));
    Be4RoundTrip(|es|);
    Be4RoundTrip(|store|);
    Opened(data, off, HDR_MAGIC);
    Opened(data, off + 8, n);
    Opened(data, off + 12, z);
    var st := off + 16 + 16 * |es|;
    LaidFits(data, st, store);
    TagsRead(data, off + 16, st, st + |store|, s, 0, map[]);
  }

  lemma Opened(data: seq<byte>, o: nat, b: seq<byte>)
    requires Laid(data, o, b)
    ensures o + |b| <= |data| && data[o..o + |b|] == b
  {
  }

  // ---- what the map holds ------------------------------------------------------------------------

  predicate HasTag(es: seq<Entry>, t: int) { exists i :: 0 <= i < |es| && es[i].tag == t }

  /** m holds exactly the entries' values, and old ones for other tags. */
  ghost predicate Holds(m: Tags, es: seq<Entry>) {
    && (forall i :: 0 <= i < |es| ==> es[i].tag in m && m[es[i].tag] == es[i].val)
    && (forall t :: t in m ==> HasTag(es, t))
  }

  lemma {:induction false} AddAllKeeps(m: Tags, es: seq<Entry>, t: int)
    requires !HasTag(es, t)
    ensures t in AddAll(m, es) <==> t in m
    ensures t in m ==> AddAll(m, es)[t] == m[t]
    decreases |es|
  {
    if es != [] {
      assert es[0].tag != t;
      assert !HasTag(es[1..], t) by {
        forall i | 0 <= i < |es| - 1 ensures es[1..][i].tag != t {
          assert es[1..][i] == es[i + 1];
        }
      }
      AddAllKeeps(m[es[0].tag := es[0].val], es[1..], t);
    }
  }

  lemma {:induction false} AddAllHolds(m: Tags, es: seq<Entry>, i: nat)
    requires Distinct(es) && i < |es|
    ensures es[i].tag in AddAll(m, es) && AddAll(m, es)[es[i].tag] == es[i].val
    decreases |es|
  {
    var m1 := m[es[0].tag := es[0].val];
    if i == 0 {
      assert !HasTag(es[1..], es[0].tag) by {
        forall j | 0 <= j < |es| - 1 ensures es[1..][j].tag != es[0].tag {
          assert es[1..][j] == es[j + 1];
        }
      }
      AddAllKeeps(m1, es[1..], es[0].tag);
    } else {
      AddAllHolds(m1, es[1..], i - 1);
    }
  }

  /** Sorting loses and adds nothing. */
  lemma {:induction false} InsertSame(e: Entry, s: seq<Entry>)
    ensures multiset(Insert(e, s)) == multiset(s) + multiset{e}
  {
    if s != [] && e.tag > s[0].tag {
      InsertSame(e, s[1..]);
      assert s == [s[0]] + s[1..];
    }
  }

  lemma {:induction false} SortSame(es: seq<Entry>)
    ensures multiset(Sort(es)) == multiset(es)
  {
    if es != [] {
      SortSame(es[1..]);
      InsertSame(es[0], Sort(es[1..]));
      assert es == [es[0]] + es[1..];
    }
  }

  lemma SortTyped(es: seq<Entry>)
    requires AllTyped(es)
    ensures AllTyped(Sort(es)) && |Sort(es)| == |es|
  {
    hide Sort, Typed;
    var s := Sort(es);
    SortSame(es);
    assert |multiset(s)| == |multiset(es)|;
    forall j | 0 <= j < |s| ensures Typed(s[j]) {
      assert s[j] in multiset(es);
    }
  }

  /** Reading back any header returns every tag's value, and no other tag. */
  lemma HeaderRoundTrip(data: seq<byte>, off: nat, es: seq<Entry>)
    requires HeaderOk(es) && Laid(data, off, Header(es))
    ensures var r := ReadHeader(data, off);
      r.Some? && r.value.1 == off + |Header(es)| && Holds(r.value.0, es)
  {
    hide ReadHeader, HeaderOk, Header, Laid;
    HeaderRead(data, off, es);
    SortedHolds(es);
  }

  lemma SortedHolds(es: seq<Entry>)
    requires HeaderOk(es)
    ensures Holds(AddAll(map[], Sort(es)), es)
  {
    hide Sort, AddAll, Store, Typed;
    var s := Sort(es);
    var m := AddAll(map[], s);
    SortSame(es);
    SortDistinct(es);
    forall i | 0 <= i < |es| ensures es[i].tag in m && m[es[i].tag] == es[i].val {
      assert es[i] in multiset(s);
      var j :| 0 <= j < |s| && s[j] == es[i];
      AddAllHolds(map[], s, j);
    }
    forall t | t in m ensures HasTag(es, t) {
      if !HasTag(s, t) {
        AddAllKeeps(map[], s, t);
      }
      var j :| 0 <= j < |s| && s[j].tag == t;
      assert s[j] in multiset(es);
      var i :| 0 <= i < |es| && es[i] == s[j];
    }
  }

  lemma {:induction false} SortDistinct(es: seq<Entry>)
    requires Distinct(es)
    ensures Distinct(Sort(es))
  {
    if es != [] {
      var s := Sort(es[1..]);
      SortDistinct(es[1..]);
      SortSame(es[1..]);
      forall j | 0 <= j < |s| ensures s[j].tag != es[0].tag {
        assert s[j] in multiset(es[1..]);
        var i :| 0 <= i < |es| - 1 && es[1..][i] == s[j];
        assert es[i + 1].tag != es[0].tag;
      }
      InsertDistinct(es[0], s);
    }
  }

  lemma {:induction false} InsertDistinct(e: Entry, s: seq<Entry>)
    requires Distinct(s) && forall j :: 0 <= j < |s| ==> s[j].tag != e.tag
    ensures Distinct(Insert(e, s))
  {
    if s != [] && e.tag > s[0].tag {
      var r := Insert(e, s[1..]);
      InsertDistinct(e, s[1..]);
      InsertSame(e, s[1..]);
      forall j | 0 <= j < |r| ensures r[j].tag != s[0].tag {
        assert r[j] in multiset(s[1..]) + multiset{e};
      }
    }
  }

  // ---- what is in a header -----------------------------------------------------------------------

  lemma {:induction false} InsertAscends(e: Entry, s: seq<Entry>)
    requires Ascends(s)
    ensures Ascends(Insert(e, s)) && Insert(e, s) != [] && Insert(e, s)[0].tag == (if s == [] || e.tag <= s[0].tag then e.tag else s[0].tag)
  {
    if s != [] && e.tag > s[0].tag {
      InsertAscends(e, s[1..]);
      var r := Insert(e, s[1..]);
      forall i | 0 <= i < |r| ensures s[0].tag <= r[i].tag {
        assert r[0].tag <= r[i].tag;
        assert s[1..] != [] ==> s[0].tag <= s[1..][0].tag;
      }
    }
  }

  predicate Ascends(s: seq<Entry>) { forall i, j :: 0 <= i < j < |s| ==> s[i].tag <= s[j].tag }

  lemma {:induction false} SortAscends(es: seq<Entry>)
    ensures Ascends(Sort(es))
  {
    if es != [] {
      SortAscends(es[1..]);
      InsertAscends(es[0], Sort(es[1..]));
    }
  }

  /** Where the k-th value goes in a store that begins at its n-th byte. */
  function Place(es: seq<Entry>, n: nat, k: nat): (o: nat)
    requires AllTyped(es) && k < |es|
  {
    var o := At(n, es[0].typ);
    if k == 0 then o else Place(es[1..], o + |Blob(es[0])|, k - 1)
  }

  lemma {:induction false} IndexAt(data: seq<byte>, at: nat, store: nat, es: seq<Entry>, n: nat, k: nat)
    requires AllTyped(es) && k < |es| && n + |Store(es, n)| < 0x1_0000_0000
    requires Laid(data, at, Index(es, n)) && Laid(data, store + n, Store(es, n))
    ensures var o := Place(es, n, k);
      && o < 0x1_0000_0000 && |Blob(es[k])| < 0x1_0000_0000
      && Laid(data, at + 16 * k, IndexEntry(es[k], o)) && Laid(data, store + o, Blob(es[k]))
    decreases k
  {
    hide Blob, IndexEntry, Typed, Laid, At;
    var e := es[0];
    var o := At(n, e.typ);
    var b, rest := Blob(e), es[1..];
    LaidSplit(data, at, IndexEntry(e, o), Index(rest, o + |b|));
    LaidSplit(data, store + n, Zeros(o - n) + b, Store(rest, o + |b|));
    LaidSplit(data, store + n, Zeros(o - n), b);
    if k > 0 {
      IndexAt(data, at + 16, store, rest, o + |b|, k - 1);
    }
  }

  lemma AtAligned(n: nat, typ: int)
    ensures (typ == T_INT32 ==> At(n, typ) % 4 == 0) && (typ == T_INT16 ==> At(n, typ) % 2 == 0)
  {
    Padded4(n);
    Padded2(n);
  }

  lemma Padded4(n: nat)
    ensures (n + (4 - n % 4) % 4) % 4 == 0
  {
    assert n == 4 * (n / 4) + n % 4;
  }

  lemma Padded2(n: nat)
    ensures (n + (2 - n % 2) % 2) % 2 == 0
  {
    assert n == 2 * (n / 2) + n % 2;
  }

  lemma {:induction false} PlaceAligned(es: seq<Entry>, n: nat, k: nat)
    requires AllTyped(es) && k < |es|
    ensures (es[k].typ == T_INT32 ==> Place(es, n, k) % 4 == 0) && (es[k].typ == T_INT16 ==> Place(es, n, k) % 2 == 0)
    decreases k
  {
    hide Blob, Typed, At;
    AtAligned(n, es[0].typ);
    if k > 0 {
      PlaceAligned(es[1..], At(n, es[0].typ) + |Blob(es[0])|, k - 1);
    }
  }

  /** The four words of the k-th index entry of a header. */
  function Word(h: seq<byte>, k: nat, w: nat): u32
    requires w < 4 && 32 + 16 * k <= |h|
  {
    GetBe4(h[16 + 16 * k + 4 * w..20 + 16 * k + 4 * w])
  }

  /** A written header, entry by entry: as many as there are tags, in ascending order of tags, each giving one tag's type and
      count and where its bytes are in the store, integers on a multiple of their size. */
  lemma HeaderMeans(es: seq<Entry>, k: nat)
    requires HeaderOk(es) && k < |es|
    ensures var h := Header(es);
      && |h| >= 16 + 16 * |es| && h[..8] == [0x8E, 0xAD, 0xE8, 0x01, 0, 0, 0, 0]
      && GetBe4(h[8..12]) == |es| && GetBe4(h[12..16]) == |h| - 16 - 16 * |es|
      && (k + 1 < |es| ==> Word(h, k, 0) < Word(h, k + 1, 0))
      && (Word(h, k, 1) == 4 ==> Word(h, k, 2) % 4 == 0) && (Word(h, k, 1) == 3 ==> Word(h, k, 2) % 2 == 0)
      && (exists i :: 0 <= i < |es| && Described(h, 16 + 16 * |es|, k, es[i]))
  {
    hide Sort, Store, Index, Be4, GetBe4, Place, Typed, Laid, Blob;
    SortTyped(es);
    SortSame(es);
    SortAscends(es);
    SortDistinct(es);
    var s, h := Sort(es), Header(es);
    var idx, st := Index(s, 0), Store(s, 0);
    var front := HDR_MAGIC + Zeros(4) + Be4(|es|) + Be4(|st|);
    assert h == front + (idx + st) && |front| == 16;
    assert h[..8] == HDR_MAGIC + Zeros(4) && h[8..12] == Be4(|es|) && h[12..16] == Be4(|st|);
    Be4RoundTrip(|es|);
    Be4RoundTrip(|st|);
    Whole(h);
    LaidSplit(h, 0, front, idx + st);
    LaidSplit(h, 16, idx, st);
    EntryMeans(h, s, k);
    if k + 1 < |es| {
      EntryMeans(h, s, k + 1);
    }
    assert s[k] in multiset(es);
    var i :| 0 <= i < |es| && es[i] == s[k];
    assert Described(h, 16 + 16 * |es|, k, es[i]);
  }

  /** Index entry k is about e, whose bytes are in the store that begins at byte st. */
  predicate Described(h: seq<byte>, st: nat, k: nat, e: Entry) {
    && 32 + 16 * k <= |h| && Word(h, k, 0) == e.tag && Word(h, k, 1) == e.typ
    && Typed(e) && Word(h, k, 3) == Count(e) && Laid(h, st + Word(h, k, 2), Blob(e))
  }

  lemma Whole(h: seq<byte>)
    ensures Laid(h, 0, h)
  {
  }

  lemma EntryMeans(h: seq<byte>, s: seq<Entry>, k: nat)
    requires AllTyped(s) && |Store(s, 0)| < 0x1_0000_0000 && k < |s|
    requires Laid(h, 16, Index(s, 0)) && Laid(h, 16 + 16 * |s|, Store(s, 0))
    ensures Described(h, 16 + 16 * |s|, k, s[k])
    ensures (s[k].typ == T_INT32 ==> Word(h, k, 2) % 4 == 0) && (s[k].typ == T_INT16 ==> Word(h, k, 2) % 2 == 0)
  {
    hide Blob, IndexEntry, Typed, Store, Index, Laid, Place, Be4, GetBe4;
    IndexAt(h, 16, 16 + 16 * |s|, s, 0, k);
    PlaceAligned(s, 0, k);
    IndexRead(h, 16 + 16 * k, s[k], Place(s, 0, k));
  }

  // ---- packages ----------------------------------------------------------------------------------

  /** The writer's padding of the signature. */
  function Gap8(n: nat): nat { (8 - n % 8) % 8 }

  /** The reader's: where the padding ends. */
  function Up8(n: nat): nat { (n + 7) / 8 * 8 }

  lemma PadsMeet(n: nat)
    ensures n + Gap8(n) == Up8(n)
  {
  }

  /** The lead of a v3 binary package; the name in it is always ended by a NUL. */
  function LeadBytes(name: seq<byte>): (r: seq<byte>)
    ensures |r| == LEAD && r[4..10] == [3, 0, 0, 0, 0, 13] && r[75] == 0 && r[76..80] == [0, 255, 0, 5]
    ensures var n := if |name| < 65 then |name| else 65; r[10..10 + n] == name[..n]
  {
    var nm := if |name| > 65 then name[..65] else name;
    LEAD_MAGIC + [3, 0, 0, 0, 0, 13] + Padded(nm, 66) + [0, 255, 0, 5] + Zeros(16)
  }

  /** write_rpm, around the two headers and the compressed payload. */
  function WriteRpm(name: seq<byte>, sig: seq<Entry>, main: seq<Entry>, payload: seq<byte>): seq<byte>
    requires HeaderOk(sig) && HeaderOk(main)
  {
    LeadBytes(name) + (Header(sig) + Zeros(Gap8(|Header(sig)|))) + Header(main) + payload
  }

  predicate HasStr(m: Tags, t: int) { t in m && m[t].Str? }

  /** rpm_header: signature tags, main tags and where the payload starts; None where the source raises BadRpm. */
  function RpmHeader(data: seq<byte>): Option<(Tags, Tags, nat)> {
    if |data| < LEAD || data[..4] != LEAD_MAGIC then None
    else
      var sig := ReadHeader(data, LEAD);
      if sig.None? || sig.value.1 < LEAD then None
      else
        var len := sig.value.1 - LEAD;
        var main := ReadHeader(data, LEAD + Up8(len));
        if main.None? || !HasStr(main.value.0, NAME) || !HasStr(main.value.0, VERSION) || !HasStr(main.value.0, RELEASE) then None
        else Some((sig.value.0, main.value.0, main.value.1))
  }

  /** The package names itself. */
  predicate Named(es: seq<Entry>) { HasString(es, NAME) && HasString(es, VERSION) && HasString(es, RELEASE) }

  predicate HasString(es: seq<Entry>, t: int) { exists i :: 0 <= i < |es| && es[i].tag == t && es[i].val.Str? }

  /** Reading a written package returns the values of all tags of both headers, and the payload. */
  lemma PackageRoundTrip(name: seq<byte>, sig: seq<Entry>, main: seq<Entry>, payload: seq<byte>)
    requires HeaderOk(sig) && HeaderOk(main) && Named(main)
    ensures var data := WriteRpm(name, sig, main, payload); var r := RpmHeader(data);
      && r.Some? && Holds(r.value.0, sig) && Holds(r.value.1, main)
      && r.value.2 <= |data| && data[r.value.2..] == payload
  {
    hide ReadHeader, HeaderOk, Header, Holds, Gap8, Up8;
    PadsMeet(|Header(sig)|);
    var data, lead, h, m := WriteRpm(name, sig, main, payload), LeadBytes(name), Header(sig), Header(main);
    var z := Zeros(Gap8(|h|));
    assert Laid(data, 0, data) && data[..4] == LEAD_MAGIC;
    LaidSplit(data, 0, lead + (h + z) + m, payload);
    LaidSplit(data, 0, lead + (h + z), m);
    LaidSplit(data, 0, lead, h + z);
    LaidSplit(data, LEAD, h, z);
    HeaderRoundTrip(data, LEAD, sig);
    HeaderRoundTrip(data, LEAD + |h| + Gap8(|h|), main);
    var mt := ReadHeader(data, LEAD + |h| + Gap8(|h|)).value.0;
    StrHeld(mt, main, NAME);
    StrHeld(mt, main, VERSION);
    StrHeld(mt, main, RELEASE);
    assert data[|lead + (h + z) + m|..] == payload;
  }

  lemma StrHeld(m: Tags, es: seq<Entry>, t: int)
    requires Holds(m, es) && HasString(es, t)
    ensures HasStr(m, t)
  {
  }

  /** The whole package: every tag, and through the payload every file's path, mode and body. */
  lemma FilesRoundTrip(name: seq<byte>, sig: seq<Entry>, main: seq<Entry>, fs: seq<Cpio.File>,
    compress: seq<byte> -> seq<byte>, decompress: seq<byte> -> seq<byte>)
    requires HeaderOk(sig) && HeaderOk(main) && Named(main) && Cpio.AllEncodable(fs, 1) && Cpio.NoTrailer(fs)
    requires forall i :: 0 <= i < |fs| ==> Cpio.PlainPath(fs[i].path)
    requires forall x :: decompress(compress(x)) == x
    ensures var data := WriteRpm(name, sig, main, compress(Cpio.Members(fs, 1))); var r := RpmHeader(data);
      && r.Some? && Holds(r.value.0, sig) && Holds(r.value.1, main) && r.value.2 <= |data|
      && var es := Cpio.Read(decompress(data[r.value.2..]));
         es.Some? && |es.value| == |fs| &&
         forall i :: 0 <= i < |fs| ==>
           es.value[i].path == fs[i].path && es.value[i].mode == fs[i].mode && es.value[i].body == fs[i].body
  {
    hide HeaderOk, Holds, RpmHeader, WriteRpm, Cpio.Read, Cpio.PlainPath, Cpio.Members, Cpio.Stored, Cpio.PathOf, Cpio.Encodable;
    PackageRoundTrip(name, sig, main, compress(Cpio.Members(fs, 1)));
    Cpio.ArchiveRoundTrip(fs);
    Cpio.PathsRoundTrip(fs);
  }
}
