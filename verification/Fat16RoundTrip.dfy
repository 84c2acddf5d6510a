/** Reading a rebuilt partition gives back the tree that was put into it. */
module Fat16RoundTrip {
  import opened Wire
  import opened Bytes
  import opened Fat16Names
  import opened Fat16Layout
  import opened Fat16Reader
  import opened Fat16Writer

  // ---- parts of an image -------------------------------------------------------------------------

  predicate Linked(fat: seq<byte>, c: nat, words: seq<int>) {
    2 * (c + |words|) <= |fat| && forall i :: 0 <= i < |words| ==> U16(fat, 2 * (c + i)) == words[i]
  }

  lemma LinkedSplit(fat: seq<byte>, c: nat, a: seq<int>, b: seq<int>)
    requires Linked(fat, c, a + b)
    ensures Linked(fat, c, a) && Linked(fat, c + |a|, b)
  {
    forall i | 0 <= i < |a| ensures U16(fat, 2 * (c + i)) == a[i] {
      assert (a + b)[i] == a[i];
    }
    forall i | 0 <= i < |b| ensures U16(fat, 2 * (c + |a| + i)) == b[i] {
      assert (a + b)[|a| + i] == b[i];
    }
  }

  // ---- chains ------------------------------------------------------------------------------------

  function Upto(c: nat, n: nat): (r: seq<int>)
    ensures |r| == n
  {
    seq(n, i => c + i)
  }

  /** How many of n clusters from c on a reader sees: it stops at cluster 0xFFF0. */
  function Seen(c: nat, n: nat): (k: nat)
    ensures k <= n && (k < n <==> c + n > 0xFFF0 && n > 0)
  {
    if c >= 0xFFF0 then 0 else Min(n, 0xFFF0 - c)
  }

  /** Walking a contiguous chain visits its clusters in order, up to where the reader stops. */
  lemma {:induction false} ChainWalk(fat: seq<byte>, c: nat, n: nat, seen: nat)
    requires 2 <= c && 1 <= n && c + n <= 65536 && seen + n <= 65536
    requires Linked(fat, c, Chained(c, n))
    ensures Chain(fat, c, seen) == Some(Upto(c, Seen(c, n)))
    decreases n
  {
    var w := Chained(c, n);
    assert U16(fat, 2 * (c + 0)) == w[0];
    if c >= 0xFFF0 {
    } else if n == 1 {
      assert Chain(fat, 0xFFFF, seen + 1) == Some([]);
      assert Upto(c, n) == [c as int] + [];
    } else {
      assert w == [c + 1] + Chained(c + 1, n - 1);
      LinkedSplit(fat, c, [c + 1], Chained(c + 1, n - 1));
      ChainWalk(fat, c + 1, n - 1, seen + 1);
      assert Upto(c, Seen(c, n)) == [c] + Upto(c + 1, Seen(c + 1, n - 1));
    }
  }

  lemma OffMono(g: Geo, a: int, b: int)
    requires a <= b
    ensures Off(g, a) <= Off(g, b)
  {
  }

  lemma UptoFirst(c: nat, n: nat)
    requires n > 0
    ensures Upto(c, n) == [c as int] + Upto(c + 1, n - 1)
  {
  }

  /** Consecutive clusters are one slice of the partition. */
  lemma {:induction false} BodyWalk(g: Geo, img: seq<byte>, c: nat, n: nat)
    requires 2 <= c && Off(g, c + n) <= |img|
    ensures 0 <= Off(g, c) <= Off(g, c + n) && Body(g, img, Upto(c, n)) == img[Off(g, c)..Off(g, c + n)]
    decreases n
  {
    hide Off, Upto;
    OffFirst(g);
    OffMono(g, 2, c);
    OffMono(g, c, c + n);
    if n > 0 {
      OffMono(g, c, c + 1);
      OffMono(g, c + 1, c + n);
      UptoFirst(c, n);
      BodyWalk(g, img, c + 1, n - 1);
      assert c + 1 + (n - 1) == c + n;
      assert img[Off(g, c)..Off(g, c + 1)] + img[Off(g, c + 1)..Off(g, c + n)] == img[Off(g, c)..Off(g, c + n)];
    }
  }

  // ---- one entry ---------------------------------------------------------------------------------

  lemma EntryFields(n: Node, g: Geo)
    requires Ready1(n) && Plain1(n) && |g.stamp| == 4
    ensures var e := Entry(n, g);
      && Classify(e) == Item && Name83(e[..11]) == n.name && e[11] == n.attr && U16(e, 26) == n.clus
      && G4(e, 28) == (if IsDir(n) then 0 else |n.data|)
  {
    hide Name83, Pad83, Canonical;
    var e := Entry(n, g);
    NameRoundTrip(n.name);
    FirstByte(n.name);
    assert e[0] == e[..11][0];
    assert e[..2] != [DOT, SPACE] && e[..2] != [DOT, DOT] by {
      assert e[..2][0] == e[0];
    }
  }

  lemma FirstByte(name: seq<byte>)
    requires Canonical(name)
    ensures Pad83(name).Some? && name[0] != DOT && Pad83(name).value[0] == name[0]
  {
    hide Upper, Upper1;
    CanonicalPads(name);
  }

  /** The bytes of the node's clusters that the reader sees. */
  function Shown(n: Node, g: Geo, c: nat): (k: nat)
    requires g.csize > 0
    ensures k <= Own(n, g) * g.csize
  {
    MulMono(Seen(c, Own(n, g)), Own(n, g), g.csize);
    Seen(c, Own(n, g)) * g.csize
  }

  /** The clusters an entry points at hold what was put into them. */
  lemma EntryFinds(g: Geo, img: seq<byte>, fat: seq<byte>, n: Node, c: nat, area: seq<byte>)
    requires Usable(g) && Ready1(n)
    requires n.clus == (if Owns(n) then c else 0) && 2 <= c && c + Own(n, g) <= 65536
    requires Linked(fat, c, Chained(c, Own(n, g)))
    requires |area| == Own(n, g) * g.csize && Laid(img, Off(g, c), area)
    ensures EntryBody(g, img, fat, Entry(n, g)) == Some(area[..Shown(n, g, c)])
  {
    hide Clusters, Seen, Upto, Entry, Body, Chain, Linked, Laid, Off, Pad83;
    EntryClus(n, g);
    if Owns(n) {
      ChainWalk(fat, c, Own(n, g), 0);
      SeenBody(g, img, c, Own(n, g), Seen(c, Own(n, g)), area);
    } else {
      assert area[..Shown(n, g, c)] == [];
      assert Chain(fat, 0, 0) == Some([]) by { NoChain(fat, c); NoUpto(c); }
      assert Body(g, img, []) == [] by { NoBody(g, img); }
    }
  }

  lemma EntryClus(n: Node, g: Geo)
    requires Ready1(n) && |g.stamp| == 4
    ensures U16(Entry(n, g), 26) == n.clus
  {
    hide Pad83;
  }

  lemma SeenBody(g: Geo, img: seq<byte>, c: nat, n: nat, k: nat, area: seq<byte>)
    requires g.csize > 0 && 2 <= c && k <= n && |area| == n * g.csize && Laid(img, Off(g, c), area)
    ensures 0 <= k * g.csize <= |area| && Body(g, img, Upto(c, k)) == area[..k * g.csize]
  {
    hide Body, Upto, Off;
    MulMono(k, n, g.csize);
    MulMono(0, k, g.csize);
    OffAdd(g, c, k);
    BodyWalk(g, img, c, k);
    assert img[Off(g, c)..Off(g, c + k)] == area[..k * g.csize];
  }

  lemma NoUpto(c: nat)
    ensures Upto(c, 0) == []
  {
  }

  lemma NoBody(g: Geo, img: seq<byte>)
    ensures Body(g, img, []) == []
  {
  }

  lemma ReadItemFirst(g: Geo, img: seq<byte>, fat: seq<byte>, e: seq<byte>, tail: seq<byte>, depth: nat)
    requires |e| == ENTRY && Classify(e) == Item
    ensures ReadDir(g, img, fat, e + tail, depth) ==
            var n := ReadNode(g, img, fat, e, depth);
            if n.None? then None else Prepend([n.value], ReadDir(g, img, fat, tail, depth))
  {
    hide ReadNode, Classify;
    assert Head(e + tail) == e && Tail(e + tail) == tail;
  }

  lemma ReadSkipFirst(g: Geo, img: seq<byte>, fat: seq<byte>, e: seq<byte>, tail: seq<byte>, depth: nat)
    requires |e| == ENTRY && (Classify(e) == Skip || Classify(e) == Label)
    ensures ReadDir(g, img, fat, e + tail, depth) == ReadDir(g, img, fat, tail, depth)
  {
    hide ReadNode, Classify;
    assert Head(e + tail) == e && Tail(e + tail) == tail;
  }

  predicate DotEntry(e: seq<byte>) {
    |e| == ENTRY && e[0] == DOT && (e[..2] == [DOT, SPACE] || e[..2] == [DOT, DOT])
  }

  lemma DotEntries(n: Node, g: Geo, parent: nat) returns (d: seq<byte>, dd: seq<byte>)
    requires Ready1(n) && parent < 65536 && |g.stamp| == 4
    ensures DotEntry(d) && DotEntry(dd) && Dots(n, g, parent) == d + dd
  {
    hide Pad83;
    d := Dirent([DOT] + Spaces(10), 16, n.clus, 0, n.raw, g.stamp);
    dd := Dirent([DOT, DOT] + Spaces(9), 16, parent, 0, n.raw, g.stamp);
    assert d[..2] == d[..11][..2] == [DOT, SPACE];
    assert dd[..2] == dd[..11][..2] == [DOT, DOT];
    assert d[0] == DOT && dd[0] == DOT by {
      assert d[0] == d[..2][0] && dd[0] == dd[..2][0];
    }
  }

  lemma ReadDots(g: Geo, img: seq<byte>, fat: seq<byte>, n: Node, parent: nat, tail: seq<byte>, depth: nat)
    requires Ready1(n) && parent < 65536 && |g.stamp| == 4
    ensures ReadDir(g, img, fat, Dots(n, g, parent) + tail, depth) == ReadDir(g, img, fat, tail, depth)
  {
    hide ReadDir, ReadNode, Pad83, Dots;
    var d, dd := DotEntries(n, g, parent);
    assert Dots(n, g, parent) + tail == d + (dd + tail);
    ReadSkipFirst(g, img, fat, d, dd + tail, depth);
    ReadSkipFirst(g, img, fat, dd, tail, depth);
  }

  /** A dot entry cut after k bytes: Python looks at byte 11 before it skips the entry. */
  lemma CutDot(g: Geo, img: seq<byte>, fat: seq<byte>, d: seq<byte>, k: nat, depth: nat)
    requires DotEntry(d) && k < ENTRY
    ensures ReadDir(g, img, fat, d[..k], depth) == if k == 0 || k >= 12 then Some([]) else None
  {
    hide ReadNode;
    if k > 0 {
      assert Head(d[..k]) == d[..k] && Tail(d[..k]) == [];
      if k >= 12 {
        assert d[..k][..2] == d[..2];
        assert Classify(d[..k]) == Skip;
      }
    }
  }

  lemma ReadZeros(g: Geo, img: seq<byte>, fat: seq<byte>, m: nat, depth: nat)
    ensures ReadDir(g, img, fat, Zeros(m), depth) == Some([])
  {
    if m > 0 {
      assert Head(Zeros(m))[0] == 0;
    }
  }

  // ---- the tree ----------------------------------------------------------------------------------

  function Max(a: int, b: int): int { if a < b then b else a }

  /** How deep directories nest. */
  function Height(ns: seq<Node>): nat {
    if ns == [] then 0 else Max(if IsDir(ns[0]) then 1 + Height(ns[0].kids) else 0, Height(ns[1..]))
  }

  /** A directory without kids, cut after k bytes, still reads as empty: no entry ends before its attribute byte. */
  predicate CutDots(k: nat) { k >= 2 * ENTRY || k % ENTRY == 0 || k % ENTRY >= 12 }

  /** The reader sees enough of a node that lies at cluster c. */
  predicate Reached1(n: Node, g: Geo, c: nat)
    requires g.csize > 0
  {
    if n.data == [] && n.kids == [] then CutDots(Shown(n, g, c)) else Seen(c, Own(n, g)) == Own(n, g)
  }

  /** ... and of all nodes, laid out from cluster c on. */
  predicate Reached(ns: seq<Node>, g: Geo, c: nat)
    requires g.csize > 0
    decreases ns
  {
    ns == [] ||
    (var n, own := ns[0], Own(ns[0], g);
     && Reached1(n, g, c) && Reached(n.kids, g, c + own) && Reached(ns[1..], g, c + own + Size(n.kids, g)))
  }

  /** The trees that come back: canonical names, all bytes and entries below cluster 0xFFF0, and directories no deeper
      than the reader goes. */
  predicate Readable(ns: seq<Node>, g: Geo, c: nat, depth: nat)
    requires g.csize > 0
  {
    Plain(ns) && Reached(ns, g, c) && Height(ns) <= depth
  }

  predicate Readable1(n: Node, g: Geo, c: nat, depth: nat)
    requires g.csize > 0
  {
    && Plain1(n) && Reached1(n, g, c)
    && (IsDir(n) ==> depth > 0 && Readable(n.kids, g, c + Own(n, g), depth - 1))
  }

  lemma {:induction false} ReadableCons(ns: seq<Node>, g: Geo, c: nat, depth: nat)
    requires g.csize > 0 && ns != [] && Ready1(ns[0])
    ensures var n, own := ns[0], Own(ns[0], g);
      Readable(ns, g, c, depth) <==>
        Readable1(n, g, c, depth) && Readable(ns[1..], g, c + own + Size(n.kids, g), depth)
  {
    hide Own, Size, Canonical, Reached1, Pad83;
    var n, own := ns[0], Own(ns[0], g);
    assert !IsDir(n) ==> n.kids == [] && Plain([]) && Reached([], g, c + own);
  }

  /** Up to 65,518 clusters every node is reached. */
  lemma {:induction false} SmallIsReached(ns: seq<Node>, g: Geo, c: nat)
    requires g.csize > 0 && Ready(ns) && c + Size(ns, g) <= 0xFFF0
    ensures Reached(ns, g, c)
    decreases ns
  {
    hide Clusters, Pad83;
    if ns != [] {
      var own := Own(ns[0], g);
      OwnEnough(ns[0], g);
      SmallIsReached(ns[0].kids, g, c + own);
      SmallIsReached(ns[1..], g, c + own + Size(ns[0].kids, g));
    }
  }

  function Fresh1(n: Node, g: Geo): Node
    requires Ready1(n) && Ready(n.kids) && |g.stamp| == 4
  {
    Node(n.name, n.attr, Entry(n, g), n.data, Fresh(n.kids, g), 0)
  }

  /** The tree as a reader makes it: each node carries the entry it was read from. */
  function Fresh(ns: seq<Node>, g: Geo): seq<Node>
    requires Ready(ns) && |g.stamp| == 4
  {
    if ns == [] then [] else [Fresh1(ns[0], g)] + Fresh(ns[1..], g)
  }

  ghost predicate ReadsBack(g: Geo, img: seq<byte>, fat: seq<byte>, ns: seq<Node>, depth: nat)
    requires Ready(ns) && |g.stamp| == 4
  {
    forall m: nat :: ReadDir(g, img, fat, Entries(ns, g) + Zeros(m), depth) == Some(Fresh(ns, g))
  }

  /** What is left of the two dot entries of a directory without kids. */
  lemma ReadCutDots(g: Geo, img: seq<byte>, fat: seq<byte>, n: Node, parent: nat, k: nat, tail: seq<byte>, depth: nat)
    requires Ready1(n) && parent < 65536 && |g.stamp| == 4 && k <= 2 * ENTRY + |tail|
    requires k <= 2 * ENTRY || tail == Zeros(|tail|)
    ensures var raw := (Dots(n, g, parent) + tail)[..k];
      ReadDir(g, img, fat, raw, depth) == if CutDots(k) then Some([]) else None
  {
    hide ReadNode, Pad83, Dots, ReadDir, Classify;
    var raw := (Dots(n, g, parent) + tail)[..k];
    var d, dd := DotEntries(n, g, parent);
    if k >= 2 * ENTRY {
      assert raw == Dots(n, g, parent) + Zeros(k - 2 * ENTRY);
      ReadDots(g, img, fat, n, parent, Zeros(k - 2 * ENTRY), depth);
      ReadZeros(g, img, fat, k - 2 * ENTRY, depth);
    } else if k >= ENTRY {
      assert raw == d + dd[..k - ENTRY];
      DotSkips(d);
      ReadSkipFirst(g, img, fat, d, dd[..k - ENTRY], depth);
      CutDot(g, img, fat, dd, k - ENTRY, depth);
    } else {
      assert raw == d[..k];
      CutDot(g, img, fat, d, k, depth);
    }
  }

  lemma DotSkips(d: seq<byte>)
    requires DotEntry(d)
    ensures Classify(d) == Skip
  {
  }

  lemma NoEntries(g: Geo)
    requires |g.stamp| == 4
    ensures Entries([], g) == []
  {
  }

  /** What is seen of a file's clusters begins with its bytes. */
  lemma FileShown(n: Node, g: Geo, c: nat, parent: nat)
    requires Usable(g) && Ready1(n) && Ready(n.kids) && Reached1(n, g, c) && !IsDir(n) && parent < 65536
    ensures Slice(OwnArea(n, g, parent)[..Shown(n, g, c)], 0, |n.data|) == n.data
  {
    hide Own, Pad83, Seen;
    OwnEnough(n, g);
    var area := OwnArea(n, g, parent);
    if n.data != [] {
      assert area[..Shown(n, g, c)] == area;
      assert area[..|n.data|] == n.data;
    }
  }

  /** What is seen of a directory's clusters reads as what its entries read as. */
  lemma DirShown(g: Geo, img: seq<byte>, fat: seq<byte>, n: Node, c: nat, parent: nat, depth: nat)
    requires Usable(g) && Ready1(n) && Ready(n.kids) && Reached1(n, g, c) && IsDir(n) && parent < 65536
    ensures Need(n) <= Own(n, g) * g.csize
    ensures ReadDir(g, img, fat, OwnArea(n, g, parent)[..Shown(n, g, c)], depth) ==
            ReadDir(g, img, fat, Entries(n.kids, g) + Zeros(Own(n, g) * g.csize - Need(n)), depth)
  {
    hide Own, Pad83, Seen, ReadDir, Dots, Entries, CutDots;
    OwnEnough(n, g);
    var pad := Zeros(Own(n, g) * g.csize - Need(n));
    var area := OwnArea(n, g, parent);
    assert area == Dots(n, g, parent) + (Entries(n.kids, g) + pad);
    if n.kids == [] {
      NoEntries(g);
      assert Entries(n.kids, g) + pad == pad;
      ReadCutDots(g, img, fat, n, parent, Shown(n, g, c), pad, depth);
      ReadZeros(g, img, fat, |pad|, depth);
    } else {
      assert area[..Shown(n, g, c)] == area;
      ReadDots(g, img, fat, n, parent, Entries(n.kids, g) + pad, depth);
    }
  }

  /** One node is read back, given that its kids are. */
  lemma NodeBack(g: Geo, img: seq<byte>, fat: seq<byte>, n: Node, c: nat, parent: nat, depth: nat)
    requires Usable(g) && Ready1(n) && Ready(n.kids) && Plain1(n) && Reached1(n, g, c) && parent < 65536
    requires EntryBody(g, img, fat, Entry(n, g)) == Some(OwnArea(n, g, parent)[..Shown(n, g, c)])
    requires IsDir(n) ==> depth > 0 && ReadsBack(g, img, fat, n.kids, depth - 1)
    ensures ReadNode(g, img, fat, Entry(n, g), depth) == Some(Fresh1(n, g))
  {
    hide Entry, Classify, Name83, EntryBody, Own, Entries, Canonical, ReadDir, Pad83, Reached1, Shown, OwnArea, Slice;
    EntryFields(n, g);
    if IsDir(n) {
      DirShown(g, img, fat, n, c, parent, depth - 1);
    } else {
      FileShown(n, g, c, parent);
      assert Fresh(n.kids, g) == [];
    }
  }

  /** The first node's chain, its kids' and the rest's are where the layout says. */
  lemma {:induction false} LinkParts(g: Geo, fat: seq<byte>, ns: seq<Node>, c: nat)
    requires g.csize > 0 && ns != [] && Linked(fat, c, Links(ns, g, c))
    ensures var n, own, below := ns[0], Own(ns[0], g), Size(ns[0].kids, g);
      && Linked(fat, c, Chained(c, own))
      && Linked(fat, c + own, Links(n.kids, g, c + own))
      && Linked(fat, c + own + below, Links(ns[1..], g, c + own + below))
  {
    hide Own, Linked, Chained;
    var n, own, below := ns[0], Own(ns[0], g), Size(ns[0].kids, g);
    LinkedSplit(fat, c, Chained(c, own) + Links(n.kids, g, c + own), Links(ns[1..], g, c + own + below));
    LinkedSplit(fat, c, Chained(c, own), Links(n.kids, g, c + own));
  }

  /** And so are their clusters. */
  lemma {:induction false} AreaParts(g: Geo, img: seq<byte>, ns: seq<Node>, c: nat, parent: nat)
    requires g.csize > 0 && |g.stamp| == 4 && Ready(ns) && parent < 65536 && ns != []
    requires Laid(img, Off(g, c), Area(ns, g, parent))
    ensures var n, own, below := ns[0], Own(ns[0], g), Size(ns[0].kids, g);
      && Laid(img, Off(g, c), OwnArea(n, g, parent))
      && Laid(img, Off(g, c + own), Area(n.kids, g, n.clus))
      && Laid(img, Off(g, c + own + below), Area(ns[1..], g, parent))
  {
    hide Own, Laid, OwnArea, Off, Size, Pad83;
    var n, own, below := ns[0], Own(ns[0], g), Size(ns[0].kids, g);
    OffAdd(g, c, own);
    OffAdd(g, c + own, below);
    var a, b, r := OwnArea(n, g, parent), Area(n.kids, g, n.clus), Area(ns[1..], g, parent);
    assert Area(ns, g, parent) == a + b + r;
    LaidSplit3(img, Off(g, c), a, b, r);
  }

  lemma LaidSplit3(img: seq<byte>, o: int, a: seq<byte>, b: seq<byte>, r: seq<byte>)
    requires Laid(img, o, a + b + r)
    ensures Laid(img, o, a) && Laid(img, o + |a|, b) && Laid(img, o + |a| + |b|, r)
  {
    hide Laid;
    LaidSplit(img, o, a + b, r);
    LaidSplit(img, o, a, b);
  }

  /** The nodes occupy the clusters from c on: chains in the FAT, bytes in the partition. */
  predicate Stored(g: Geo, img: seq<byte>, fat: seq<byte>, ns: seq<Node>, c: nat, parent: nat) {
    && Usable(g) && Ready(ns) && Sited(ns, g, c) && parent < 65536
    && 2 <= c && c + Size(ns, g) <= 65536
    && Linked(fat, c, Links(ns, g, c)) && Laid(img, Off(g, c), Area(ns, g, parent))
  }

  lemma {:induction false} StoredParts(g: Geo, img: seq<byte>, fat: seq<byte>, ns: seq<Node>, c: nat, parent: nat)
    requires Stored(g, img, fat, ns, c, parent) && ns != []
    ensures var n, own, below := ns[0], Own(ns[0], g), Size(ns[0].kids, g);
      && Stored(g, img, fat, n.kids, c + own, n.clus) && Stored(g, img, fat, ns[1..], c + own + below, parent)
      && Ready1(n)
      && EntryBody(g, img, fat, Entry(n, g)) == Some(OwnArea(n, g, parent)[..Shown(n, g, c)])
  {
    hide Own, Linked, Laid, Chained, OwnArea, Off, Entry, Links, Area, EntryBody, Pad83, Shown;
    LinkParts(g, fat, ns, c);
    AreaParts(g, img, ns, c, parent);
    EntryFinds(g, img, fat, ns[0], c, OwnArea(ns[0], g, parent));
  }

  lemma {:induction false} ConsBack(g: Geo, img: seq<byte>, fat: seq<byte>, ns: seq<Node>, depth: nat)
    requires Ready(ns) && |g.stamp| == 4 && ns != [] && Plain1(ns[0])
    requires ReadNode(g, img, fat, Entry(ns[0], g), depth) == Some(Fresh1(ns[0], g))
    requires ReadsBack(g, img, fat, ns[1..], depth)
    ensures ReadsBack(g, img, fat, ns, depth)
  {
    hide ReadDir, ReadNode, Entry, Classify, Fresh1, Ready1, Plain1, Name83;
    forall m: nat ensures ReadDir(g, img, fat, Entries(ns, g) + Zeros(m), depth) == Some(Fresh(ns, g)) {
      var e, tail := Entry(ns[0], g), Entries(ns[1..], g) + Zeros(m);
      EntryFields(ns[0], g);
      ReadItemFirst(g, img, fat, e, tail, depth);
      assert Entries(ns, g) + Zeros(m) == e + tail;
    }
  }

  /** A directory's entries, zeros after them, are read back as the tree they were made from. */
  lemma {:induction false} ReadBack(
    g: Geo, img: seq<byte>, fat: seq<byte>, ns: seq<Node>, c: nat, parent: nat, depth: nat)
    requires Stored(g, img, fat, ns, c, parent) && Readable(ns, g, c, depth)
    ensures ReadsBack(g, img, fat, ns, depth)
    decreases ns
  {
    hide Own, Size, Linked, Laid, Sited, OwnArea, Off, Entry, Links, Area, Plain1, EntryBody, Fresh1, Ready1, Name83,
      Readable, Reached1, Shown;
    if ns == [] {
      forall m: nat ensures ReadDir(g, img, fat, Entries(ns, g) + Zeros(m), depth) == Some(Fresh(ns, g)) {
        ReadZeros(g, img, fat, m, depth);
        assert Entries(ns, g) + Zeros(m) == Zeros(m);
      }
    } else {
      hide ReadsBack, ReadDir, ReadNode;
      var n, own, below := ns[0], Own(ns[0], g), Size(ns[0].kids, g);
      StoredParts(g, img, fat, ns, c, parent);
      ReadableCons(ns, g, c, depth);
      if IsDir(n) {
        ReadBack(g, img, fat, n.kids, c + own, n.clus, depth - 1);
      }
      NodeBack(g, img, fat, n, c, parent, depth);
      ReadBack(g, img, fat, ns[1..], c + own + below, parent, depth);
      ConsBack(g, img, fat, ns, depth);
    }
  }

  // ---- no other tree comes back ------------------------------------------------------------------

  /** A reader finds this node in the entry. */
  predicate Same1(n: Node, m: Option<Node>) {
    m.Some? && n.name == m.value.name && n.data == m.value.data && SameTree(n.kids, m.value.kids)
  }

  predicate SameAll(ns: seq<Node>, ms: Option<seq<Node>>) { ms.Some? && SameTree(ns, ms.value) }

  /** A directory has no more nodes than entries ... */
  lemma {:induction false} NodesFit(g: Geo, img: seq<byte>, fat: seq<byte>, raw: seq<byte>, depth: nat)
    ensures ReadDir(g, img, fat, raw, depth).Some? ==> |ReadDir(g, img, fat, raw, depth).value| * ENTRY <= |raw|
    decreases |raw|
  {
    hide ReadNode;
    if raw != [] {
      NodesFit(g, img, fat, Tail(raw), depth);
    }
  }

  /** ... and none in the zeros after them. */
  lemma {:induction false} NodesCount(g: Geo, img: seq<byte>, fat: seq<byte>, ns: seq<Node>, m: nat, depth: nat)
    requires Ready(ns) && |g.stamp| == 4
    ensures var r := ReadDir(g, img, fat, Entries(ns, g) + Zeros(m), depth); r.Some? ==> |r.value| <= |ns|
  {
    hide ReadNode, Ready1, Entry, Classify, Pad83;
    if ns == [] {
      assert Entries(ns, g) + Zeros(m) == Zeros(m);
      ReadZeros(g, img, fat, m, depth);
    } else {
      var e, tail := Entry(ns[0], g), Entries(ns[1..], g) + Zeros(m);
      assert Entries(ns, g) + Zeros(m) == e + tail;
      assert Head(e + tail) == e && Tail(e + tail) == tail;
      NodesCount(g, img, fat, ns[1..], m, depth);
    }
  }

  /** An entry that is not plain is not read, or under another name. */
  lemma NotPlain(n: Node, g: Geo)
    requires Ready1(n) && !Plain1(n) && |g.stamp| == 4
    ensures var e := Entry(n, g); Classify(e) == Item ==> Name83(e[..11]) != n.name
  {
    hide Name83, Pad83, Canonical;
    NameRoundTrip(n.name);
    if Canonical(n.name) {
      FirstByte(n.name);
      var e := Entry(n, g);
      assert e[0] == e[..11][0];
    }
  }

  /** A file whose last cluster is not seen loses bytes. */
  lemma CutFile(g: Geo, img: seq<byte>, fat: seq<byte>, n: Node, c: nat, parent: nat, depth: nat)
    requires Usable(g) && Ready1(n) && Ready(n.kids) && Plain1(n) && !Reached1(n, g, c) && !IsDir(n) && parent < 65536
    requires EntryBody(g, img, fat, Entry(n, g)) == Some(OwnArea(n, g, parent)[..Shown(n, g, c)])
    ensures !Same1(n, ReadNode(g, img, fat, Entry(n, g), depth))
  {
    hide Entry, Classify, Name83, EntryBody, Canonical, Pad83, OwnArea, Clusters;
    EntryFields(n, g);
    ShownShort(n, g, c);
  }

  lemma ShownShort(n: Node, g: Geo, c: nat)
    requires g.csize > 0 && Ready1(n) && !Reached1(n, g, c) && (IsDir(n) ==> n.kids != [])
    ensures Shown(n, g, c) < Need(n)
  {
    hide Clusters, Pad83;
    ClustersEnough(Need(n), g.csize);
    if Owns(n) {
      MulMono(Seen(c, Own(n, g)), Own(n, g) - 1, g.csize);
    }
  }

  /** A directory whose last cluster is not seen loses entries. */
  lemma CutDir(g: Geo, img: seq<byte>, fat: seq<byte>, n: Node, c: nat, parent: nat, depth: nat)
    requires Usable(g) && Ready1(n) && Ready(n.kids) && !Reached1(n, g, c) && IsDir(n) && parent < 65536
    ensures !SameAll(n.kids, ReadDir(g, img, fat, OwnArea(n, g, parent)[..Shown(n, g, c)], depth))
  {
    hide Entry, Classify, Dots, Entries, ReadDir, Pad83, CutDots, Shown, Own;
    OwnEnough(n, g);
    var k, pad := Shown(n, g, c), Zeros(Own(n, g) * g.csize - Need(n));
    var tail := Entries(n.kids, g) + pad;
    assert OwnArea(n, g, parent) == Dots(n, g, parent) + tail;
    if n.kids == [] {
      NoEntries(g);
      assert tail == pad;
      ReadCutDots(g, img, fat, n, parent, k, pad, depth);
    } else {
      ShownShort(n, g, c);
      if k <= 2 * ENTRY {
        ReadCutDots(g, img, fat, n, parent, k, tail, depth);
      } else {
        var part := tail[..k - 2 * ENTRY];
        assert OwnArea(n, g, parent)[..k] == Dots(n, g, parent) + part;
        ReadDots(g, img, fat, n, parent, part, depth);
        NodesFit(g, img, fat, part, depth);
      }
    }
  }

  ghost predicate Differs(g: Geo, img: seq<byte>, fat: seq<byte>, ns: seq<Node>, depth: nat)
    requires Ready(ns) && |g.stamp| == 4
  {
    forall m: nat :: !SameAll(ns, ReadDir(g, img, fat, Entries(ns, g) + Zeros(m), depth))
  }

  /** One node that is not readable, given that its kids differ when they are not. */
  lemma NodeDiffers(g: Geo, img: seq<byte>, fat: seq<byte>, n: Node, c: nat, parent: nat, depth: nat)
    requires Usable(g) && Ready1(n) && Ready(n.kids) && Plain1(n) && !Readable1(n, g, c, depth) && parent < 65536
    requires EntryBody(g, img, fat, Entry(n, g)) == Some(OwnArea(n, g, parent)[..Shown(n, g, c)])
    requires IsDir(n) && depth > 0 && !Readable(n.kids, g, c + Own(n, g), depth - 1) ==> Differs(g, img, fat, n.kids, depth - 1)
    ensures !Same1(n, ReadNode(g, img, fat, Entry(n, g), depth))
  {
    hide Entry, Classify, Name83, EntryBody, Own, Dots, Entries, Canonical, ReadDir, Pad83, Readable, Reached1, Shown;
    EntryFields(n, g);
    if !Reached1(n, g, c) {
      if IsDir(n) {
        if depth > 0 {
          CutDir(g, img, fat, n, c, parent, depth - 1);
        }
      } else {
        CutFile(g, img, fat, n, c, parent, depth);
      }
    } else if depth > 0 {
      DirShown(g, img, fat, n, c, parent, depth - 1);
    }
  }

  lemma {:induction false} ConsDiffers(g: Geo, img: seq<byte>, fat: seq<byte>, ns: seq<Node>, depth: nat)
    requires Ready(ns) && |g.stamp| == 4 && ns != []
    requires
      || !Plain1(ns[0])
      || !Same1(ns[0], ReadNode(g, img, fat, Entry(ns[0], g), depth))
      || Differs(g, img, fat, ns[1..], depth)
    ensures Differs(g, img, fat, ns, depth)
  {
    hide ReadNode, Entry, Classify, Ready1, Name83, Pad83;
    forall m: nat ensures !SameAll(ns, ReadDir(g, img, fat, Entries(ns, g) + Zeros(m), depth)) {
      FirstDiffers(g, img, fat, ns, m, depth);
    }
  }

  lemma {:induction false} FirstDiffers(g: Geo, img: seq<byte>, fat: seq<byte>, ns: seq<Node>, m: nat, depth: nat)
    requires Ready(ns) && |g.stamp| == 4 && ns != []
    requires
      || !Plain1(ns[0])
      || !Same1(ns[0], ReadNode(g, img, fat, Entry(ns[0], g), depth))
      || !SameAll(ns[1..], ReadDir(g, img, fat, Entries(ns[1..], g) + Zeros(m), depth))
    ensures !SameAll(ns, ReadDir(g, img, fat, Entries(ns, g) + Zeros(m), depth))
  {
    hide ReadDir, Entry, Classify, Ready1, Name83, Pad83, Plain1, EntryBody;
    var e, tail := Entry(ns[0], g), Entries(ns[1..], g) + Zeros(m);
    assert Entries(ns, g) + Zeros(m) == e + tail;
    if Classify(e) == Item {
      ReadItemFirst(g, img, fat, e, tail, depth);
      if !Plain1(ns[0]) {
        NotPlain(ns[0], g);
      }
    } else {
      NodesCount(g, img, fat, ns[1..], m, depth);
      ReadOther(g, img, fat, e, tail, depth);
      if Plain1(ns[0]) {
        EntryFields(ns[0], g);
      }
    }
  }

  lemma ReadOther(g: Geo, img: seq<byte>, fat: seq<byte>, e: seq<byte>, tail: seq<byte>, depth: nat)
    requires |e| == ENTRY && Classify(e) != Item
    ensures ReadDir(g, img, fat, e + tail, depth) == if Classify(e) == End then Some([]) else ReadDir(g, img, fat, tail, depth)
  {
    hide ReadNode;
    assert Head(e + tail) == e && Tail(e + tail) == tail;
  }

  lemma StoredReady(g: Geo, img: seq<byte>, fat: seq<byte>, ns: seq<Node>, c: nat, parent: nat)
    requires Stored(g, img, fat, ns, c, parent)
    ensures Usable(g) && Ready(ns) && parent < 65536 && (ns != [] ==> Ready(ns[0].kids) && Ready(ns[1..]))
  {
  }

  lemma NoneReadable(g: Geo, c: nat, depth: nat)
    requires g.csize > 0
    ensures Readable([], g, c, depth)
  {
  }

  /** The entries of a tree that is not readable are not read back as it. */
  lemma {:induction false} ReadsOther(
    g: Geo, img: seq<byte>, fat: seq<byte>, ns: seq<Node>, c: nat, parent: nat, depth: nat)
    requires Stored(g, img, fat, ns, c, parent) && !Readable(ns, g, c, depth)
    ensures Differs(g, img, fat, ns, depth)
    decreases ns
  {
    hide Own, Size, Linked, Laid, Sited, OwnArea, Off, Entry, Links, Area, Plain1, EntryBody, Ready1, Name83,
      Reached1, Shown, ReadsBack, ReadDir, ReadNode, Differs, SameTree, Stored, Ready, Same1, Plain, Reached;
    StoredReady(g, img, fat, ns, c, parent);
    if ns == [] {
      NoneReadable(g, c, depth);
    } else {
      hide Readable;
      var n, own, below := ns[0], Own(ns[0], g), Size(ns[0].kids, g);
      StoredParts(g, img, fat, ns, c, parent);
      ReadableCons(ns, g, c, depth);
      if Plain1(n) && !Readable1(n, g, c, depth) {
        if IsDir(n) && depth > 0 && !Readable(n.kids, g, c + own, depth - 1) {
          ReadsOther(g, img, fat, n.kids, c + own, n.clus, depth - 1);
        }
        NodeDiffers(g, img, fat, n, c, parent, depth);
      }
      if !Readable(ns[1..], g, c + own + below, depth) {
        ReadsOther(g, img, fat, ns[1..], c + own + below, parent, depth);
      }
      ConsDiffers(g, img, fat, ns, depth);
    }
  }

  /** What is read back is the tree that was written. */
  lemma {:induction false} FreshSame(ns: seq<Node>, g: Geo)
    requires Ready(ns) && |g.stamp| == 4
    ensures SameTree(ns, Fresh(ns, g))
  {
    if ns != [] {
      FreshSame(ns[0].kids, g);
      FreshSame(ns[1..], g);
      assert Fresh(ns, g)[1..] == Fresh(ns[1..], g);
    }
  }

  lemma {:induction false} PlacedSame(a: seq<Node>, b: seq<Node>, t: seq<Node>)
    requires SamePlaced(a, b)
    ensures SameTree(a, t) <==> SameTree(b, t)
  {
    if a != [] && |t| == |a| {
      PlacedSame(a[0].kids, b[0].kids, t[0].kids);
      PlacedSame(a[1..], b[1..], t[1..]);
    }
  }

  // ---- labels ------------------------------------------------------------------------------------

  predicate AreLabels(es: seq<seq<byte>>) {
    forall i :: 0 <= i < |es| ==> |es[i]| == ENTRY && Classify(es[i]) == Label
  }

  lemma {:induction false} SkipLabels(
    g: Geo, img: seq<byte>, fat: seq<byte>, es: seq<seq<byte>>, tail: seq<byte>, depth: nat)
    requires AreLabels(es)
    ensures ReadDir(g, img, fat, Concat(es) + tail, depth) == ReadDir(g, img, fat, tail, depth)
    ensures Labels(Concat(es) + tail) == es + Labels(tail)
  {
    hide ReadDir, ReadNode, Classify;
    if es == [] {
      assert Concat(es) + tail == tail;
    } else {
      assert Concat(es) + tail == es[0] + (Concat(es[1..]) + tail);
      SkipLabels(g, img, fat, es[1..], tail, depth);
      ReadSkipFirst(g, img, fat, es[0], Concat(es[1..]) + tail, depth);
      LabelsFirst(es[0], Concat(es[1..]) + tail);
    }
  }

  lemma LabelsFirst(e: seq<byte>, tail: seq<byte>)
    requires |e| == ENTRY && Classify(e) in {Label, Item}
    ensures Labels(e + tail) == (if Classify(e) == Label then [e] else []) + Labels(tail)
  {
  }

  lemma {:induction false} NoMoreLabels(ns: seq<Node>, g: Geo, m: nat)
    requires Ready(ns) && Plain(ns) && |g.stamp| == 4
    ensures Labels(Entries(ns, g) + Zeros(m)) == []
  {
    hide Entry, Canonical, Pad83, Labels, Classify;
    if ns == [] {
      assert Entries(ns, g) + Zeros(m) == Zeros(m);
      ZerosNoLabels(m);
    } else {
      EntryFields(ns[0], g);
      var tail := Entries(ns[1..], g) + Zeros(m);
      assert Entries(ns, g) + Zeros(m) == Entry(ns[0], g) + tail;
      LabelsFirst(Entry(ns[0], g), tail);
      NoMoreLabels(ns[1..], g, m);
    }
  }

  lemma ZerosNoLabels(m: nat)
    ensures Labels(Zeros(m)) == []
  {
  }

  // ---- the partition -----------------------------------------------------------------------------

  /** The rebuilt partition has the geometry of the old one. */
  lemma SameGeometry(out: seq<byte>, blob: seq<byte>, stamp: seq<byte>)
    requires |out| == |blob| >= 36 && Geometry(blob, stamp).fatOff >= 24
    requires Laid(out, 0, blob[..Min(|blob|, Geometry(blob, stamp).fatOff)])
    ensures Geometry(out, stamp) == Geometry(blob, stamp)
  {
    var k := Min(|blob|, Geometry(blob, stamp).fatOff);
    forall i | 0 <= i < 24 ensures out[i] == blob[i] {
      assert out[i] == out[0..k][i] && blob[i] == blob[..k][i];
    }
  }

  /** The FAT the reader looks at chains the tree. */
  lemma FatLinks(out: seq<byte>, g: Geo, ns: seq<Node>)
    requires g.csize > 0 && g.nfats > 0 && Size(ns, g) <= g.nclus && Words(Table(ns, g)) && FatCopy(out, g, Table(ns, g), 0)
    ensures Linked(FatOf(out, g), 2, Links(ns, g, 2))
  {
    hide Links, Size, Words, U16s;
    var t, fat := Table(ns, g), FatOf(out, g);
    var b := U16s(t);
    assert fat == b + Zeros(g.fatSz - |b|);
    var w := Links(ns, g, 2);
    forall i | 0 <= i < |w| ensures U16(fat, 2 * (2 + i)) == w[i] {
      assert t[2 + i] == w[i];
      assert U16(b, 2 * (2 + i)) == t[2 + i];
      assert fat[2 * (2 + i)] == b[2 * (2 + i)] && fat[2 * (2 + i) + 1] == b[2 * (2 + i) + 1];
    }
  }

  lemma HoldsStored(out: seq<byte>, blob: seq<byte>, g: Geo, labels: seq<byte>, ns: seq<Node>)
    requires Usable(g) && Ready(ns) && Sited(ns, g, 2) && Size(ns, g) <= 65534
    requires Holds(out, blob, g, labels, ns)
    ensures Stored(g, out, FatOf(out, g), ns, 2, 0)
  {
    hide Links, Area, Laid, Linked, Size, Ready, Plain, Sited, FatCopy, Words, Table, Off;
    FatLinks(out, g, ns);
    LaidSplit(out, g.dataOff, Area(ns, g, 0), Zeros(|out| - g.dataOff - |Area(ns, g, 0)|));
    OffFirst(g);
  }

  /** The root directory the reader looks at. */
  lemma HoldsRoot(out: seq<byte>, g: Geo, root: seq<byte>)
    requires |root| <= g.rootSz && Laid(out, g.rootOff, Padded(root, g.rootSz))
    ensures RootOf(out, g) == root + Zeros(g.rootSz - |root|)
  {
  }

  lemma {:induction false} PlacedReadable(a: seq<Node>, b: seq<Node>, g: Geo, c: nat)
    requires SamePlaced(a, b) && g.csize > 0
    ensures (Plain(a) <==> Plain(b)) && Height(b) == Height(a) && (Reached(a, g, c) <==> Reached(b, g, c))
    decreases a
  {
    hide Own, Size, Reached1, Plain1;
    if a != [] {
      PlacedOwn(a[0], b[0], g);
      PlacedOne(a[0], b[0], g, c);
      PlacedCosts(a[0].kids, b[0].kids, g, 0);
      PlacedReadable(a[0].kids, b[0].kids, g, c + Own(a[0], g));
      PlacedReadable(a[1..], b[1..], g, c + Own(a[0], g) + Size(a[0].kids, g));
    }
  }

  lemma PlacedOne(n: Node, m: Node, g: Geo, c: nat)
    requires m == n.(clus := m.clus, kids := m.kids) && |m.kids| == |n.kids| && g.csize > 0
    ensures (Reached1(n, g, c) <==> Reached1(m, g, c)) && (Plain1(n) <==> Plain1(m)) && (IsDir(n) <==> IsDir(m))
  {
    hide Canonical, Own, CutDots;
    PlacedOwn(n, m, g);
  }

  /** The parse of a partition that holds a tree, in terms of its root entries. */
  lemma ParseRoot(out: seq<byte>, blob: seq<byte>, stamp: seq<byte>, labels: seq<seq<byte>>, ns: seq<Node>, depth: nat) returns (m: nat)
    requires |blob| >= 36 && Usable(Geometry(blob, stamp)) && AreLabels(labels)
    requires var g := Geometry(blob, stamp); Ready(ns) && Holds(out, blob, g, Concat(labels), ns)
    ensures var g := Geometry(blob, stamp);
      var kids, p := ReadDir(g, out, FatOf(out, g), Entries(ns, g) + Zeros(m), depth), Parse(out, stamp, depth);
      && |out| == |blob| && (p.Some? <==> kids.Some?)
      && (p.Some? ==> p.value == Part(labels + Labels(Entries(ns, g) + Zeros(m)), kids.value))
  {
    hide ReadDir, Labels, Laid, Size, Ready, FatCopy, Words, Table, Off, Area, Entries, Geometry, Concat, AreLabels,
      FatOf, RootOf;
    var g := Geometry(blob, stamp);
    SameGeometry(out, blob, stamp);
    m := g.rootSz - |Concat(labels)| - |Entries(ns, g)|;
    HoldsRoot(out, g, Concat(labels) + Entries(ns, g));
    assert RootOf(out, g) == Concat(labels) + (Entries(ns, g) + Zeros(m));
    SkipLabels(g, out, FatOf(out, g), labels, Entries(ns, g) + Zeros(m), depth);
  }

  /** A partition that holds a readable tree is parsed as that tree, with its labels. */
  lemma ParseHolds(out: seq<byte>, blob: seq<byte>, stamp: seq<byte>, labels: seq<seq<byte>>, ns: seq<Node>, depth: nat)
    requires |blob| >= 36 && Usable(Geometry(blob, stamp)) && AreLabels(labels)
    requires var g := Geometry(blob, stamp);
      && Ready(ns) && Sited(ns, g, 2) && Size(ns, g) <= 65534 && Readable(ns, g, 2, depth)
      && Holds(out, blob, g, Concat(labels), ns)
    ensures Parse(out, stamp, depth) == Some(Part(labels, Fresh(ns, Geometry(blob, stamp))))
  {
    hide ReadDir, Labels, Laid, Linked, Size, Ready, Plain, Reached, Sited, FatCopy, Words, Table, Off, Area, Entries, Fresh,
      Geometry, Concat, AreLabels, Height, FatOf, RootOf, Parse, Holds;
    var g := Geometry(blob, stamp);
    HoldsStored(out, blob, g, Concat(labels), ns);
    var m := ParseRoot(out, blob, stamp, labels, ns, depth);
    ReadBack(g, out, FatOf(out, g), ns, 2, 0, depth);
    assert ReadDir(g, out, FatOf(out, g), Entries(ns, g) + Zeros(m), depth) == Some(Fresh(ns, g));
    NoMoreLabels(ns, g, m);
    assert labels + [] == labels;
  }

  /** Any other tree is not: the parse fails or gives another tree. */
  lemma ParseDiffers(out: seq<byte>, blob: seq<byte>, stamp: seq<byte>, labels: seq<seq<byte>>, ns: seq<Node>, depth: nat)
    requires |blob| >= 36 && Usable(Geometry(blob, stamp)) && AreLabels(labels)
    requires var g := Geometry(blob, stamp);
      && Ready(ns) && Sited(ns, g, 2) && Size(ns, g) <= 65534 && !Readable(ns, g, 2, depth)
      && Holds(out, blob, g, Concat(labels), ns)
    ensures !ReadsAs(out, stamp, depth, labels, ns)
  {
    hide ReadDir, Labels, Laid, Linked, Size, Ready, Readable, Sited, FatCopy, Words, Table, Off, Area, Entries,
      Geometry, Concat, AreLabels, FatOf, RootOf, Parse, Holds, SameTree;
    var g := Geometry(blob, stamp);
    HoldsStored(out, blob, g, Concat(labels), ns);
    var m := ParseRoot(out, blob, stamp, labels, ns, depth);
    ReadsOther(g, out, FatOf(out, g), ns, 2, 0, depth);
    assert !SameAll(ns, ReadDir(g, out, FatOf(out, g), Entries(ns, g) + Zeros(m), depth));
  }

  /** Parsing gives these labels and this ordered tree. */
  predicate ReadsAs(img: seq<byte>, stamp: seq<byte>, depth: nat, labels: seq<seq<byte>>, ns: seq<Node>) {
    && |img| >= 36
    && var p := Parse(img, stamp, depth);
       p.Some? && p.value.labels == labels && SameTree(ns, p.value.kids)
  }

  /** Rebuild and re-read.  The rebuilt partition parses as the same ordered tree with the same labels, old entries
      keeping their time stamps, exactly when the tree is readable. */
  method Rebuild(blob: seq<byte>, stamp: seq<byte>, labels: seq<seq<byte>>, ns: seq<Node>, depth: nat)
    returns (r: Option<seq<byte>>)
    requires |blob| >= 36 && Usable(Geometry(blob, stamp)) && Tidy(ns)
    ensures var g := Geometry(blob, stamp);
      r.Some? <==> Size(ns, g) <= g.nclus && Size(ns, g) <= 65534 && Named(ns) && |Concat(labels)| + |ns| * ENTRY <= g.rootSz
    ensures r.Some? && AreLabels(labels) ==>
      |r.value| == |blob| && (ReadsAs(r.value, stamp, depth, labels, ns) <==> Readable(ns, Geometry(blob, stamp), 2, depth))
  {
    hide Size, Named, Concat, Sited, Ready, Plain, Reached, Height, AreLabels, Parse, Geometry, SamePlaced, SameTree, Tidy;
    var placed;
    r, placed := Build(blob, stamp, labels, ns);
    ghost var g := Geometry(blob, stamp);
    if r.Some? && AreLabels(labels) {
      PlacedReadable(ns, placed, g, 2);
      PlacedCosts(ns, placed, g, 2);
      SameAsPlaced(r.value, stamp, depth, labels, ns, placed);
      if Readable(ns, g, 2, depth) {
        ParseHolds(r.value, blob, stamp, labels, placed, depth);
        FreshSame(placed, g);
      } else {
        ParseDiffers(r.value, blob, stamp, labels, placed, depth);
      }
    }
  }

  lemma SameAsPlaced(img: seq<byte>, stamp: seq<byte>, depth: nat, labels: seq<seq<byte>>, ns: seq<Node>, placed: seq<Node>)
    requires SamePlaced(ns, placed)
    ensures ReadsAs(img, stamp, depth, labels, ns) <==> ReadsAs(img, stamp, depth, labels, placed)
  {
    hide Parse;
    if |img| >= 36 && Parse(img, stamp, depth).Some? {
      PlacedSame(ns, placed, Parse(img, stamp, depth).value.kids);
    }
  }

  // ---- who owns which cluster --------------------------------------------------------------------

  /** The chains of all nodes, in preorder. */
  function AllChains(fat: seq<byte>, ns: seq<Node>): Option<seq<int>> {
    if ns == [] then Some([])
    else
      var a, b, c := Chain(fat, ns[0].clus, 0), AllChains(fat, ns[0].kids), AllChains(fat, ns[1..]);
      if a.Some? && b.Some? && c.Some? then Some(a.value + b.value + c.value) else None
  }

  /** Walking every node's chain meets every allocated cluster exactly once. */
  lemma {:induction false} ClustersOnce(g: Geo, fat: seq<byte>, ns: seq<Node>, c: nat)
    requires g.csize > 0 && Sited(ns, g, c) && 2 <= c && c + Size(ns, g) <= 0xFFF0
    requires Linked(fat, c, Links(ns, g, c))
    ensures AllChains(fat, ns) == Some(Upto(c, Size(ns, g)))
    decreases ns
  {
    hide Clusters, Links, Linked, Chain, Chained, Size, Upto;
    if ns == [] {
      assert Upto(c, Size(ns, g)) == [] by { PlacedNone(g, c); }
    } else {
      var n, own, below := ns[0], Own(ns[0], g), Size(ns[0].kids, g);
      LinkParts(g, fat, ns, c);
      SizeCons(ns, g, c);
      if Owns(n) {
        ChainWalk(fat, c, own, 0);
      } else {
        NoChain(fat, c);
      }
      ClustersOnce(g, fat, n.kids, c + own);
      ClustersOnce(g, fat, ns[1..], c + own + below);
      UptoAdd(c, own, below, Size(ns[1..], g));
    }
  }

  lemma UptoAdd(c: nat, x: nat, y: nat, z: nat)
    ensures Upto(c, x) + Upto(c + x, y) + Upto(c + x + y, z) == Upto(c, x + y + z)
  {
  }

  lemma NoChain(fat: seq<byte>, c: nat)
    ensures Chain(fat, 0, 0) == Some(Upto(c, 0))
  {
  }

  /** In a rebuilt partition every cluster from 2 up to the tree's size is in the chain of one node, and found there as far
      as readers go; every other one is free, and the FATs are equal. */
  lemma OneOwnerEach(out: seq<byte>, blob: seq<byte>, g: Geo, labels: seq<byte>, ns: seq<Node>)
    requires Usable(g) && Ready(ns) && Sited(ns, g, 2)
    requires Holds(out, blob, g, labels, ns)
    ensures Linked(FatOf(out, g), 2, Links(ns, g, 2))
    ensures Size(ns, g) <= 65518 ==> AllChains(FatOf(out, g), ns) == Some(Upto(2, Size(ns, g)))
    ensures forall c :: 2 + Size(ns, g) <= c < 2 + g.nclus ==> 2 * c + 2 <= |FatOf(out, g)| && U16(FatOf(out, g), 2 * c) == 0
    ensures forall i :: 0 <= i < g.nfats ==> Laid(out, g.fatOff + i * g.fatSz, FatOf(out, g))
  {
    hide Links, Area, Size, Ready, Sited, Words, Off, Entries, AllChains, U16s, Linked, Padded;
    assert FatCopy(out, g, Table(ns, g), 0);
    FatLinks(out, g, ns);
    if Size(ns, g) <= 65518 {
      ClustersOnce(g, FatOf(out, g), ns, 2);
    }
    FirstFat(out, g, Table(ns, g));
    forall c | 2 + Size(ns, g) <= c < 2 + g.nclus
      ensures 2 * c + 2 <= |FatOf(out, g)| && U16(FatOf(out, g), 2 * c) == 0
    {
      PaddedWord(Table(ns, g), g.fatSz, c);
    }
    forall i | 0 <= i < g.nfats ensures Laid(out, g.fatOff + i * g.fatSz, FatOf(out, g)) {
      assert FatCopy(out, g, Table(ns, g), i);
    }
  }

  lemma FirstFat(out: seq<byte>, g: Geo, table: seq<int>)
    requires Words(table) && FatCopy(out, g, table, 0)
    ensures FatOf(out, g) == Padded(U16s(table), g.fatSz)
  {
  }

  lemma PaddedWord(ws: seq<int>, len: nat, c: nat)
    requires Words(ws) && 2 * |ws| <= len && c < |ws|
    ensures U16(Padded(U16s(ws), len), 2 * c) == ws[c]
  {
    hide Words;
    assert U16(U16s(ws), 2 * c) == ws[c];
  }

  /** A single file of more than 65,518 clusters is not readable, whatever its name. */
  lemma LongFileIsCut(g: Geo, n: Node, depth: nat)
    requires g.csize > 0 && !IsDir(n) && |n.data| > 65518 * g.csize
    ensures !Readable([n], g, 2, depth)
  {
    hide Clusters, Plain, Height;
    ClustersEnough(|n.data|, g.csize);
    if Own(n, g) <= 65518 {
      MulMono(Own(n, g), 65518, g.csize);
    }
  }
}
