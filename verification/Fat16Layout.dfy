/** The tree of an Atari FAT16 partition and where build() puts it (scripts/atari_fat16.py). */
module Fat16Layout {
  import opened Wire
  import opened Bytes
  import opened Fat16Names

  /** A file or directory.  `raw` is the 32-byte entry it was read from, or empty for a new one; `clus` is its first
      cluster, once it has been placed. */
  datatype Node = Node(name: seq<byte>, attr: byte, raw: seq<byte>, data: seq<byte>, kids: seq<Node>, clus: nat)

  predicate IsDirAttr(a: byte) { a / 16 % 2 == 1 }
  predicate IsLabelAttr(a: byte) { a / 8 % 2 == 1 }
  predicate IsDir(n: Node) { IsDirAttr(n.attr) }

  // ---- geometry ----------------------------------------------------------------------------------

  /** Sizes and offsets in bytes, and the time stamp that new entries get. */
  datatype Geo = Geo(
    csize: nat, nclus: int, nfats: nat, fatSz: nat, rootSz: nat,
    fatOff: nat, rootOff: nat, dataOff: nat, media: byte, stamp: seq<byte>)

  function Min(a: int, b: int): int { if a < b then a else b }

  /** Part.__init__ */
  function Geometry(blob: seq<byte>, stamp: seq<byte>): Geo
    requires |blob| >= 36
  {
    var bps, spc, res, nfats, nroot := U16(blob, 11), blob[13], U16(blob, 14), blob[16], U16(blob, 17);
    var fatSz, csize, fatOff := U16(blob, 22) * bps, spc * bps, res * bps;
    var rootOff := fatOff + nfats * fatSz;
    var dataOff := rootOff + nroot * ENTRY;
    var nclus := if csize == 0 then -1 else Min((|blob| - dataOff) / csize, fatSz / 2 - 2);
    Geo(csize, nclus, nfats, fatSz, nroot * ENTRY, fatOff, rootOff, dataOff, blob[21], stamp)
  }

  /** Where a boot sector keeps the sizes, and what they make of the partition: the FATs begin after the reserved sectors,
      the root directory after the FATs, the clusters after the root directory; and n clusters are numbered exactly when
      the partition and the FAT have room for them. */
  lemma GeometryMeans(blob: seq<byte>, stamp: seq<byte>, n: int,
    bps: nat, spc: byte, res: nat, nfats: byte, nroot: nat, media: byte, fatsz: nat)
    requires |blob| >= 36 && bps < 65536 && res < 65536 && nroot < 65536 && fatsz < 65536
    requires Laid(blob, 11, [bps % 256, bps / 256]) && Laid(blob, 13, [spc]) && Laid(blob, 14, [res % 256, res / 256])
    requires Laid(blob, 16, [nfats]) && Laid(blob, 17, [nroot % 256, nroot / 256]) && Laid(blob, 21, [media])
    requires Laid(blob, 22, [fatsz % 256, fatsz / 256])
    ensures var g := Geometry(blob, stamp);
      && g.csize == spc * bps && g.nfats == nfats && g.fatSz == fatsz * bps && g.rootSz == 32 * nroot
      && g.fatOff == res * bps && g.rootOff == res * bps + nfats * (fatsz * bps) && g.dataOff == g.rootOff + 32 * nroot
      && g.media == media && g.stamp == stamp
      && (g.csize > 0 ==> (n <= g.nclus <==> g.dataOff + n * g.csize <= |blob| && 2 * (n + 2) <= g.fatSz))
  {
    Word(blob, 11, bps);
    Word(blob, 14, res);
    Word(blob, 17, nroot);
    Word(blob, 22, fatsz);
    assert blob[13] == blob[13..14][0] && blob[16] == blob[16..17][0] && blob[21] == blob[21..22][0];
    var g := Geometry(blob, stamp);
    if g.csize > 0 {
      Quotient(|blob| - g.dataOff, g.csize, n);
    }
  }

  lemma Word(blob: seq<byte>, o: nat, v: nat)
    requires v < 65536 && Laid(blob, o, [v % 256, v / 256])
    ensures o + 2 <= |blob| && U16(blob, o) == v
  {
    assert blob[o] == blob[o..o + 2][0] && blob[o + 1] == blob[o..o + 2][1];
  }

  lemma Quotient(a: int, k: nat, n: int)
    requires k > 0
    ensures n <= a / k <==> n * k <= a
  {
    DivMul(a, k);
    if n <= a / k {
      MulMono(n, a / k, k);
    } else {
      MulMono(a / k + 1, n, k);
      assert a < (a / k + 1) * k;
    }
  }

  /** A partition that build() can lay out: clusters have a size, the FAT is there, and the boot sector is not inside it. */
  predicate Usable(g: Geo) { g.csize > 0 && 0 <= g.nclus && g.nfats > 0 && g.fatOff >= 24 && |g.stamp| == 4 }

  function Off(g: Geo, c: int): int { g.dataOff + (c - 2) * g.csize }

  /** The regions follow each other, and the clusters lie inside the partition. */
  predicate Regions(g: Geo, len: nat) {
    && g.rootOff == g.fatOff + g.nfats * g.fatSz && g.dataOff == g.rootOff + g.rootSz
    && 2 * (g.nclus + 2) <= g.fatSz && Off(g, g.nclus + 2) <= len
    && g.rootSz % ENTRY == 0
  }

  lemma GeometryRegions(blob: seq<byte>, stamp: seq<byte>)
    requires |blob| >= 36 && Usable(Geometry(blob, stamp))
    ensures Regions(Geometry(blob, stamp), |blob|)
  {
    var g := Geometry(blob, stamp);
    var room := |blob| - g.dataOff;
    DivMul(room, g.csize);
    MulMono(g.nclus, room / g.csize, g.csize);
  }

  lemma DivMul(a: int, k: nat)
    requires k > 0
    ensures a / k * k <= a
  {
  }

  lemma MulMono(a: int, b: int, k: nat)
    requires a <= b
    ensures a * k <= b * k
  {
  }

  lemma MulAdd(a: int, b: int, k: int)
    ensures (a + b) * k == a * k + b * k
  {
  }

  lemma MulAdd3(a: int, b: int, c: int, k: int)
    ensures (a + b + c) * k == a * k + b * k + c * k
  {
  }

  /** Off moves by whole clusters. */
  lemma OffAdd(g: Geo, c: int, n: int)
    ensures Off(g, c + n) == Off(g, c) + n * g.csize
  {
  }

  // ---- how many clusters -------------------------------------------------------------------------

  /** max(1, ceil(bytes / csize)) */
  function Clusters(bytes: nat, csize: nat): (n: nat)
    requires csize > 0
    ensures n >= 1
  {
    var n := (bytes + csize - 1) / csize;
    if n < 1 then 1 else n
  }

  /** Enough clusters, and not one too many. */
  lemma ClustersEnough(bytes: nat, csize: nat)
    requires csize > 0
    ensures bytes <= Clusters(bytes, csize) * csize
    ensures bytes > 0 ==> (Clusters(bytes, csize) - 1) * csize < bytes
  {
  }

  predicate Owns(n: Node) { IsDir(n) || n.data != [] }

  /** The bytes a node keeps in its clusters; a directory has two entries of its own. */
  function Need(n: Node): nat { if IsDir(n) then (|n.kids| + 2) * ENTRY else |n.data| }

  function Own(n: Node, g: Geo): nat
    requires g.csize > 0
  {
    if Owns(n) then Clusters(Need(n), g.csize) else 0
  }

  lemma OwnEnough(n: Node, g: Geo)
    requires g.csize > 0
    ensures Need(n) <= Own(n, g) * g.csize
  {
    ClustersEnough(Need(n), g.csize);
  }

  /** All clusters of a list of nodes and everything below them. */
  function Size(ns: seq<Node>, g: Geo): nat
    requires g.csize > 0
  {
    if ns == [] then 0 else Own(ns[0], g) + Size(ns[0].kids, g) + Size(ns[1..], g)
  }

  lemma {:induction false} SizeBytes(ns: seq<Node>, g: Geo)
    requires g.csize > 0 && ns != []
    ensures Size(ns, g) * g.csize ==
            Own(ns[0], g) * g.csize + Size(ns[0].kids, g) * g.csize + Size(ns[1..], g) * g.csize
  {
    hide Own;
    MulAdd3(Own(ns[0], g), Size(ns[0].kids, g), Size(ns[1..], g), g.csize);
  }

  // ---- what is well formed -----------------------------------------------------------------------

  /** Files have no kids, directories no bytes, and an old entry is 32 bytes. */
  predicate Tidy(ns: seq<Node>) {
    ns == [] ||
    (var n := ns[0];
     && (if IsDir(n) then n.data == [] else n.kids == [])
     && (n.raw == [] || |n.raw| == ENTRY)
     && Tidy(n.kids) && Tidy(ns[1..]))
  }

  /** pad83 takes every name, and every length has 32 bits. */
  predicate Named(ns: seq<Node>) {
    ns == [] || (Pad83(ns[0].name).Some? && |ns[0].data| < 0x1_0000_0000 && Named(ns[0].kids) && Named(ns[1..]))
  }

  /** Every first cluster has 16 bits. */
  predicate Small(ns: seq<Node>) { ns == [] || (ns[0].clus < 65536 && Small(ns[0].kids) && Small(ns[1..])) }

  predicate Plain1(n: Node) {
    Canonical(n.name) && n.name[0] != 0 && n.name[0] != 0xE5 && !IsLabelAttr(n.attr)
  }

  /** Names that survive, that no reader takes for a deleted entry or the end, and no label attribute. */
  predicate Plain(ns: seq<Node>) {
    ns == [] ||
    (var n := ns[0];
     && Plain1(n) && Plain(n.kids) && Plain(ns[1..]))
  }

  /** The nodes occupy consecutive clusters from c on, in preorder. */
  predicate Sited(ns: seq<Node>, g: Geo, c: nat)
    requires g.csize > 0
  {
    ns == [] ||
    (var n := ns[0];
     && n.clus == (if Owns(n) then c else 0)
     && Sited(n.kids, g, c + Own(n, g))
     && Sited(ns[1..], g, c + Own(n, g) + Size(n.kids, g)))
  }

  /** b is a with its nodes placed. */
  predicate SamePlaced(a: seq<Node>, b: seq<Node>) {
    |a| == |b| &&
    (a == [] ||
     (&& b[0] == a[0].(clus := b[0].clus, kids := b[0].kids)
      && SamePlaced(a[0].kids, b[0].kids) && SamePlaced(a[1..], b[1..])))
  }

  /** b is the same ordered tree as a: names, attributes and bytes; and an entry that was there before keeps its time
      stamp and reserved bytes. */
  predicate SameTree(a: seq<Node>, b: seq<Node>) {
    |a| == |b| &&
    (a == [] ||
     (&& a[0].name == b[0].name && a[0].attr == b[0].attr && a[0].data == b[0].data
      && (|a[0].raw| == ENTRY ==> |b[0].raw| == ENTRY && b[0].raw[12..26] == a[0].raw[12..26])
      && SameTree(a[0].kids, b[0].kids) && SameTree(a[1..], b[1..])))
  }

  // ---- the bytes ---------------------------------------------------------------------------------

  /** Everything an entry needs is in range. */
  predicate Ready1(n: Node) {
    && Pad83(n.name).Some? && n.clus < 65536 && |n.data| < 0x1_0000_0000
    && (n.raw == [] || |n.raw| == ENTRY)
    && (if IsDir(n) then n.data == [] else n.kids == [])
  }

  predicate Ready(ns: seq<Node>) {
    ns == [] || (Ready1(ns[0]) && Ready(ns[0].kids) && Ready(ns[1..]))
  }

  function Entry(n: Node, g: Geo): (e: seq<byte>)
    requires Ready1(n) && |g.stamp| == 4
    ensures |e| == ENTRY
  {
    Dirent(Pad83(n.name).value, n.attr, n.clus, if IsDir(n) then 0 else |n.data|, n.raw, g.stamp)
  }

  function Entries(ns: seq<Node>, g: Geo): (r: seq<byte>)
    requires Ready(ns) && |g.stamp| == 4
    ensures |r| == |ns| * ENTRY
  {
    if ns == [] then [] else Entry(ns[0], g) + Entries(ns[1..], g)
  }

  function Dots(n: Node, g: Geo, parent: nat): (r: seq<byte>)
    requires Ready1(n) && parent < 65536 && |g.stamp| == 4
    ensures |r| == 2 * ENTRY
  {
    Dirent([DOT] + Spaces(10), 16, n.clus, 0, n.raw, g.stamp) +
    Dirent([DOT, DOT] + Spaces(9), 16, parent, 0, n.raw, g.stamp)
  }

  /** The first entry of a directory names its own first cluster, the second that of the directory above it. */
  lemma DotsMean(n: Node, g: Geo, parent: nat)
    requires Ready1(n) && parent < 65536 && |g.stamp| == 4
    ensures var d, dd := Dots(n, g, parent)[..ENTRY], Dots(n, g, parent)[ENTRY..];
      && d[..11] == [46, 32, 32, 32, 32, 32, 32, 32, 32, 32, 32] && d[11] == 0x10 && U16(d, 26) == n.clus && G4(d, 28) == 0
      && dd[..11] == [46, 46, 32, 32, 32, 32, 32, 32, 32, 32, 32] && dd[11] == 0x10 && U16(dd, 26) == parent && G4(dd, 28) == 0
  {
    hide Pad83;
    var d, dd := Dirent([DOT] + Spaces(10), 16, n.clus, 0, n.raw, g.stamp), Dirent([DOT, DOT] + Spaces(9), 16, parent, 0, n.raw, g.stamp);
    hide Dirent;
    assert Dots(n, g, parent)[..ENTRY] == d && Dots(n, g, parent)[ENTRY..] == dd;
  }

  /** What emit puts into the node's clusters. */
  function Content(n: Node, g: Geo, parent: nat): (r: seq<byte>)
    requires Ready1(n) && Ready(n.kids) && parent < 65536 && |g.stamp| == 4
    ensures |r| == Need(n)
  {
    if IsDir(n) then Dots(n, g, parent) + Entries(n.kids, g) else n.data
  }

  function OwnArea(n: Node, g: Geo, parent: nat): (r: seq<byte>)
    requires Ready1(n) && Ready(n.kids) && parent < 65536 && |g.stamp| == 4 && g.csize > 0
    ensures |r| == Own(n, g) * g.csize
  {
    OwnEnough(n, g);
    Padded(Content(n, g, parent), Own(n, g) * g.csize)
  }

  /** The clusters of the nodes, in order. */
  function Area(ns: seq<Node>, g: Geo, parent: nat): (r: seq<byte>)
    requires Ready(ns) && parent < 65536 && |g.stamp| == 4 && g.csize > 0
    ensures |r| == Size(ns, g) * g.csize
    decreases ns
  {
    if ns == [] then []
    else
      SizeBytes(ns, g);
      OwnArea(ns[0], g, parent) + Area(ns[0].kids, g, ns[0].clus) + Area(ns[1..], g, parent)
  }

  /** One contiguous chain. */
  function Chained(c: nat, n: nat): (r: seq<int>)
    ensures |r| == n
  {
    seq(n, i => if i == n - 1 then 0xFFFF else c + i + 1)
  }

  /** The FAT entries of the nodes' clusters, in order. */
  function Links(ns: seq<Node>, g: Geo, c: nat): (r: seq<int>)
    requires g.csize > 0
    ensures |r| == Size(ns, g)
    decreases ns
  {
    if ns == [] then []
    else
      var own, below := Own(ns[0], g), Size(ns[0].kids, g);
      Chained(c, own) + Links(ns[0].kids, g, c + own) + Links(ns[1..], g, c + own + below)
  }

  predicate Words(ws: seq<int>) { forall i :: 0 <= i < |ws| ==> 0 <= ws[i] < 65536 }

  function U16s(ws: seq<int>): (r: seq<byte>)
    requires Words(ws)
    ensures |r| == 2 * |ws|
    ensures forall i :: 0 <= i < |ws| ==> U16(r, 2 * i) == ws[i]
  {
    if ws == [] then [] else
      var r := P16(ws[0]) + U16s(ws[1..]);
      assert forall i :: 0 < i < |ws| ==> U16(r, 2 * i) == U16(U16s(ws[1..]), 2 * (i - 1));
      r
  }

  /** The whole table for a tree laid out from cluster 2. */
  function Table(ns: seq<Node>, g: Geo): (r: seq<int>)
    requires g.csize > 0 && Size(ns, g) <= g.nclus
    ensures |r| == g.nclus + 2
  {
    [0xFF00 + (g.media as int), 0xFFFF] + Links(ns, g, 2) + seq(g.nclus - Size(ns, g), _ => 0)
  }

  function Concat(es: seq<seq<byte>>): seq<byte> {
    if es == [] then [] else es[0] + Concat(es[1..])
  }

  /** out is the partition blob rebuilt to hold the placed tree ns with the given label entries: the reserved sectors
      as they were, equal FATs, the root directory, the clusters in use, and nothing else. */
  predicate Holds(out: seq<byte>, blob: seq<byte>, g: Geo, labels: seq<byte>, ns: seq<Node>)
    requires Usable(g) && Ready(ns)
  {
    && |out| == |blob|
    && g.fatOff <= |blob| && Laid(out, 0, blob[..g.fatOff])
    && Size(ns, g) <= g.nclus && Words(Table(ns, g))
    && (forall i :: 0 <= i < g.nfats ==> FatCopy(out, g, Table(ns, g), i))
    && |labels| + |ns| * ENTRY <= g.rootSz
    && Laid(out, g.rootOff, Padded(labels + Entries(ns, g), g.rootSz))
    && g.dataOff + |Area(ns, g, 0)| <= |out|
    && Laid(out, g.dataOff, Area(ns, g, 0) + Zeros(|out| - g.dataOff - |Area(ns, g, 0)|))
  }

  /** The i-th copy of the FAT holds the table, and zeros after it. */
  predicate FatCopy(out: seq<byte>, g: Geo, table: seq<int>, i: nat)
    requires Words(table)
  {
    var o := g.fatOff + i * g.fatSz;
    2 * |table| <= g.fatSz && Laid(out, o, Padded(U16s(table), g.fatSz))
  }
}
