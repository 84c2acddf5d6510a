/** Part.build: laying a tree out in an Atari FAT16 partition (scripts/atari_fat16.py). */
module Fat16Writer {
  import opened Wire
  import opened Bytes
  import opened Fat16Names
  import opened Fat16Layout

  // ---- clusters ----------------------------------------------------------------------------------

  /** Clusters nxt on, chained, in the FAT; full when they do not all exist. */
  method Alloc(fat: array<int>, nxt: nat, bytes: nat, g: Geo) returns (ok: bool, next: nat)
    requires Usable(g) && fat.Length == g.nclus + 2 && 2 <= nxt <= fat.Length
    modifies fat
    ensures ok <==> nxt + Clusters(bytes, g.csize) <= fat.Length
    ensures ok ==> next == nxt + Clusters(bytes, g.csize)
    ensures ok ==> fat[..] == old(fat[..nxt]) + Chained(nxt, next - nxt) + old(fat[next..])
  {
    hide Clusters;
    var n := Clusters(bytes, g.csize);
    if nxt + n - 2 > g.nclus {
      return false, nxt;
    }
    var c := nxt;
    while c < nxt + n
      invariant nxt <= c <= nxt + n
      invariant forall i :: nxt <= i < c ==> fat[i] == i + 1
      invariant forall i :: 0 <= i < fat.Length && !(nxt <= i < c) ==> fat[i] == old(fat[i])
    {
      fat[c] := c + 1;
      c := c + 1;
    }
    fat[nxt + n - 1] := 0xFFFF;
    ok, next := true, nxt + n;
    assert fat[..nxt] == old(fat[..nxt]) && fat[next..] == old(fat[next..]);
    assert fat[nxt..next] == Chained(nxt, n);
    assert fat[..] == fat[..nxt] + fat[nxt..next] + fat[next..];
  }

  /** place, on a list of nodes: they and everything below them get clusters from nxt on, in preorder. */
  method Place(ns: seq<Node>, fat: array<int>, nxt: nat, g: Geo) returns (ok: bool, next: nat, placed: seq<Node>)
    requires Usable(g) && fat.Length == g.nclus + 2 && 2 <= nxt <= fat.Length
    modifies fat
    ensures ok <==> nxt + Size(ns, g) <= fat.Length
    ensures ok ==> next == nxt + Size(ns, g)
    ensures ok ==> fat[..] == old(fat[..nxt]) + Links(ns, g, nxt) + old(fat[next..])
    ensures ok ==> SamePlaced(ns, placed) && Sited(placed, g, nxt)
    decreases ns
  {
    hide Clusters, Chained, Size, Links, Sited, SamePlaced, Own, Owns;
    if ns == [] {
      PlacedNone(g, nxt);
      assert fat[..] == fat[..nxt] + [] + fat[nxt..];
      return true, nxt, [];
    }
    SizeCons(ns, g, nxt);
    var n, a := ns[0], nxt;
    if Owns(n) {
      ok, a := Alloc(fat, nxt, Need(n), g);
      if !ok {
        return false, nxt, [];
      }
    } else {
      assert fat[..] == fat[..nxt] + Chained(nxt, 0) + fat[nxt..];
    }
    ghost var f1 := fat[..];
    var b, kids, rest;
    ok, b, kids := Place(n.kids, fat, a, g);
    if !ok {
      return false, nxt, [];
    }
    ghost var f2 := fat[..];
    ok, next, rest := Place(ns[1..], fat, b, g);
    if !ok {
      return false, nxt, [];
    }
    placed := [n.(clus := if Owns(n) then nxt else 0, kids := kids)] + rest;
    Spliced(old(fat[..]), f1, f2, fat[..], nxt, a, b, next,
      Chained(nxt, a - nxt), Links(n.kids, g, a), Links(ns[1..], g, b));
    PlacedCons(ns, kids, rest, g, nxt);
  }

  lemma PlacedNone(g: Geo, c: nat)
    requires g.csize > 0
    ensures Size([], g) == 0 && Links([], g, c) == [] && Sited([], g, c) && SamePlaced([], [])
  {
  }

  lemma {:induction false} SizeCons(ns: seq<Node>, g: Geo, c: nat)
    requires g.csize > 0 && ns != []
    ensures var n, own, below := ns[0], Own(ns[0], g), Size(ns[0].kids, g);
      && own == (if Owns(n) then Clusters(Need(n), g.csize) else 0)
      && Size(ns, g) == own + below + Size(ns[1..], g)
      && Links(ns, g, c) == Chained(c, own) + Links(n.kids, g, c + own) + Links(ns[1..], g, c + own + below)
  {
    hide Clusters, Chained, Owns, Need, Links;
    LinksCons(ns, g, c);
  }

  lemma {:induction false} LinksCons(ns: seq<Node>, g: Geo, c: nat)
    requires g.csize > 0 && ns != []
    ensures var n, own, below := ns[0], Own(ns[0], g), Size(ns[0].kids, g);
      Links(ns, g, c) == Chained(c, own) + Links(n.kids, g, c + own) + Links(ns[1..], g, c + own + below)
  {
    hide Chained, Own, Size;
  }

  lemma {:induction false} PlacedCons(ns: seq<Node>, kids: seq<Node>, rest: seq<Node>, g: Geo, c: nat)
    requires g.csize > 0 && ns != []
    requires SamePlaced(ns[0].kids, kids) && Sited(kids, g, c + Own(ns[0], g))
    requires SamePlaced(ns[1..], rest) && Sited(rest, g, c + Own(ns[0], g) + Size(ns[0].kids, g))
    ensures var placed := [ns[0].(clus := if Owns(ns[0]) then c else 0, kids := kids)] + rest;
      SamePlaced(ns, placed) && Sited(placed, g, c)
  {
    hide Clusters, Own, Owns, Size, Links;
    var m := ns[0].(clus := if Owns(ns[0]) then c else 0, kids := kids);
    assert ([m] + rest)[1..] == rest;
    PlacedOwn(ns[0], m, g);
    PlacedCosts(ns[0].kids, kids, g, 0);
  }

  lemma Spliced(f0: seq<int>, f1: seq<int>, f2: seq<int>, f3: seq<int>, i: nat, j: nat, k: nat, l: nat,
    x: seq<int>, y: seq<int>, z: seq<int>)
    requires i <= j <= k <= l <= |f0| && |x| == j - i && |y| == k - j && |z| == l - k
    requires f1 == f0[..i] + x + f0[j..] && f2 == f1[..j] + y + f1[k..] && f3 == f2[..k] + z + f2[l..]
    ensures f3 == f0[..i] + (x + y + z) + f0[l..]
  {
  }

  lemma {:induction false} PlacedCosts(a: seq<Node>, b: seq<Node>, g: Geo, c: nat)
    requires SamePlaced(a, b) && g.csize > 0
    ensures Size(a, g) == Size(b, g) && Links(a, g, c) == Links(b, g, c)
    decreases a
  {
    hide Clusters, Chained, Own, Size, Links;
    if a == [] {
      PlacedNone(g, c);
    } else {
      PlacedOwn(a[0], b[0], g);
      var own := Own(a[0], g);
      PlacedCosts(a[0].kids, b[0].kids, g, c + own);
      PlacedCosts(a[1..], b[1..], g, c + own + Size(a[0].kids, g));
      SizeCons(a, g, c);
      SizeCons(b, g, c);
    }
  }

  lemma PlacedOwn(n: Node, m: Node, g: Geo)
    requires m == n.(clus := m.clus, kids := m.kids) && |m.kids| == |n.kids| && g.csize > 0
    ensures Own(n, g) == Own(m, g) && Owns(n) == Owns(m)
  {
  }

  // ---- bytes -------------------------------------------------------------------------------------

  /** emit, on a list of placed nodes: their clusters hold exactly their bytes. */
  method Emit(ns: seq<Node>, out: array<byte>, ghost c: nat, parent: nat, g: Geo)
    requires Usable(g) && Ready(ns) && Sited(ns, g, c) && parent < 65536 && c >= 2
    requires Laid(out[..], Off(g, c), Zeros(Size(ns, g) * g.csize))
    modifies out
    ensures out[..] == Over(old(out[..]), Off(g, c), Area(ns, g, parent))
    decreases ns
  {
    hide Laid, Over, OwnArea, Off, Size, Area, Sited, Ready, Own, Owns, Content, Ready1;
    if ns == [] {
      LaidFits(out[..], Off(g, c), Zeros(Size(ns, g) * g.csize));
      OverNothing(out[..], Off(g, c));
      assert Area(ns, g, parent) == [] by { AreaNone(g, parent); }
      return;
    }
    var n := ns[0];
    ghost var c1, c2 := c + Own(n, g), c + Own(n, g) + Size(n.kids, g);
    ghost var s0 := out[..];
    AreaCons(ns, g, c, parent);
    ghost var a0, a1, a2 := OwnArea(n, g, parent), Area(n.kids, g, n.clus), Area(ns[1..], g, parent);
    Room(s0, ns, g, c, Own(n, g) * g.csize, Size(n.kids, g) * g.csize, Size(ns[1..], g) * g.csize);
    OwnEnough(n, g);
    OwnPut(s0, n, g, Off(g, c), parent, Own(n, g) * g.csize);
    if Owns(n) {
      Put(out, Off(g, n.clus), Content(n, g, parent));
    }
    ghost var s1 := out[..];
    OverKeeps(s0, Off(g, c), a0, Off(g, c1), Zeros(Size(n.kids, g) * g.csize));
    OverKeeps(s0, Off(g, c), a0, Off(g, c2), Zeros(Size(ns[1..], g) * g.csize));
    Emit(n.kids, out, c1, n.clus, g);
    OverKeeps(s1, Off(g, c1), a1, Off(g, c2), Zeros(Size(ns[1..], g) * g.csize));
    Emit(ns[1..], out, c2, parent, g);
    OverTwice(s0, Off(g, c), a0, a1);
    OverTwice(s0, Off(g, c), a0 + a1, a2);
  }

  lemma AreaNone(g: Geo, parent: nat)
    requires g.csize > 0 && |g.stamp| == 4 && parent < 65536
    ensures Area([], g, parent) == []
  {
  }

  lemma {:induction false} AreaCons(ns: seq<Node>, g: Geo, c: nat, parent: nat)
    requires g.csize > 0 && |g.stamp| == 4 && Ready(ns) && Sited(ns, g, c) && parent < 65536 && ns != []
    ensures var n, own, below := ns[0], Own(ns[0], g), Size(ns[0].kids, g);
      && Ready1(n) && n.clus < 65536 && Ready(n.kids) && Ready(ns[1..])
      && n.clus == (if Owns(n) then c else 0)
      && Sited(n.kids, g, c + own) && Sited(ns[1..], g, c + own + below)
      && Area(ns, g, parent) == OwnArea(n, g, parent) + Area(n.kids, g, n.clus) + Area(ns[1..], g, parent)
  {
    hide Own, Size, OwnArea, Pad83;
  }

  /** The room for a list is room for the first node (x bytes), for its kids (y) and for the rest (z). */
  lemma {:induction false} Room(s: seq<byte>, ns: seq<Node>, g: Geo, c: nat, x: nat, y: nat, z: nat)
    requires g.csize > 0 && ns != [] && Laid(s, Off(g, c), Zeros(Size(ns, g) * g.csize))
    requires x == Own(ns[0], g) * g.csize && y == Size(ns[0].kids, g) * g.csize && z == Size(ns[1..], g) * g.csize
    ensures var own, below := Own(ns[0], g), Size(ns[0].kids, g);
      && Off(g, c + own) == Off(g, c) + x && Off(g, c + own + below) == Off(g, c) + x + y
      && 0 <= Off(g, c) && Off(g, c) + x + y + z <= |s|
      && Laid(s, Off(g, c), Zeros(x)) && Laid(s, Off(g, c + own), Zeros(y)) && Laid(s, Off(g, c + own + below), Zeros(z))
  {
    hide Own, Off, Size, Laid;
    OffAdd(g, c, Own(ns[0], g));
    OffAdd(g, c + Own(ns[0], g), Size(ns[0].kids, g));
    SizeBytes(ns, g);
    ZeroParts(s, Off(g, c), x, y, z, Size(ns, g) * g.csize);
  }

  lemma ZeroParts(s: seq<byte>, o: int, a: nat, b: nat, c: nat, all: nat)
    requires all == a + b + c && Laid(s, o, Zeros(all))
    ensures 0 <= o && o + a + b + c <= |s|
    ensures Laid(s, o, Zeros(a)) && Laid(s, o + a, Zeros(b)) && Laid(s, o + a + b, Zeros(c))
  {
    hide Laid;
    LaidFits(s, o, Zeros(all));
    ZerosPart(s, o, all, o, a);
    ZerosPart(s, o, all, o + a, b);
    ZerosPart(s, o, all, o + a + b, c);
  }

  /** Writing a node's bytes into its own m bytes of zeroed clusters fills them. */
  lemma OwnPut(s: seq<byte>, n: Node, g: Geo, o: int, parent: nat, m: nat)
    requires g.csize > 0 && |g.stamp| == 4 && Ready1(n) && Ready(n.kids) && parent < 65536
    requires m == Own(n, g) * g.csize && Need(n) <= m
    requires 0 <= o && o + m <= |s| && Laid(s, o, Zeros(m))
    ensures Over(s, o, OwnArea(n, g, parent)) == if Owns(n) then Over(s, o, Content(n, g, parent)) else s
  {
    hide Clusters, Laid, Over, Content, Ready, Ready1;
    OverPad(s, o, Content(n, g, parent), m);
    if !Owns(n) {
      assert OwnArea(n, g, parent) == [];
      OverNothing(s, o);
    }
  }

  // ---- the whole partition -----------------------------------------------------------------------

  /** The same bytes n times over. */
  function Copies(b: seq<byte>, n: nat): (r: seq<byte>)
    ensures |r| == n * |b|
  {
    if n == 0 then [] else
      MulAdd(n - 1, 1, |b|);
      Copies(b, n - 1) + b
  }

  lemma {:induction false} CopyAt(s: seq<byte>, o: int, b: seq<byte>, n: nat, i: nat)
    requires Laid(s, o, Copies(b, n)) && i < n
    ensures Laid(s, o + i * |b|, b)
  {
    hide Laid;
    LaidSplit(s, o, Copies(b, n - 1), b);
    if i < n - 1 {
      CopyAt(s, o, b, n - 1, i);
    }
  }

  /** Every FAT gets the same bytes. */
  method CopyFats(out: array<byte>, fatb: seq<byte>, g: Geo)
    requires |fatb| <= g.fatSz && Laid(out[..], g.fatOff, Zeros(g.nfats * g.fatSz))
    modifies out
    ensures out[..] == Over(old(out[..]), g.fatOff, Copies(Padded(fatb, g.fatSz), g.nfats))
  {
    hide Over, Laid, Copies;
    ghost var b, s := Padded(fatb, g.fatSz), out[..];
    LaidFits(s, g.fatOff, Zeros(g.nfats * g.fatSz));
    OverNothing(s, g.fatOff);
    CopiesNone(b);
    var i := 0;
    while i < g.nfats
      invariant 0 <= i <= g.nfats && i * |b| <= g.nfats * g.fatSz
      invariant out[..] == Over(s, g.fatOff, Copies(b, i))
    {
      NextCopy(s, g.fatOff, b, i, g.nfats, fatb);
      Put(out, g.fatOff + i * g.fatSz, fatb);
      i := i + 1;
    }
  }

  lemma CopiesNone(b: seq<byte>)
    ensures Copies(b, 0) == []
  {
  }

  lemma NextCopy(s: seq<byte>, o: int, b: seq<byte>, i: nat, n: nat, fatb: seq<byte>)
    requires i < n && |fatb| <= |b| && b == Padded(fatb, |b|) && Laid(s, o, Zeros(n * |b|))
    ensures 0 <= o && o + (i + 1) * |b| <= o + n * |b| <= |s| && (i + 1) * |b| == i * |b| + |b|
    ensures Over(Over(s, o, Copies(b, i)), o + i * |b|, fatb) == Over(s, o, Copies(b, i + 1))
  {
    hide Over, Laid;
    MulMono(i + 1, n, |b|);
    MulAdd(i, 1, |b|);
    LaidFits(s, o, Zeros(n * |b|));
    ZerosPart(s, o, n * |b|, o + i * |b|, |b|);
    OverKeeps(s, o, Copies(b, i), o + i * |b|, Zeros(|b|));
    OverPad(Over(s, o, Copies(b, i)), o + i * |b|, fatb, |b|);
    OverTwice(s, o, Copies(b, i), b);
  }

  lemma {:induction false} LinksWords(ns: seq<Node>, g: Geo, c: nat)
    requires g.csize > 0 && c + Size(ns, g) <= 65536
    ensures Words(Links(ns, g, c))
    decreases ns
  {
    hide Own, Size, Links;
    if ns == [] {
      PlacedNone(g, c);
    } else {
      SizeCons(ns, g, c);
      var own, below := Own(ns[0], g), Size(ns[0].kids, g);
      LinksWords(ns[0].kids, g, c + own);
      LinksWords(ns[1..], g, c + own + below);
    }
  }

  lemma {:induction false} PlacedReady(ns: seq<Node>, placed: seq<Node>, g: Geo, c: nat)
    requires g.csize > 0 && Tidy(ns) && Named(ns) && SamePlaced(ns, placed) && Sited(placed, g, c)
    requires c + Size(placed, g) <= 65536
    ensures Ready(placed)
    decreases ns
  {
    hide Clusters, Pad83;
    if ns != [] {
      var own, below := Own(placed[0], g), Size(placed[0].kids, g);
      PlacedReady(ns[0].kids, placed[0].kids, g, c + own);
      PlacedReady(ns[1..], placed[1..], g, c + own + below);
    }
  }

  /** Writing the parts in build's order gives them side by side. */
  lemma Layers(len: nat, boot: seq<byte>, fats: seq<byte>, root: seq<byte>, area: seq<byte>)
    requires |boot| + |fats| + |root| + |area| <= len
    ensures var d := |boot| + |fats| + |root|;
      Over(Over(Over(Over(Zeros(len), 0, boot), d - |root|, root), d, area), |boot|, fats) ==
      boot + fats + root + (area + Zeros(len - d - |area|))
  {
    var d := |boot| + |fats| + |root|;
    var s1 := Over(Zeros(len), 0, boot);
    assert s1 == boot + Zeros(len - |boot|);
    var s2 := Over(s1, d - |root|, root);
    assert s2 == boot + Zeros(|fats|) + root + Zeros(len - d);
    var s3 := Over(s2, d, area);
    assert s3 == boot + Zeros(|fats|) + root + area + Zeros(len - d - |area|);
  }

  lemma SideBySide(a: seq<byte>, b: seq<byte>, c: seq<byte>, d: seq<byte>)
    ensures var s := a + b + c + d;
      Laid(s, 0, a) && Laid(s, |a|, b) && Laid(s, |a| + |b|, c) && Laid(s, |a| + |b| + |c|, d)
  {
  }

  /** The parts side by side are the rebuilt partition. */
  lemma PartsHold(out: seq<byte>, blob: seq<byte>, g: Geo, labels: seq<byte>, ns: seq<Node>,
    table: seq<int>, fat: seq<byte>, root: seq<byte>, area: seq<byte>)
    requires Usable(g) && Regions(g, |blob|) && Ready(ns) && g.fatOff <= g.dataOff && g.dataOff + |area| <= |blob|
    requires Size(ns, g) <= g.nclus && table == Table(ns, g) && Words(table) && fat == Padded(U16s(table), g.fatSz)
    requires |labels| + |ns| * ENTRY <= g.rootSz && root == Padded(labels + Entries(ns, g), g.rootSz)
    requires area == Area(ns, g, 0)
    requires out == blob[..g.fatOff] + Copies(fat, g.nfats) + root + (area + Zeros(|blob| - g.dataOff - |area|))
    ensures Holds(out, blob, g, labels, ns)
  {
    hide Laid, Area, Table, Size, Entries, Off, Copies, Words, Ready, U16s;
    SideBySide(blob[..g.fatOff], Copies(fat, g.nfats), root, area + Zeros(|blob| - g.dataOff - |area|));
    forall i | 0 <= i < g.nfats ensures FatCopy(out, g, table, i) {
      CopyAt(out, g.fatOff, fat, g.nfats, i);
    }
  }

  lemma OffFirst(g: Geo)
    ensures Off(g, 2) == g.dataOff
  {
  }

  /** Room for the clusters in use. */
  lemma AreaFits(g: Geo, len: nat, size: nat)
    requires Usable(g) && Regions(g, len) && size <= g.nclus
    ensures g.fatOff <= g.rootOff <= g.dataOff && g.dataOff + size * g.csize <= len
    ensures g.rootOff == g.fatOff + g.nfats * g.fatSz
  {
  }

  /** The first half of build: clusters for every node, and the table that chains them. */
  method Allocate(ns: seq<Node>, g: Geo) returns (ok: bool, placed: seq<Node>, table: seq<int>)
    requires Usable(g)
    ensures ok <==> Size(ns, g) <= g.nclus
    ensures ok ==> SamePlaced(ns, placed) && Sited(placed, g, 2) && table == Table(ns, g)
  {
    hide Size, SamePlaced, Sited, Links;
    var fat := new int[g.nclus + 2](_ => 0);
    fat[0], fat[1] := 0xFF00 + g.media, 0xFFFF;
    ghost var f := fat[..];
    var next;
    ok, next, placed := Place(ns, fat, 2, g);
    if ok {
      assert f[..2] == [0xFF00 + (g.media as int), 0xFFFF] && f[next..] == seq(g.nclus - Size(ns, g), _ => 0);
    }
    table := fat[..];
  }

  method WriteRoot(out: array<byte>, blob: seq<byte>, g: Geo, root: seq<byte>)
    requires out[..] == Zeros(|blob|) && g.fatOff <= g.rootOff && g.rootOff + g.rootSz <= |blob| && |root| <= g.rootSz
    modifies out
    ensures out[..] == Over(Over(Zeros(|blob|), 0, blob[..g.fatOff]), g.rootOff, Padded(root, g.rootSz))
  {
    hide Over, Padded;
    assert out.Length == |blob| by { assert |out[..]| == |Zeros(|blob|)|; }
    Put(out, 0, blob[..g.fatOff]);
    RootRoom(blob, g, root);
    Put(out, g.rootOff, root);
  }

  /** The second half: the reserved sectors, the root directory, the clusters and the FATs. */
  method Write(blob: seq<byte>, g: Geo, labels: seq<byte>, ns: seq<Node>, table: seq<int>) returns (r: seq<byte>)
    requires Usable(g) && Regions(g, |blob|) && Ready(ns) && Sited(ns, g, 2)
    requires Size(ns, g) <= g.nclus && table == Table(ns, g) && Words(table)
    requires |labels| + |ns| * ENTRY <= g.rootSz
    ensures Holds(r, blob, g, labels, ns)
  {
    hide Laid, Over, Area, Size, Entries, Off, Copies, Ready, Sited, Words, Table, Padded, U16s, Holds;
    AreaFits(g, |blob|, Size(ns, g));
    OffFirst(g);
    var out := new byte[|blob|](_ => 0);
    assert out[..] == Zeros(|blob|);
    var root := labels + Entries(ns, g);
    WriteRoot(out, blob, g, root);
    ghost var s1 := Over(Zeros(|blob|), 0, blob[..g.fatOff]);
    ghost var s2 := out[..];
    ghost var root1, area := Padded(root, g.rootSz), Area(ns, g, 0);
    AreaRoom(s1, blob, g, root1, Size(ns, g));
    Emit(ns, out, 2, 0, g);
    FatRoom(s1, s2, out[..], blob, g, root1, area);
    var fatb := U16s(table);
    CopyFats(out, fatb, g);
    ghost var fat := Padded(fatb, g.fatSz);
    Layers(|blob|, blob[..g.fatOff], Copies(fat, g.nfats), root1, area);
    r := out[..];
    PartsHold(r, blob, g, labels, ns, table, fat, root1, area);
  }

  /** build: the partition rebuilt around the tree ns.  It refuses exactly when the clusters run out, more are needed than 16
      bits can number, a name is not 8.3 (or a length has more than 32 bits), or the root directory is full. */
  method Build(blob: seq<byte>, stamp: seq<byte>, labels: seq<seq<byte>>, ns: seq<Node>)
    returns (r: Option<seq<byte>>, placed: seq<Node>)
    requires |blob| >= 36 && Usable(Geometry(blob, stamp)) && Tidy(ns)
    ensures var g := Geometry(blob, stamp);
      && (r.Some? <==> Size(ns, g) <= g.nclus && Size(ns, g) <= 65534 && Named(ns) && |Concat(labels)| + |ns| * ENTRY <= g.rootSz)
      && (r.Some? ==>
           && SamePlaced(ns, placed) && Sited(placed, g, 2) && Ready(placed)
           && Holds(r.value, blob, g, Concat(labels), placed))
  {
    hide Area, Size, Entries, Ready, Tidy, Named, SamePlaced, Sited, Words, Links, Table, Small, Geometry, Regions, Holds, Concat;
    var g := Geometry(blob, stamp);
    GeometryRegions(blob, stamp);
    var ok, table;
    ok, placed, table := Allocate(ns, g);
    if !ok || !Named(ns) || |Concat(labels)| + |ns| * ENTRY > g.rootSz {
      return None, placed;
    }
    PackExactly(ns, placed, g);
    if !Words(table) || !Small(placed) {        // struct.pack raises
      return None, placed;
    }
    PlacedFits(ns, placed, g, |blob|);
    var out := Write(blob, g, Concat(labels), placed, table);
    r := Some(out);
  }

  lemma PlacedFits(ns: seq<Node>, placed: seq<Node>, g: Geo, len: nat)
    requires Usable(g) && Regions(g, len) && Size(ns, g) <= g.nclus && Size(ns, g) <= 65534
    requires Tidy(ns) && Named(ns) && SamePlaced(ns, placed) && Sited(placed, g, 2)
    ensures |placed| == |ns| && Ready(placed) && Size(placed, g) == Size(ns, g) && Links(placed, g, 2) == Links(ns, g, 2)
    ensures Table(placed, g) == Table(ns, g)
    ensures g.dataOff + |Area(placed, g, 0)| <= len && Words(Table(placed, g))
  {
    hide Area, Size, Tidy, Named, Sited, Links, Table, Ready, Words;
    AreaFits(g, len, Size(ns, g));
    PlacedCosts(ns, placed, g, 2);
    PlacedReady(ns, placed, g, 2);
    LinksWords(placed, g, 2);
    TableWords(placed, g);
    SameTable(ns, placed, g);
  }

  lemma SameTable(ns: seq<Node>, placed: seq<Node>, g: Geo)
    requires g.csize > 0 && Size(ns, g) <= g.nclus && Size(placed, g) == Size(ns, g) && Links(placed, g, 2) == Links(ns, g, 2)
    ensures Table(placed, g) == Table(ns, g)
  {
    hide Links, Size;
  }

  lemma TableWords(ns: seq<Node>, g: Geo)
    requires g.csize > 0 && Size(ns, g) <= g.nclus
    ensures Words(Table(ns, g)) <==> Words(Links(ns, g, 2))
  {
    hide Links, Size;
    var t, l := Table(ns, g), Links(ns, g, 2);
    assert forall i :: 0 <= i < |l| ==> t[2 + i] == l[i];
    if Words(t) {
      forall i | 0 <= i < |l| ensures 0 <= l[i] < 65536 {
        assert t[2 + i] == l[i];
      }
    }
  }

  /** Past cluster 65,535 some chain or some entry holds a number of more than 16 bits. */
  lemma {:induction false} PackFails(ns: seq<Node>, g: Geo, c: nat)
    requires g.csize > 0 && Sited(ns, g, c) && c <= 65536 < c + Size(ns, g)
    ensures !Words(Links(ns, g, c)) || !Small(ns)
    decreases ns
  {
    hide Clusters, Size, Links, Chained;
    if ns == [] {
      PlacedNone(g, c);
    } else {
      SizeCons(ns, g, c);
      var n, own, below := ns[0], Own(ns[0], g), Size(ns[0].kids, g);
      if c + own > 65536 {
        if c < 65536 {
          assert Links(ns, g, c)[65535 - c] == Chained(c, own)[65535 - c];
          LinkOver(c, own);
        }
      } else if c + own + below > 65536 {
        PackFails(n.kids, g, c + own);
        WordsParts(Chained(c, own), Links(n.kids, g, c + own), Links(ns[1..], g, c + own + below));
      } else {
        PackFails(ns[1..], g, c + own + below);
        WordsParts(Chained(c, own), Links(n.kids, g, c + own), Links(ns[1..], g, c + own + below));
      }
    }
  }

  lemma LinkOver(c: nat, n: nat)
    requires c < 65536 < c + n
    ensures Chained(c, n)[65535 - c] == 65536
  {
  }

  lemma WordsParts(a: seq<int>, b: seq<int>, c: seq<int>)
    ensures Words(a + b + c) ==> Words(b) && Words(c)
  {
    var s := a + b + c;
    if Words(s) {
      forall i | 0 <= i < |b| ensures 0 <= b[i] < 65536 {
        assert s[|a| + i] == b[i];
      }
      forall i | 0 <= i < |c| ensures 0 <= c[i] < 65536 {
        assert s[|a| + |b| + i] == c[i];
      }
    }
  }

  lemma {:induction false} SitedSmall(ns: seq<Node>, g: Geo, c: nat)
    requires g.csize > 0 && Sited(ns, g, c) && c + Size(ns, g) <= 65536
    ensures Small(ns)
    decreases ns
  {
    hide Clusters;
    if ns != [] {
      SitedSmall(ns[0].kids, g, c + Own(ns[0], g));
      SitedSmall(ns[1..], g, c + Own(ns[0], g) + Size(ns[0].kids, g));
    }
  }

  /** The numbers pack exactly when no more than 65,534 clusters are used. */
  lemma PackExactly(ns: seq<Node>, placed: seq<Node>, g: Geo)
    requires Usable(g) && SamePlaced(ns, placed) && Sited(placed, g, 2) && Size(ns, g) <= g.nclus
    ensures Words(Table(ns, g)) && Small(placed) <==> Size(ns, g) <= 65534
  {
    hide Size, Links, Table, Words, Small, Sited, SamePlaced;
    PlacedCosts(ns, placed, g, 2);
    SameTable(ns, placed, g);
    TableWords(placed, g);
    if Size(ns, g) <= 65534 {
      LinksWords(placed, g, 2);
      SitedSmall(placed, g, 2);
    } else {
      PackFails(placed, g, 2);
    }
  }

  lemma RootRoom(blob: seq<byte>, g: Geo, root: seq<byte>)
    requires g.fatOff <= g.rootOff && g.rootOff + g.rootSz <= |blob| && |root| <= g.rootSz
    ensures var s := Over(Zeros(|blob|), 0, blob[..g.fatOff]);
      Over(s, g.rootOff, root) == Over(s, g.rootOff, Padded(root, g.rootSz))
  {
  }

  lemma AreaRoom(s1: seq<byte>, blob: seq<byte>, g: Geo, root: seq<byte>, size: nat)
    requires g.fatOff <= g.rootOff && g.dataOff == g.rootOff + g.rootSz && g.dataOff + size * g.csize <= |blob|
    requires s1 == Over(Zeros(|blob|), 0, blob[..g.fatOff]) && |root| == g.rootSz
    ensures Laid(Over(s1, g.rootOff, root), Off(g, 2), Zeros(size * g.csize))
  {
    hide Over;
    OffFirst(g);
    assert Laid(Zeros(|blob|), g.dataOff, Zeros(size * g.csize));
    OverKeeps(Zeros(|blob|), 0, blob[..g.fatOff], g.dataOff, Zeros(size * g.csize));
    OverKeeps(s1, g.rootOff, root, g.dataOff, Zeros(size * g.csize));
  }

  lemma FatRoom(s1: seq<byte>, s2: seq<byte>, s3: seq<byte>, blob: seq<byte>, g: Geo, root: seq<byte>, area: seq<byte>)
    requires g.rootOff == g.fatOff + g.nfats * g.fatSz && g.dataOff == g.rootOff + g.rootSz
    requires 0 <= g.nfats * g.fatSz && g.dataOff + |area| <= |blob| && |root| == g.rootSz
    requires s1 == Over(Zeros(|blob|), 0, blob[..g.fatOff]) && s2 == Over(s1, g.rootOff, root)
    requires s3 == Over(s2, g.dataOff, area)
    ensures Laid(s3, g.fatOff, Zeros(g.nfats * g.fatSz))
  {
    hide Over;
    var z := Zeros(g.nfats * g.fatSz);
    assert Laid(Zeros(|blob|), g.fatOff, z);
    OverKeeps(Zeros(|blob|), 0, blob[..g.fatOff], g.fatOff, z);
    OverKeeps(s1, g.rootOff, root, g.fatOff, z);
    OverKeeps(s2, g.dataOff, area, g.fatOff, z);
  }
}
