/** Node 0's heap (sam-job-tt/llvm/jobheap.c): a first-fit allocator whose free list is kept in address
    order and coalesced, plus a ring of live blocks so that a job's leftovers can be found and freed.

    Memory is one array with a cell per byte address.  A 4-byte header word occupies the cell of its first
    byte, so the two overlapping header layouts of the source keep their offsets:
      struct hb (live): next @0, prev @4, n @8, job @12      struct fb (free): next @0, size @4
    The static `fl` pointer and the static ring head `live` live below the heap, so the source's
    pointer-to-pointer walks (`pp = &fl`, `pp = &f->next`) are ordinary addresses here. */
module JobHeap {
  import opened Wire

  const NULL := 0
  const FL := 4          // &fl
  const LIVE := 8        // &live, four words
  const HDR := 16        // sizeof (struct hb)
  const WORD := 0x1_0000_0000

  /** A free block; the size includes its header. */
  datatype Ext = Ext(addr: int, size: int)

  /** A live block: its header address, the caller's capacity, and whether a job owns it. */
  datatype Block = Block(addr: int, n: int, job: bool)

  function Up8(x: int): (r: int)
    requires 0 <= x
    ensures r % 8 == 0 && x <= r < x + 8
  {
    (x + 7) / 8 * 8
  }

  /** The bytes a request of n takes, header included. */
  function Need(n: int): (sz: int)
    requires 0 <= n
    ensures sz % 8 == 0 && HDR + n <= sz < HDR + n + 8
  {
    Up8(HDR + n)
  }

  // ---- extents -------------------------------------------------------------------------------

  predicate InExt(e: Ext, a: int) { e.addr <= a < e.addr + e.size }

  predicate InBlock(b: Block, a: int) { b.addr <= a < b.addr + HDR + b.n }

  ghost predicate FreeAt(F: seq<Ext>, a: int) { exists i :: 0 <= i < |F| && InExt(F[i], a) }

  ghost predicate LiveAt(L: seq<Block>, a: int) { exists i :: 0 <= i < |L| && InBlock(L[i], a) }

  predicate Fine(e: Ext, lo: int, hi: int) {
    lo <= e.addr && e.size >= HDR && e.addr + e.size <= hi
  }

  /** Strictly address-ordered and never adjacent: two neighbours always have a live byte between them. */
  ghost predicate Canonical(F: seq<Ext>, lo: int, hi: int) {
    && (forall i :: 0 <= i < |F| ==> Fine(F[i], lo, hi))
    && (forall i, j :: 0 <= i < j < |F| ==> F[i].addr + F[i].size < F[j].addr)
  }

  ghost predicate Disjoint(L: seq<Block>, lo: int, hi: int) {
    && (forall i :: 0 <= i < |L| ==> lo <= L[i].addr && L[i].n >= 0 && L[i].addr + HDR + L[i].n <= hi)
    && (forall i, j :: 0 <= i < j < |L| ==>
          L[i].addr + HDR + L[i].n <= L[j].addr || L[j].addr + HDR + L[j].n <= L[i].addr)
  }

  /** Free and live blocks tile [lo, hi): every byte is in exactly one block. */
  ghost predicate Tiles(F: seq<Ext>, L: seq<Block>, lo: int, hi: int) {
    && Canonical(F, lo, hi)
    && Disjoint(L, lo, hi)
    && (forall a :: lo <= a < hi ==> (FreeAt(F, a) <==> !LiveAt(L, a)))
  }

  /** No free block and live block share a byte. */
  lemma Apart(F: seq<Ext>, L: seq<Block>, lo: int, hi: int)
    requires Tiles(F, L, lo, hi)
    ensures forall i, j :: 0 <= i < |F| && 0 <= j < |L| ==>
              F[i].addr + F[i].size <= L[j].addr || L[j].addr + HDR + L[j].n <= F[i].addr
  {
    forall i, j | 0 <= i < |F| && 0 <= j < |L|
      ensures F[i].addr + F[i].size <= L[j].addr || L[j].addr + HDR + L[j].n <= F[i].addr
    {
      if F[i].addr + F[i].size > L[j].addr && L[j].addr + HDR + L[j].n > F[i].addr {
        var a := if F[i].addr < L[j].addr then L[j].addr else F[i].addr;
        assert InExt(F[i], a) && InBlock(L[j], a);
        assert FreeAt(F, a) && LiveAt(L, a);
        assert false;
      }
    }
  }

  // ---- the free list is a function of the live extents -----------------------------------------

  ghost predicate SameCover(F: seq<Ext>, G: seq<Ext>) {
    forall a :: FreeAt(F, a) <==> FreeAt(G, a)
  }

  lemma FirstAddr(F: seq<Ext>, G: seq<Ext>, lo: int, hi: int)
    requires Canonical(F, lo, hi) && Canonical(G, lo, hi) && SameCover(F, G) && |F| > 0
    ensures |G| > 0 && G[0].addr <= F[0].addr
  {
    assert InExt(F[0], F[0].addr);
    assert FreeAt(F, F[0].addr);
    assert FreeAt(G, F[0].addr);
  }

  /** Equal starts force equal ends: the byte after a canonical free block is never free. */
  lemma FirstSize(F: seq<Ext>, G: seq<Ext>, lo: int, hi: int)
    requires Canonical(F, lo, hi) && Canonical(G, lo, hi) && SameCover(F, G)
    requires |F| > 0 && |G| > 0 && F[0].addr == G[0].addr
    ensures F[0].size <= G[0].size
  {
    var a := G[0].addr + G[0].size;
    assert !FreeAt(G, a);
    assert FreeAt(F, a) <==> FreeAt(G, a);
    assert !InExt(F[0], a);
  }

  lemma TailCover(F: seq<Ext>, a: int, lo: int, hi: int)
    requires Canonical(F, lo, hi) && |F| > 0
    ensures FreeAt(F[1..], a) <==> FreeAt(F, a) && !InExt(F[0], a)
  {
  }

  lemma TailSame(F: seq<Ext>, G: seq<Ext>, lo: int, hi: int)
    requires Canonical(F, lo, hi) && Canonical(G, lo, hi) && SameCover(F, G)
    requires |F| > 0 && |G| > 0 && F[0] == G[0]
    ensures SameCover(F[1..], G[1..])
  {
    forall a ensures FreeAt(F[1..], a) <==> FreeAt(G[1..], a) {
      TailCover(F, a, lo, hi);
      TailCover(G, a, lo, hi);
      assert FreeAt(F, a) <==> FreeAt(G, a);
    }
  }

  lemma SameHead(F: seq<Ext>, G: seq<Ext>, lo: int, hi: int)
    requires Canonical(F, lo, hi) && Canonical(G, lo, hi) && SameCover(F, G) && |F| > 0
    ensures |G| > 0 && F[0] == G[0]
  {
    FirstAddr(F, G, lo, hi);
    FirstAddr(G, F, lo, hi);
    FirstSize(F, G, lo, hi);
    FirstSize(G, F, lo, hi);
  }

  lemma {:induction false} CoverDetermines(F: seq<Ext>, G: seq<Ext>, lo: int, hi: int)
    requires Canonical(F, lo, hi) && Canonical(G, lo, hi) && SameCover(F, G)
    ensures F == G
    decreases |F|
  {
    if |F| == 0 {
      if |G| > 0 {
        FirstAddr(G, F, lo, hi);
      }
    } else {
      SameHead(F, G, lo, hi);
      TailSame(F, G, lo, hi);
      CoverDetermines(F[1..], G[1..], lo, hi);
      assert F == [F[0]] + F[1..] && G == [G[0]] + G[1..];
    }
  }

  ghost function Extents(L: seq<Block>): set<Ext> {
    set b | b in L :: Ext(b.addr, HDR + b.n)
  }

  lemma ExtentsCover(L: seq<Block>, M: seq<Block>, a: int)
    requires Extents(L) == Extents(M) && LiveAt(L, a)
    ensures LiveAt(M, a)
  {
    var i :| 0 <= i < |L| && InBlock(L[i], a);
    var e := Ext(L[i].addr, HDR + L[i].n);
    assert e in Extents(L);
    assert e in Extents(M);
    var b :| b in M && Ext(b.addr, HDR + b.n) == e;
    assert InBlock(b, a);
  }

  lemma TilesCover(F: seq<Ext>, L: seq<Block>, G: seq<Ext>, M: seq<Block>, lo: int, hi: int, a: int)
    requires Tiles(F, L, lo, hi) && Tiles(G, M, lo, hi) && Extents(L) == Extents(M)
    ensures FreeAt(F, a) ==> FreeAt(G, a)
  {
    if FreeAt(F, a) {
      assert lo <= a < hi;
      if LiveAt(M, a) {
        ExtentsCover(M, L, a);
      }
    }
  }

  /** The allocator theorem: whatever happened before, the free list depends on the live extents alone. */
  lemma FreeListDetermined(F: seq<Ext>, L: seq<Block>, G: seq<Ext>, M: seq<Block>, lo: int, hi: int)
    requires Tiles(F, L, lo, hi) && Tiles(G, M, lo, hi) && Extents(L) == Extents(M)
    ensures F == G
  {
    forall a ensures FreeAt(F, a) <==> FreeAt(G, a) {
      TilesCover(F, L, G, M, lo, hi, a);
      TilesCover(G, M, F, L, lo, hi, a);
    }
    CoverDetermines(F, G, lo, hi);
  }

  // ---- what carving and releasing do to the tiling ---------------------------------------------

  lemma FreeAtConcat(F: seq<Ext>, G: seq<Ext>, a: int)
    ensures FreeAt(F + G, a) <==> FreeAt(F, a) || FreeAt(G, a)
  {
    if FreeAt(F, a) {
      var i :| 0 <= i < |F| && InExt(F[i], a);
      assert (F + G)[i] == F[i];
    }
    if FreeAt(G, a) {
      var i :| 0 <= i < |G| && InExt(G[i], a);
      assert (F + G)[|F| + i] == G[i];
    }
  }

  lemma FreeAtOne(e: Ext, a: int)
    ensures FreeAt([e], a) <==> InExt(e, a)
  {
    assert [e][0] == e;
  }

  lemma LiveAtConcat(L: seq<Block>, M: seq<Block>, a: int)
    ensures LiveAt(L + M, a) <==> LiveAt(L, a) || LiveAt(M, a)
  {
    if LiveAt(L, a) {
      var i :| 0 <= i < |L| && InBlock(L[i], a);
      assert (L + M)[i] == L[i];
    }
    if LiveAt(M, a) {
      var i :| 0 <= i < |M| && InBlock(M[i], a);
      assert (L + M)[|L| + i] == M[i];
    }
  }

  lemma LiveAtOne(b: Block, a: int)
    ensures LiveAt([b], a) <==> InBlock(b, a)
  {
    assert [b][0] == b;
  }

  /** The index of the first free block that can hold sz bytes, or |F|. */
  function FirstFit(F: seq<Ext>, sz: int): (i: nat)
    ensures i <= |F|
    ensures i < |F| ==> F[i].size >= sz
    ensures forall j :: 0 <= j < i ==> F[j].size < sz
  {
    if F == [] || F[0].size >= sz then 0 else 1 + FirstFit(F[1..], sz)
  }

  /** The bytes actually handed out of a free block: a remainder too small to be a block goes along. */
  function Taken(e: Ext, sz: int): int {
    if e.size - sz >= HDR + 8 then sz else e.size
  }

  function Rest(e: Ext, sz: int): seq<Ext> {
    if e.size - sz >= HDR + 8 then [Ext(e.addr + sz, e.size - sz)] else []
  }

  function Carve(F: seq<Ext>, i: nat, sz: int): seq<Ext>
    requires i < |F|
  {
    F[..i] + Rest(F[i], sz) + F[i + 1..]
  }

  lemma CarveCanonical(F: seq<Ext>, i: nat, sz: int, lo: int, hi: int)
    requires Canonical(F, lo, hi) && i < |F| && HDR <= sz <= F[i].size
    ensures Canonical(Carve(F, i, sz), lo, hi)
  {
    var G, d := Carve(F, i, sz), |Rest(F[i], sz)| - 1;
    forall k | 0 <= k < |G|
      ensures if k < i then G[k] == F[k] else if k == i && d == 0 then G[k] == Rest(F[i], sz)[0]
              else G[k] == F[k - d]
    {
    }
  }

  lemma CarveCover(F: seq<Ext>, i: nat, sz: int, lo: int, hi: int, a: int)
    requires Canonical(F, lo, hi) && i < |F| && HDR <= sz <= F[i].size
    ensures FreeAt(Carve(F, i, sz), a) <==>
            FreeAt(F, a) && !(F[i].addr <= a < F[i].addr + Taken(F[i], sz))
  {
    var e := F[i];
    FreeAtConcat(F[..i] + Rest(e, sz), F[i + 1..], a);
    FreeAtConcat(F[..i], Rest(e, sz), a);
    FreeAtConcat(F[..i] + [e], F[i + 1..], a);
    FreeAtConcat(F[..i], [e], a);
    FreeAtOne(e, a);
    FreeAtOne(Ext(e.addr + sz, e.size - sz), a);
    assert F[..i] + [e] + F[i + 1..] == F;
    if InExt(e, a) {
      assert !FreeAt(F[..i], a) && !FreeAt(F[i + 1..], a);
    }
  }

  /** Handing out the head of free block i keeps the tiling. */
  lemma CarveTiles(F: seq<Ext>, L: seq<Block>, i: nat, sz: int, job: bool, lo: int, hi: int)
    requires Tiles(F, L, lo, hi) && i < |F| && HDR <= sz <= F[i].size
    ensures Tiles(Carve(F, i, sz), [Block(F[i].addr, Taken(F[i], sz) - HDR, job)] + L, lo, hi)
    ensures Disjoint([Block(F[i].addr, Taken(F[i], sz) - HDR, job)] + L, lo, hi)
  {
    var b := Block(F[i].addr, Taken(F[i], sz) - HDR, job);
    CarveCanonical(F, i, sz, lo, hi);
    CarveDisjoint(F, L, i, b, lo, hi);
    forall a | lo <= a < hi
      ensures FreeAt(Carve(F, i, sz), a) <==> !LiveAt([b] + L, a)
    {
      CarveCover(F, i, sz, lo, hi, a);
      LiveAtConcat([b], L, a);
      LiveAtOne(b, a);
      assert FreeAt(F, a) <==> !LiveAt(L, a);
    }
  }

  lemma CarveDisjoint(F: seq<Ext>, L: seq<Block>, i: nat, b: Block, lo: int, hi: int)
    requires Tiles(F, L, lo, hi) && i < |F| && b.addr == F[i].addr
    requires 0 <= b.n && HDR + b.n <= F[i].size
    ensures Disjoint([b] + L, lo, hi)
  {
    Apart(F, L, lo, hi);
  }

  // Releasing block e: it goes between the free blocks below and above and merges with whichever touch it.

  function MergeUp(e: Ext, hiF: seq<Ext>): seq<Ext> {
    if |hiF| > 0 && e.addr + e.size == hiF[0].addr then [Ext(e.addr, e.size + hiF[0].size)] + hiF[1..]
    else [e] + hiF
  }

  function MergeDown(loF: seq<Ext>, rest: seq<Ext>): seq<Ext>
    requires |rest| > 0
  {
    if |loF| > 0 && loF[|loF| - 1].addr + loF[|loF| - 1].size == rest[0].addr
    then loF[..|loF| - 1] + ([Ext(loF[|loF| - 1].addr, loF[|loF| - 1].size + rest[0].size)] + rest[1..])
    else loF + rest
  }

  function Release(F: seq<Ext>, i: nat, e: Ext): seq<Ext>
    requires i <= |F|
  {
    MergeDown(F[..i], MergeUp(e, F[i..]))
  }

  /** e lies between F[..i] and F[i..], possibly touching them. */
  ghost predicate FitsAt(F: seq<Ext>, i: nat, e: Ext) {
    && i <= |F|
    && (forall k :: 0 <= k < i ==> F[k].addr + F[k].size <= e.addr)
    && (forall k :: i <= k < |F| ==> e.addr + e.size <= F[k].addr)
  }

  lemma MergeUpCover(e: Ext, hiF: seq<Ext>, a: int)
    requires e.size >= 0 && forall k :: 0 <= k < |hiF| ==> hiF[k].size >= 0
    ensures FreeAt(MergeUp(e, hiF), a) <==> InExt(e, a) || FreeAt(hiF, a)
  {
    hide FreeAt;
    FreeAtConcat([e], hiF, a);
    FreeAtOne(e, a);
    if |hiF| > 0 {
      var m := Ext(e.addr, e.size + hiF[0].size);
      FreeAtConcat([m], hiF[1..], a);
      FreeAtConcat([hiF[0]], hiF[1..], a);
      FreeAtOne(hiF[0], a);
      FreeAtOne(m, a);
      assert [hiF[0]] + hiF[1..] == hiF;
    }
  }

  lemma MergeDownCover(loF: seq<Ext>, rest: seq<Ext>, a: int)
    requires |rest| > 0 && rest[0].size >= 0 && forall k :: 0 <= k < |loF| ==> loF[k].size >= 0
    ensures FreeAt(MergeDown(loF, rest), a) <==> FreeAt(loF, a) || FreeAt(rest, a)
  {
    hide FreeAt;
    FreeAtConcat(loF, rest, a);
    if |loF| > 0 {
      var l := loF[|loF| - 1];
      var m := Ext(l.addr, l.size + rest[0].size);
      FreeAtConcat(loF[..|loF| - 1], [m] + rest[1..], a);
      FreeAtConcat([m], rest[1..], a);
      FreeAtConcat(loF[..|loF| - 1], [l], a);
      FreeAtConcat([rest[0]], rest[1..], a);
      FreeAtOne(l, a);
      FreeAtOne(m, a);
      FreeAtOne(rest[0], a);
      assert [rest[0]] + rest[1..] == rest && loF[..|loF| - 1] + [l] == loF;
    }
  }

  lemma MergeUpCanonical(F: seq<Ext>, i: nat, e: Ext, lo: int, hi: int)
    requires Canonical(F, lo, hi) && FitsAt(F, i, e)
    requires Fine(e, lo, hi)
    ensures Canonical(MergeUp(e, F[i..]), lo, hi) && MergeUp(e, F[i..])[0].addr == e.addr
  {
    var G, H := F[i..], MergeUp(e, F[i..]);
    assert forall k :: 0 <= k < |G| ==> G[k] == F[i + k];
    var d := if |G| > 0 && e.addr + e.size == G[0].addr then 0 else 1;
    assert Fine(H[0], lo, hi) by {
      if d == 0 {
        Merged(e, G[0], lo, hi);
      }
    }
    assert forall k :: 1 <= k < |H| ==> H[k] == G[k - d];
  }

  lemma Merged(l: Ext, u: Ext, lo: int, hi: int)
    requires Fine(l, lo, hi) && Fine(u, lo, hi) && l.addr + l.size == u.addr
    ensures Fine(Ext(l.addr, l.size + u.size), lo, hi)
  {
  }

  lemma CanonicalConcat(F: seq<Ext>, G: seq<Ext>, lo: int, hi: int)
    requires Canonical(F, lo, hi) && Canonical(G, lo, hi)
    requires |F| > 0 && |G| > 0 ==> F[|F| - 1].addr + F[|F| - 1].size < G[0].addr
    ensures Canonical(F + G, lo, hi)
  {
    forall i, j | 0 <= i < j < |F + G|
      ensures (F + G)[i].addr + (F + G)[i].size < (F + G)[j].addr
    {
      if i < |F| <= j {
        assert F[i].addr + F[i].size <= F[|F| - 1].addr + F[|F| - 1].size;
        assert G[0].addr <= G[j - |F|].addr;
      }
    }
  }

  lemma CanonicalPrefix(F: seq<Ext>, c: nat, lo: int, hi: int)
    requires Canonical(F, lo, hi) && c < |F|
    ensures Canonical(F[..c], lo, hi) && Fine(F[c], lo, hi)
    ensures c > 0 ==> F[c - 1].addr + F[c - 1].size < F[c].addr
  {
  }

  lemma GrowDown(rest: seq<Ext>, l: Ext, lo: int, hi: int)
    requires Canonical(rest, lo, hi) && |rest| > 0 && Fine(l, lo, hi) && l.addr + l.size == rest[0].addr
    ensures Canonical([Ext(l.addr, l.size + rest[0].size)] + rest[1..], lo, hi)
  {
  }

  lemma MergeDownCanonical(loF: seq<Ext>, rest: seq<Ext>, lo: int, hi: int)
    requires Canonical(loF, lo, hi) && Canonical(rest, lo, hi) && |rest| > 0
    requires forall k :: 0 <= k < |loF| ==> loF[k].addr + loF[k].size <= rest[0].addr
    ensures Canonical(MergeDown(loF, rest), lo, hi)
  {
    var c := |loF| - 1;
    if c >= 0 {
      CanonicalPrefix(loF, c, lo, hi);
    }
    hide Canonical;
    if c >= 0 && loF[c].addr + loF[c].size == rest[0].addr {
      GrowDown(rest, loF[c], lo, hi);
      var up := [Ext(loF[c].addr, loF[c].size + rest[0].size)] + rest[1..];
      CanonicalConcat(loF[..c], up, lo, hi);
    } else {
      CanonicalConcat(loF, rest, lo, hi);
    }
  }

  lemma ReleaseCanonical(F: seq<Ext>, i: nat, e: Ext, lo: int, hi: int)
    requires Canonical(F, lo, hi) && FitsAt(F, i, e)
    requires Fine(e, lo, hi)
    ensures Canonical(Release(F, i, e), lo, hi)
  {
    MergeUpCanonical(F, i, e, lo, hi);
    assert Canonical(F[..i], lo, hi);
    MergeDownCanonical(F[..i], MergeUp(e, F[i..]), lo, hi);
  }

  lemma ReleaseCover(F: seq<Ext>, i: nat, e: Ext, lo: int, hi: int, a: int)
    requires Canonical(F, lo, hi) && i <= |F| && e.size >= 0
    ensures FreeAt(Release(F, i, e), a) <==> FreeAt(F, a) || InExt(e, a)
  {
    MergeUpCover(e, F[i..], a);
    MergeDownCover(F[..i], MergeUp(e, F[i..]), a);
    FreeAtConcat(F[..i], F[i..], a);
    assert F[..i] + F[i..] == F;
  }

  function Drop(L: seq<Block>, k: nat): seq<Block>
    requires k < |L|
  {
    L[..k] + L[k + 1..]
  }

  lemma DropCover(L: seq<Block>, k: nat, lo: int, hi: int, a: int)
    requires Disjoint(L, lo, hi) && k < |L|
    ensures LiveAt(Drop(L, k), a) <==> LiveAt(L, a) && !InBlock(L[k], a)
  {
    LiveAtConcat(L[..k], L[k + 1..], a);
    LiveAtConcat(L[..k] + [L[k]], L[k + 1..], a);
    LiveAtConcat(L[..k], [L[k]], a);
    LiveAtOne(L[k], a);
    assert L[..k] + [L[k]] + L[k + 1..] == L;
    if InBlock(L[k], a) {
      assert !LiveAt(L[..k], a) && !LiveAt(L[k + 1..], a);
    }
  }

  /** Freeing live block k keeps the tiling; i is its place among the free blocks. */
  lemma ReleaseTiles(F: seq<Ext>, L: seq<Block>, i: nat, k: nat, lo: int, hi: int)
    requires Tiles(F, L, lo, hi) && k < |L| && FitsAt(F, i, Ext(L[k].addr, HDR + L[k].n))
    ensures Tiles(Release(F, i, Ext(L[k].addr, HDR + L[k].n)), Drop(L, k), lo, hi)
  {
    var e := Ext(L[k].addr, HDR + L[k].n);
    ReleaseCanonical(F, i, e, lo, hi);
    DropDisjoint(L, k, lo, hi);
    forall a | lo <= a < hi
      ensures FreeAt(Release(F, i, e), a) <==> !LiveAt(Drop(L, k), a)
    {
      ReleaseCover(F, i, e, lo, hi, a);
      DropCover(L, k, lo, hi, a);
      assert FreeAt(F, a) <==> !LiveAt(L, a);
    }
  }

  lemma DropDisjoint(L: seq<Block>, k: nat, lo: int, hi: int)
    requires Disjoint(L, lo, hi) && k < |L|
    ensures Disjoint(Drop(L, k), lo, hi)
  {
    var M := Drop(L, k);
    assert forall j :: 0 <= j < |M| ==> M[j] == L[if j < k then j else j + 1];
  }

  // ---- the lists as they lie in memory ---------------------------------------------------------

  function At(F: seq<Ext>, i: nat): int { if i < |F| then F[i].addr else NULL }

  /** The cell that holds the pointer to free block i: `fl` itself, or the previous block's next field. */
  function Slot(F: seq<Ext>, i: nat): int
    requires i <= |F|
  {
    if i == 0 then FL else F[i - 1].addr
  }

  function Next(L: seq<Block>, i: int): int
    requires -1 <= i < |L|
  {
    if i + 1 < |L| then L[i + 1].addr else LIVE
  }

  function Prev(L: seq<Block>, i: int): int
    requires 0 <= i <= |L|
  {
    if i > 0 then L[i - 1].addr else LIVE
  }

  /** The free list F as it lies in memory m. */
  ghost predicate FreeLinked(m: seq<int>, F: seq<Ext>, lo: int, hi: int) {
    && 24 <= lo <= hi <= |m|
    && Canonical(F, lo, hi)
    && m[FL] == At(F, 0)
    && (forall i :: 0 <= i < |F| ==> FreeCell(m, F, i))
  }

  predicate FreeCell(m: seq<int>, F: seq<Ext>, i: nat) {
    && i < |F|
    && 0 <= F[i].addr && F[i].addr + 4 < |m|
    && m[F[i].addr] == At(F, i + 1)
    && m[F[i].addr + 4] == F[i].size
  }

  /** The live ring L as it lies in memory m, its head the static `live`. */
  ghost predicate Ring(m: seq<int>, L: seq<Block>, lo: int, hi: int) {
    && 24 <= lo <= hi <= |m|
    && Disjoint(L, lo, hi)
    && m[LIVE] == Next(L, -1)
    && m[LIVE + 4] == Prev(L, |L|)
    && (forall i :: 0 <= i < |L| ==> LiveCell(m, L, i))
  }

  predicate LiveCell(m: seq<int>, L: seq<Block>, i: nat) {
    && i < |L|
    && 0 <= L[i].addr && L[i].addr + 12 < |m|
    && m[L[i].addr] == Next(L, i)
    && m[L[i].addr + 4] == Prev(L, i)
    && m[L[i].addr + 8] == L[i].n
    && m[L[i].addr + 12] == (if L[i].job then 1 else 0)
  }

  /** Agreement outside the free blocks' headers keeps the free list. */
  ghost predicate SameFreeCells(m: seq<int>, w: seq<int>, F: seq<Ext>, lo: int, hi: int) {
    && Canonical(F, lo, hi) && 24 <= lo <= hi <= |m| == |w|
    && m[FL] == w[FL]
    && (forall i :: 0 <= i < |F| ==> m[F[i].addr] == w[F[i].addr] && m[F[i].addr + 4] == w[F[i].addr + 4])
  }

  lemma FreeFrame(m: seq<int>, w: seq<int>, F: seq<Ext>, lo: int, hi: int)
    requires FreeLinked(m, F, lo, hi) && SameFreeCells(m, w, F, lo, hi)
    ensures FreeLinked(w, F, lo, hi)
  {
    forall i | 0 <= i < |F| ensures FreeCell(w, F, i) {
      assert FreeCell(m, F, i);
    }
  }

  /** w is m with at most the cells x, y, z changed. */
  ghost predicate Outside(m: seq<int>, w: seq<int>, x: int, y: int, z: int) {
    |w| == |m| && forall a :: 0 <= a < |m| && a != x && a != y && a != z ==> w[a] == m[a]
  }

  /** w is m with at most the header at h, and the cells y, z changed. */
  ghost predicate OutsideHeader(m: seq<int>, w: seq<int>, h: int, y: int, z: int) {
    |w| == |m| && forall a :: 0 <= a < |m| && !(h <= a < h + HDR) && a != y && a != z ==> w[a] == m[a]
  }

  /** Where free block k's header stands relative to the free slot i and block i. */
  lemma CellApart(F: seq<Ext>, i: nat, k: nat, lo: int, hi: int)
    requires Canonical(F, lo, hi) && 24 <= lo && i <= |F| && k < |F|
    ensures F[k].addr + 4 != Slot(F, i) && (F[k].addr == Slot(F, i) <==> k + 1 == i)
    ensures k < i < |F| ==> F[k].addr + 4 < F[i].addr
    ensures i < k ==> F[i].addr + F[i].size < F[k].addr
  {
  }

  /** malloc's splice when block i is split: the slot that pointed at it points at the remainder. */
  lemma SplitLinked(m: seq<int>, w: seq<int>, F: seq<Ext>, i: nat, sz: int, lo: int, hi: int)
    requires FreeLinked(m, F, lo, hi) && i < |F| && HDR <= sz && F[i].size - sz >= HDR + 8
    requires Outside(m, w, F[i].addr + sz, F[i].addr + sz + 4, Slot(F, i))
    requires w[F[i].addr + sz] == m[F[i].addr] && w[F[i].addr + sz + 4] == F[i].size - sz
    requires w[Slot(F, i)] == F[i].addr + sz
    ensures FreeLinked(w, Carve(F, i, sz), lo, hi)
  {
    CarveCanonical(F, i, sz, lo, hi);
    var G := Carve(F, i, sz);
    assert G == F[i := Ext(F[i].addr + sz, F[i].size - sz)];
    assert FreeCell(m, F, i);
    forall k | 0 <= k < |G| ensures FreeCell(w, G, k) {
      assert FreeCell(m, F, k);
      CellApart(F, i, k, lo, hi);
    }
  }

  /** malloc's splice when block i is taken whole: the slot skips it. */
  lemma WholeLinked(m: seq<int>, w: seq<int>, F: seq<Ext>, i: nat, sz: int, lo: int, hi: int)
    requires FreeLinked(m, F, lo, hi) && i < |F| && HDR <= sz <= F[i].size < sz + HDR + 8
    requires Outside(m, w, Slot(F, i), Slot(F, i), Slot(F, i)) && w[Slot(F, i)] == m[F[i].addr]
    ensures FreeLinked(w, Carve(F, i, sz), lo, hi)
  {
    CarveCanonical(F, i, sz, lo, hi);
    var G := Carve(F, i, sz);
    assert G == F[..i] + F[i + 1..];
    assert FreeCell(m, F, i);
    forall k | 0 <= k < |G| ensures FreeCell(w, G, k) {
      var j := if k < i then k else k + 1;
      assert G[k] == F[j];
      assert FreeCell(m, F, j);
      CellApart(F, i, j, lo, hi);
    }
  }

  /** Live headers are 16 bytes apart or more. */
  lemma HeadersApart(L: seq<Block>, i: nat, k: nat, lo: int, hi: int)
    requires Disjoint(L, lo, hi) && i < |L| && k < |L| && i != k
    ensures L[i].addr + HDR <= L[k].addr || L[k].addr + HDR <= L[i].addr
  {
  }

  lemma RingFrame(m: seq<int>, w: seq<int>, L: seq<Block>, lo: int, hi: int)
    requires Ring(m, L, lo, hi) && |w| == |m| && w[LIVE] == m[LIVE] && w[LIVE + 4] == m[LIVE + 4]
    requires forall b, a :: b in L && b.addr <= a < b.addr + HDR ==> 0 <= a < |m| && w[a] == m[a]
    ensures Ring(w, L, lo, hi)
  {
    forall i | 0 <= i < |L| ensures LiveCell(w, L, i) {
      assert LiveCell(m, L, i) && L[i] in L;
    }
  }

  ghost predicate HeaderIs(w: seq<int>, b: Block, next: int, prev: int) {
    && 0 <= b.addr && b.addr + 12 < |w|
    && w[b.addr] == next && w[b.addr + 4] == prev && w[b.addr + 8] == b.n
    && w[b.addr + 12] == (if b.job then 1 else 0)
  }

  /** Two header addresses that cannot overlap. */
  predicate Clear(h: int, g: int) { h + HDR <= g || g + HDR <= h }

  lemma PushCell(m: seq<int>, w: seq<int>, L: seq<Block>, b: Block, k: nat)
    requires k < |L| && LiveCell(m, L, k)
    requires OutsideHeader(m, w, b.addr, LIVE, Next(L, -1) + 4)
    requires 0 <= Next(L, -1) + 4 < |w| && w[Next(L, -1) + 4] == b.addr
    requires Clear(b.addr, L[k].addr) && L[k].addr >= 24 && (k > 0 ==> Clear(L[0].addr, L[k].addr))
    ensures LiveCell(w, [b] + L, k + 1)
  {
  }

  /** malloc's link-in at the front of the ring. */
  lemma PushRing(m: seq<int>, w: seq<int>, L: seq<Block>, b: Block, lo: int, hi: int)
    requires Ring(m, L, lo, hi) && Disjoint([b] + L, lo, hi)
    requires OutsideHeader(m, w, b.addr, LIVE, Next(L, -1) + 4)
    requires HeaderIs(w, b, Next(L, -1), LIVE) && w[LIVE] == b.addr && w[Next(L, -1) + 4] == b.addr
    ensures Ring(w, [b] + L, lo, hi)
  {
    var M := [b] + L;
    assert M[0] == b;
    forall j | 1 <= j < |M| ensures LiveCell(w, M, j) {
      assert LiveCell(m, L, j - 1) && M[j] == L[j - 1];
      HeadersApart(M, 0, j, lo, hi);
      if j > 1 {
        HeadersApart(L, 0, j - 1, lo, hi);
      }
      PushCell(m, w, L, b, j - 1);
    }
    PushHead(m, w, L, b);
  }

  lemma PushHead(m: seq<int>, w: seq<int>, L: seq<Block>, b: Block)
    requires |m| >= 24 && m[LIVE + 4] == Prev(L, |L|) && (|L| > 0 ==> L[0].addr >= 24) && b.addr >= 24
    requires OutsideHeader(m, w, b.addr, LIVE, Next(L, -1) + 4)
    requires HeaderIs(w, b, Next(L, -1), LIVE) && w[LIVE] == b.addr
    requires 0 <= Next(L, -1) + 4 < |w| && w[Next(L, -1) + 4] == b.addr
    ensures LiveCell(w, [b] + L, 0) && w[LIVE] == Next([b] + L, -1) && w[LIVE + 4] == Prev([b] + L, |L| + 1)
  {
  }

  lemma DropCell(m: seq<int>, w: seq<int>, L: seq<Block>, k: nat, j: nat, i: nat)
    requires k < |L| && j + 1 < |L| && i == (if j < k then j else j + 1) && LiveCell(m, L, i) && L[i].addr >= 24
    requires Outside(m, w, Prev(L, k), Next(L, k) + 4, Prev(L, k))
    requires 0 <= Prev(L, k) < |w| && 0 <= Next(L, k) + 4 < |w|
    requires w[Prev(L, k)] == Next(L, k) && w[Next(L, k) + 4] == Prev(L, k)
    requires k > 0 && i != k - 1 ==> Clear(L[i].addr, L[k - 1].addr)
    requires k + 1 < |L| && i != k + 1 ==> Clear(L[i].addr, L[k + 1].addr)
    ensures LiveCell(w, Drop(L, k), j)
  {
    var M := Drop(L, k);
    assert M[j] == L[i];
    if j + 1 < |M| {
      assert M[j + 1] == L[if j + 1 < k then j + 1 else j + 2];
    }
    if j > 0 {
      assert M[j - 1] == L[if j - 1 < k then j - 1 else j];
    }
  }

  /** free's unlinking of ring member k. */
  lemma DropRing(m: seq<int>, w: seq<int>, L: seq<Block>, k: nat, lo: int, hi: int)
    requires Ring(m, L, lo, hi) && k < |L|
    requires Outside(m, w, Prev(L, k), Next(L, k) + 4, Prev(L, k))
    requires 0 <= Prev(L, k) < |w| && 0 <= Next(L, k) + 4 < |w|
    requires w[Prev(L, k)] == Next(L, k) && w[Next(L, k) + 4] == Prev(L, k)
    ensures Ring(w, Drop(L, k), lo, hi)
  {
    var M := Drop(L, k);
    DropDisjoint(L, k, lo, hi);
    forall j | 0 <= j < |M| ensures LiveCell(w, M, j) {
      var i := if j < k then j else j + 1;
      assert LiveCell(m, L, i);
      if k > 0 && i != k - 1 {
        HeadersApart(L, i, k - 1, lo, hi);
      }
      if k + 1 < |L| && i != k + 1 {
        HeadersApart(L, i, k + 1, lo, hi);
      }
      DropCell(m, w, L, k, j, i);
    }
    DropEnds(m, w, L, k);
  }

  lemma DropEnds(m: seq<int>, w: seq<int>, L: seq<Block>, k: nat)
    requires k < |L| && |m| >= 24 && m[LIVE] == Next(L, -1) && m[LIVE + 4] == Prev(L, |L|)
    requires (k > 0 ==> L[k - 1].addr >= 24) && (k + 1 < |L| ==> L[k + 1].addr >= 24)
    requires Outside(m, w, Prev(L, k), Next(L, k) + 4, Prev(L, k))
    requires 0 <= Prev(L, k) < |w| && 0 <= Next(L, k) + 4 < |w|
    requires w[Prev(L, k)] == Next(L, k) && w[Next(L, k) + 4] == Prev(L, k)
    ensures w[LIVE] == Next(Drop(L, k), -1) && w[LIVE + 4] == Prev(Drop(L, k), |L| - 1)
  {
  }

  lemma AboveCell(m: seq<int>, w: seq<int>, F: seq<Ext>, i: nat, t: nat, x: Ext, k: nat, j: nat)
    requires i <= t <= |F| && k != i && k < i + 1 + |F| - t && j == (if k < i then k else k - i - 1 + t)
    requires FreeCell(m, F, j) && Outside(m, w, Slot(F, i), Slot(F, i), Slot(F, i))
    requires 0 <= Slot(F, i) < |w| && w[Slot(F, i)] == x.addr
    requires F[j].addr + 4 != Slot(F, i) && (F[j].addr == Slot(F, i) <==> j + 1 == i)
    ensures FreeCell(w, F[..i] + [x] + F[t..], k)
  {
  }

  /** free's insertion above the blocks below: the slot gets the new block. */
  lemma JoinAbove(m: seq<int>, w: seq<int>, F: seq<Ext>, i: nat, t: nat, x: Ext, lo: int, hi: int)
    requires FreeLinked(m, F, lo, hi) && i <= t <= |F| && Canonical(F[..i] + [x] + F[t..], lo, hi)
    requires 0 <= x.addr && x.addr + 4 < |m| && m[x.addr] == At(F, t) && m[x.addr + 4] == x.size
    requires x.addr != Slot(F, i) && x.addr + 4 != Slot(F, i)
    requires Outside(m, w, Slot(F, i), Slot(F, i), Slot(F, i)) && w[Slot(F, i)] == x.addr
    ensures FreeLinked(w, F[..i] + [x] + F[t..], lo, hi)
  {
    var G := F[..i] + [x] + F[t..];
    forall k | 0 <= k < |G| && k != i ensures FreeCell(w, G, k) {
      var j := if k < i then k else k - i - 1 + t;
      assert FreeCell(m, F, j);
      CellApart(F, i, j, lo, hi);
      AboveCell(m, w, F, i, t, x, k, j);
    }
    AboveHead(m, w, F, i, t, x);
  }

  lemma AboveHead(m: seq<int>, w: seq<int>, F: seq<Ext>, i: nat, t: nat, x: Ext)
    requires i <= t <= |F| && |m| >= 24 && m[FL] == At(F, 0) && (i > 0 ==> F[i - 1].addr >= 24)
    requires 0 <= x.addr && x.addr + 4 < |m| && m[x.addr] == At(F, t) && m[x.addr + 4] == x.size
    requires 0 <= Slot(F, i) < |m| && x.addr != Slot(F, i) && x.addr + 4 != Slot(F, i)
    requires Outside(m, w, Slot(F, i), Slot(F, i), Slot(F, i)) && w[Slot(F, i)] == x.addr
    ensures FreeCell(w, F[..i] + [x] + F[t..], i) && w[FL] == At(F[..i] + [x] + F[t..], 0)
  {
  }

  lemma BelowCell(m: seq<int>, w: seq<int>, F: seq<Ext>, i: nat, t: nat, y: Ext, k: nat, j: nat)
    requires 0 < i <= t <= |F| && k != i - 1 && k < i + |F| - t && j == (if k < i - 1 then k else k - i + t)
    requires y.addr == F[i - 1].addr
    requires FreeCell(m, F, j) && Outside(m, w, F[i - 1].addr, F[i - 1].addr + 4, F[i - 1].addr)
    requires F[j].addr + 4 < F[i - 1].addr || F[i - 1].addr + 4 < F[j].addr
    ensures FreeCell(w, F[..i - 1] + [y] + F[t..], k)
  {
  }

  /** free's insertion into the block just below: that block grows. */
  lemma JoinBelow(m: seq<int>, w: seq<int>, F: seq<Ext>, i: nat, t: nat, y: Ext, lo: int, hi: int)
    requires FreeLinked(m, F, lo, hi) && 0 < i <= t <= |F| && y.addr == F[i - 1].addr
    requires Canonical(F[..i - 1] + [y] + F[t..], lo, hi)
    requires Outside(m, w, F[i - 1].addr, F[i - 1].addr + 4, F[i - 1].addr)
    requires 0 <= F[i - 1].addr && F[i - 1].addr + 4 < |m|
    requires w[F[i - 1].addr] == At(F, t) && w[F[i - 1].addr + 4] == y.size
    ensures FreeLinked(w, F[..i - 1] + [y] + F[t..], lo, hi)
  {
    var G := F[..i - 1] + [y] + F[t..];
    forall k | 0 <= k < |G| && k != i - 1 ensures FreeCell(w, G, k) {
      var j := if k < i - 1 then k else k - i + t;
      assert FreeCell(m, F, j);
      CellApart(F, i - 1, j, lo, hi);
      assert Fine(F[i - 1], lo, hi) && Fine(F[j], lo, hi);
      BelowCell(m, w, F, i, t, y, k, j);
    }
    assert G[i - 1] == y;
    if t < |F| {
      assert G[i] == F[t];
    }
    if i > 1 {
      assert G[0] == F[0];
    }
  }

  // ---- what one list's splice leaves of the other ------------------------------------------------

  ghost predicate FreeWrites(m: seq<int>, w: seq<int>, F: seq<Ext>) {
    |w| == |m| && forall a :: 0 <= a < |m| && a != FL && !FreeAt(F, a) ==> w[a] == m[a]
  }

  /** Writes confined to free blocks and the `fl` cell leave every live block alone. */
  lemma FreeWritesSpareLive(m: seq<int>, w: seq<int>, F: seq<Ext>, L: seq<Block>, lo: int, hi: int)
    requires Tiles(F, L, lo, hi) && Ring(m, L, lo, hi) && FreeWrites(m, w, F)
    ensures Ring(w, L, lo, hi)
    ensures SameBlocks(m, w, L)
  {
    forall b, a | b in L && InBlock(b, a) ensures 0 <= a < |m| && w[a] == m[a] {
      var k :| 0 <= k < |L| && L[k] == b;
      assert lo <= a < hi && LiveAt(L, a);
    }
    assert !FreeAt(F, LIVE) && !FreeAt(F, LIVE + 4);
    forall b, a | b in L && b.addr <= a < b.addr + HDR ensures 0 <= a < |m| && w[a] == m[a] {
      assert b.n >= 0;
      assert InBlock(b, a);
    }
    RingFrame(m, w, L, lo, hi);
  }

  ghost predicate HeaderAt(L: seq<Block>, a: int) {
    exists k :: 0 <= k < |L| && L[k].addr <= a < L[k].addr + HDR
  }

  ghost predicate HeaderWrites(m: seq<int>, w: seq<int>, L: seq<Block>) {
    |w| == |m| && forall a :: 0 <= a < |m| && a != LIVE && a != LIVE + 4 && !HeaderAt(L, a) ==> w[a] == m[a]
  }

  /** Writes confined to live headers and the ring head leave the free list and every payload alone. */
  lemma HeaderWritesSpareFree(m: seq<int>, w: seq<int>, F: seq<Ext>, L: seq<Block>, lo: int, hi: int)
    requires Tiles(F, L, lo, hi) && FreeLinked(m, F, lo, hi) && HeaderWrites(m, w, L)
    ensures FreeLinked(w, F, lo, hi)
    ensures SamePayloads(m, w, L)
  {
    forall i | 0 <= i < |F| ensures w[F[i].addr] == m[F[i].addr] && w[F[i].addr + 4] == m[F[i].addr + 4] {
      assert Fine(F[i], lo, hi);
      FreeNotHeader(F, L, i, F[i].addr, lo, hi);
      FreeNotHeader(F, L, i, F[i].addr + 4, lo, hi);
    }
    forall k | 0 <= k < |L| ensures lo <= L[k].addr {
    }
    assert !HeaderAt(L, FL);
    FreeFrame(m, w, F, lo, hi);
    forall b, a | b in L && InPayload(b, a) ensures 0 <= a < |m| && w[a] == m[a] {
      PayloadNotHeader(L, b, a, lo, hi);
    }
  }

  lemma FreeNotHeader(F: seq<Ext>, L: seq<Block>, i: nat, a: int, lo: int, hi: int)
    requires Tiles(F, L, lo, hi) && i < |F| && InExt(F[i], a)
    ensures !HeaderAt(L, a)
  {
    Apart(F, L, lo, hi);
    forall k | 0 <= k < |L| ensures !(L[k].addr <= a < L[k].addr + HDR) {
      assert F[i].addr + F[i].size <= L[k].addr || L[k].addr + HDR + L[k].n <= F[i].addr;
    }
  }

  lemma PayloadNotHeader(L: seq<Block>, b: Block, a: int, lo: int, hi: int)
    requires Disjoint(L, lo, hi) && b in L && InPayload(b, a)
    ensures lo <= a < hi && !HeaderAt(L, a)
  {
  }

  lemma FirstFitIs(F: seq<Ext>, sz: int, i: nat)
    requires i <= |F| && (i < |F| ==> F[i].size >= sz) && forall j :: 0 <= j < i ==> F[j].size < sz
    ensures FirstFit(F, sz) == i
  {
  }

  /** Every live payload byte is the same in m and w. */
  ghost predicate SamePayloads(m: seq<int>, w: seq<int>, L: seq<Block>) {
    |w| == |m| && forall b, a :: b in L && InPayload(b, a) ==> 0 <= a < |m| && w[a] == m[a]
  }

  ghost predicate SameBlocks(m: seq<int>, w: seq<int>, L: seq<Block>) {
    |w| == |m| && forall b, a :: b in L && InBlock(b, a) ==> 0 <= a < |m| && w[a] == m[a]
  }

  predicate InPayload(b: Block, a: int) { b.addr + HDR <= a < b.addr + HDR + b.n }

  /** The blocks a job does not own, in list order. */
  function Kept(L: seq<Block>): seq<Block> {
    if L == [] then [] else (if L[0].job then [] else [L[0]]) + Kept(L[1..])
  }

  lemma SlotIsFree(F: seq<Ext>, i: nat, lo: int, hi: int)
    requires Canonical(F, lo, hi) && i <= |F|
    ensures Slot(F, i) == FL || FreeAt(F, Slot(F, i))
    ensures i < |F| ==> forall a :: InExt(F[i], a) ==> FreeAt(F, a)
  {
  }

  lemma FirstHeaders(m: seq<int>, w: seq<int>, L: seq<Block>, b: Block)
    requires OutsideHeader(m, w, b.addr, LIVE, Next(L, -1) + 4)
    ensures HeaderWrites(m, w, [b] + L)
  {
    var M := [b] + L;
    forall a | 0 <= a < |m| && a != LIVE && a != LIVE + 4 && !HeaderAt(M, a) ensures w[a] == m[a] {
      assert !(M[0].addr <= a < M[0].addr + HDR);
      if |L| > 0 {
        assert !(M[1].addr <= a < M[1].addr + HDR);
      }
    }
  }

  lemma FrontApart(L: seq<Block>, b: Block, lo: int, hi: int)
    requires Disjoint([b] + L, lo, hi)
    ensures lo <= b.addr && b.addr + HDR <= hi
    ensures |L| > 0 ==> Clear(b.addr, L[0].addr) && lo <= L[0].addr && L[0].addr + HDR <= hi
  {
    var M := [b] + L;
    assert M[0] == b;
    if |L| > 0 {
      assert M[1] == L[0];
      HeadersApart(M, 0, 1, lo, hi);
    }
  }

  lemma OldPayloads(m: seq<int>, w: seq<int>, v: seq<int>, L: seq<Block>, c: Block)
    requires SameBlocks(m, w, L) && SamePayloads(w, v, [c] + L)
    ensures SamePayloads(m, v, L)
  {
  }

  lemma RingAround(m: seq<int>, L: seq<Block>, k: nat, lo: int, hi: int)
    requires Ring(m, L, lo, hi) && k < |L|
    ensures LiveCell(m, L, k) && lo <= L[k].addr && L[k].addr + HDR <= hi
    ensures (Prev(L, k) == LIVE && k == 0)
            || (k > 0 && Prev(L, k) == L[k - 1].addr >= lo && Prev(L, k) + HDR <= hi && Clear(L[k - 1].addr, L[k].addr))
    ensures (Next(L, k) == LIVE && k == |L| - 1)
            || (k < |L| - 1 && Next(L, k) == L[k + 1].addr >= lo && Next(L, k) + HDR <= hi && Clear(L[k + 1].addr, L[k].addr))
    ensures Prev(L, k) == LIVE || Next(L, k) == LIVE || Clear(Prev(L, k), Next(L, k))
    ensures Prev(L, k) == LIVE || HeaderAt(L, Prev(L, k))
    ensures Next(L, k) == LIVE || HeaderAt(L, Next(L, k) + 4)
  {
    if k > 0 {
      HeadersApart(L, k - 1, k, lo, hi);
      assert L[k - 1].addr <= Prev(L, k) < L[k - 1].addr + HDR;
    }
    if k + 1 < |L| {
      HeadersApart(L, k + 1, k, lo, hi);
      assert L[k + 1].addr <= Next(L, k) + 4 < L[k + 1].addr + HDR;
    }
    if 0 < k < |L| - 1 {
      HeadersApart(L, k - 1, k + 1, lo, hi);
    }
  }

  lemma PlaceFits(F: seq<Ext>, i: nat, e: Ext, lo: int, hi: int)
    requires Canonical(F, lo, hi) && i <= |F| && e.size >= HDR
    requires forall k :: 0 <= k < |F| ==> F[k].addr + F[k].size <= e.addr || e.addr + e.size <= F[k].addr
    requires (i > 0 ==> F[i - 1].addr < e.addr) && (i < |F| ==> F[i].addr >= e.addr)
    ensures FitsAt(F, i, e)
  {
  }

  lemma SizesBounded(F: seq<Ext>, L: seq<Block>, lo: int, hi: int)
    requires Tiles(F, L, lo, hi)
    ensures forall i :: 0 <= i < |F| ==> F[i].size <= hi - lo && F[i].addr >= lo
  {
  }

  /** A request longer than the heap fits nowhere. */
  lemma NoneSoBig(F: seq<Ext>, L: seq<Block>, lo: int, hi: int, n: int, end: int)
    requires Tiles(F, L, lo, hi) && hi <= end && 0 <= n
    ensures n > end - lo ==> forall i :: 0 <= i < |F| ==> F[i].size < Need(n)
  {
  }

  /** Release, spelled by the two decisions the code takes: t = i + 1 when e meets the block above. */
  lemma ReleaseShape(F: seq<Ext>, i: nat, e: Ext, x: Ext, t: nat)
    requires i <= |F|
    requires if i < |F| && e.addr + e.size == F[i].addr then t == i + 1 && x == Ext(e.addr, e.size + F[i].size)
             else t == i && x == e
    ensures if i > 0 && F[i - 1].addr + F[i - 1].size == e.addr
            then Release(F, i, e) == F[..i - 1] + [Ext(F[i - 1].addr, F[i - 1].size + x.size)] + F[t..]
            else Release(F, i, e) == F[..i] + [x] + F[t..]
  {
    assert MergeUp(e, F[i..]) == [x] + F[t..];
    if i > 0 {
      assert F[..i][..i - 1] == F[..i - 1];
    }
  }

  /** free's last step: hang the (possibly grown) block x on slot i, or let the block below swallow it. */
  lemma JoinLinked(m: seq<int>, w: seq<int>, F: seq<Ext>, i: nat, e: Ext, x: Ext, t: nat, lo: int, hi: int)
    requires FreeLinked(m, F, lo, hi) && FitsAt(F, i, e) && Fine(e, lo, hi)
    requires if i < |F| && e.addr + e.size == F[i].addr then t == i + 1 && x == Ext(e.addr, e.size + F[i].size)
             else t == i && x == e
    requires m[x.addr] == At(F, t) && m[x.addr + 4] == x.size
    requires Outside(m, w, Slot(F, i), if i > 0 then Slot(F, i) + 4 else Slot(F, i), Slot(F, i))
    requires 0 <= Slot(F, i) && Slot(F, i) + 4 < |m|
    requires if i > 0 && F[i - 1].addr + F[i - 1].size == e.addr
             then w[Slot(F, i)] == m[x.addr] && w[Slot(F, i) + 4] == F[i - 1].size + x.size
             else w[Slot(F, i)] == x.addr && w[Slot(F, i) + 4] == m[Slot(F, i) + 4]
    ensures FreeLinked(w, Release(F, i, e), lo, hi)
  {
    ReleaseCanonical(F, i, e, lo, hi);
    ReleaseShape(F, i, e, x, t);
    FitsClear(F, i, e, lo, hi);
    hide FreeLinked, Canonical, Release, FitsAt, Fine;
    if i > 0 && F[i - 1].addr + F[i - 1].size == e.addr {
      JoinBelow(m, w, F, i, t, Ext(F[i - 1].addr, F[i - 1].size + x.size), lo, hi);
    } else {
      JoinAbove(m, w, F, i, t, x, lo, hi);
    }
  }

  /** A block that fits at i has its header clear of every free header and of slot i. */
  lemma FitsClear(F: seq<Ext>, i: nat, e: Ext, lo: int, hi: int)
    requires Canonical(F, lo, hi) && FitsAt(F, i, e) && Fine(e, lo, hi) && 24 <= lo
    ensures forall k :: 0 <= k < |F| ==> F[k].addr + HDR <= e.addr || e.addr + HDR <= F[k].addr
    ensures Slot(F, i) + HDR <= e.addr || Slot(F, i) == FL
  {
  }

  ghost predicate ReleaseWrites(m: seq<int>, w: seq<int>, F: seq<Ext>, e: Ext) {
    |w| == |m| && forall a :: 0 <= a < |m| && a != FL && !FreeAt(F, a) && !InExt(e, a) ==> w[a] == m[a]
  }

  lemma SpliceWrites(m: seq<int>, w: seq<int>, v: seq<int>, F: seq<Ext>, i: nat, e: Ext, lo: int, hi: int)
    requires Canonical(F, lo, hi) && i <= |F| && e.size >= HDR
    requires OutsideHeader(m, w, e.addr, e.addr, e.addr)
    requires Outside(w, v, Slot(F, i), if i > 0 then Slot(F, i) + 4 else Slot(F, i), Slot(F, i))
    ensures ReleaseWrites(m, v, F, e)
  {
  }

  lemma HeaderFrame(m: seq<int>, w: seq<int>, F: seq<Ext>, f: int, lo: int, hi: int)
    requires FreeLinked(m, F, lo, hi) && OutsideHeader(m, w, f, f, f) && f >= 24
    requires forall k :: 0 <= k < |F| ==> F[k].addr + HDR <= f || f + HDR <= F[k].addr
    ensures FreeLinked(w, F, lo, hi)
  {
    FreeFrame(m, w, F, lo, hi);
  }

  /** Writes confined to free blocks, the released block and `fl` leave the other live blocks alone. */
  lemma ReleaseSparesLive(m: seq<int>, w: seq<int>, F: seq<Ext>, L: seq<Block>, k: nat, lo: int, hi: int)
    requires Tiles(F, L, lo, hi) && k < |L| && Ring(m, Drop(L, k), lo, hi)
    requires ReleaseWrites(m, w, F, Ext(L[k].addr, HDR + L[k].n))
    ensures Ring(w, Drop(L, k), lo, hi)
    ensures SameBlocks(m, w, Drop(L, k))
  {
    var M := Drop(L, k);
    forall b, a | b in M && InBlock(b, a) ensures 0 <= a < |m| && w[a] == m[a] {
      var j :| 0 <= j < |M| && M[j] == b;
      assert LiveAt(M, a);
      DropCover(L, k, lo, hi, a);
      assert lo <= a < hi;
    }
    forall b, a | b in M && b.addr <= a < b.addr + HDR ensures 0 <= a < |m| && w[a] == m[a] {
      assert b.n >= 0;
      assert InBlock(b, a);
    }
    assert !FreeAt(F, LIVE) && !FreeAt(F, LIVE + 4);
    RingFrame(m, w, M, lo, hi);
  }

  lemma DropSubset(L: seq<Block>, k: nat)
    requires k < |L|
    ensures forall b :: b in Drop(L, k) ==> b in L
  {
  }

  lemma TwoWrites(m: seq<int>, w: seq<int>, v: seq<int>, F: seq<Ext>, e: Ext)
    requires OutsideHeader(m, w, e.addr, e.addr, e.addr) && e.size >= HDR && ReleaseWrites(w, v, F, e)
    ensures ReleaseWrites(m, v, F, e)
  {
  }

  ghost predicate NoOverlap(F: seq<Ext>, e: Ext) {
    forall k :: 0 <= k < |F| ==> F[k].addr + F[k].size <= e.addr || e.addr + e.size <= F[k].addr
  }

  lemma HeaderClear(F: seq<Ext>, e: Ext, lo: int, hi: int)
    requires Canonical(F, lo, hi) && NoOverlap(F, e) && e.size >= HDR
    ensures forall k :: 0 <= k < |F| ==> F[k].addr + HDR <= e.addr || e.addr + HDR <= F[k].addr
  {
  }

  lemma LiveClear(F: seq<Ext>, L: seq<Block>, k: nat, lo: int, hi: int)
    requires Tiles(F, L, lo, hi) && k < |L|
    ensures NoOverlap(F, Ext(L[k].addr, HDR + L[k].n)) && Fine(Ext(L[k].addr, HDR + L[k].n), lo, hi)
  {
    Apart(F, L, lo, hi);
  }

  lemma LeftPayloads(m: seq<int>, w: seq<int>, v: seq<int>, L: seq<Block>, k: nat)
    requires k < |L| && SamePayloads(m, w, L) && SameBlocks(w, v, Drop(L, k))
    ensures SamePayloads(m, v, Drop(L, k))
  {
  }

  lemma SameMemory(m: seq<int>, L: seq<Block>, lo: int, hi: int)
    requires 0 <= lo && hi <= |m| && Ring(m, L, lo, hi)
    ensures SamePayloads(m, m, L)
  {
  }

  lemma NoPayloads(m: seq<int>, w: seq<int>)
    requires |m| == |w|
    ensures SamePayloads(m, w, [])
  {
  }

  lemma LiveAddrs(L: seq<Block>, lo: int, hi: int)
    requires Disjoint(L, lo, hi)
    ensures forall k :: 0 <= k < |L| ==> lo <= L[k].addr && L[k].addr + HDR + L[k].n <= hi
  {
  }

  /** w is m except inside the payload of b. */
  ghost predicate PayloadWrite(m: seq<int>, w: seq<int>, b: Block) {
    |w| == |m| && forall a :: 0 <= a < |m| && !InPayload(b, a) ==> w[a] == m[a]
  }

  lemma PayloadInside(F: seq<Ext>, L: seq<Block>, k: nat, a: int, lo: int, hi: int)
    requires Tiles(F, L, lo, hi) && k < |L| && InPayload(L[k], a)
    ensures lo <= a < hi
  {
  }

  lemma PayloadSparesFree(m: seq<int>, w: seq<int>, F: seq<Ext>, L: seq<Block>, k: nat, lo: int, hi: int)
    requires Tiles(F, L, lo, hi) && k < |L| && FreeLinked(m, F, lo, hi) && PayloadWrite(m, w, L[k])
    ensures FreeLinked(w, F, lo, hi)
  {
    Apart(F, L, lo, hi);
    forall i | 0 <= i < |F| ensures w[F[i].addr] == m[F[i].addr] && w[F[i].addr + 4] == m[F[i].addr + 4] {
      assert Fine(F[i], lo, hi);
      assert F[i].addr + F[i].size <= L[k].addr || L[k].addr + HDR + L[k].n <= F[i].addr;
    }
    FreeFrame(m, w, F, lo, hi);
  }

  lemma PayloadSparesRing(m: seq<int>, w: seq<int>, L: seq<Block>, k: nat, lo: int, hi: int)
    requires k < |L| && Ring(m, L, lo, hi) && PayloadWrite(m, w, L[k])
    ensures Ring(w, L, lo, hi)
  {
    forall b, a | b in L && b.addr <= a < b.addr + HDR ensures 0 <= a < |m| && w[a] == m[a] {
      var j :| 0 <= j < |L| && L[j] == b;
      assert HeaderAt(L, a);
      if InPayload(L[k], a) {
        PayloadNotHeader(L, L[k], a, lo, hi);
      }
    }
    RingFrame(m, w, L, lo, hi);
  }

  lemma PayloadsApart(F: seq<Ext>, L: seq<Block>, d: nat, s: nat, lo: int, hi: int)
    requires Tiles(F, L, lo, hi) && d < |L| && s < |L| && d != s
    ensures lo <= L[d].addr && L[d].addr + HDR + L[d].n <= hi && lo <= L[s].addr && L[s].addr + HDR + L[s].n <= hi
    ensures L[d].addr + HDR + L[d].n <= L[s].addr || L[s].addr + HDR + L[s].n <= L[d].addr
    ensures L[d].n >= 0 && L[s].n >= 0
  {
  }

  lemma LiveStarts(F: seq<Ext>, L: seq<Block>, lo: int, hi: int)
    requires Tiles(F, L, lo, hi)
    ensures forall k :: 0 <= k < |L| ==> lo <= L[k].addr && L[k].n >= 0
  {
  }

  lemma CapacityAt(m: seq<int>, L: seq<Block>, k: nat, lo: int, hi: int)
    requires Ring(m, L, lo, hi) && k < |L|
    ensures 0 <= L[k].addr && L[k].addr + 8 < |m| && m[L[k].addr + 8] == L[k].n && 0 <= L[k].n
    ensures forall j :: 0 <= j < |L| && j != k ==> L[j].addr != L[k].addr
  {
    assert LiveCell(m, L, k);
    forall j | 0 <= j < |L| && j != k ensures L[j].addr != L[k].addr {
      HeadersApart(L, j, k, lo, hi);
    }
  }

  /** realloc, told from memory to memory: allocate (m), copy (w), free (v). */
  lemma ReallocEnd(o: seq<int>, m: seq<int>, w: seq<int>, v: seq<int>, F: seq<Ext>, L: seq<Block>, M: seq<Block>,
                   k: nat, lo: int, hi: int)
    requires k < |L| && |M| == |L| + 1 && M == [M[0]] + L && Tiles(F, M, lo, hi) && hi <= |m| && 0 <= lo
    requires SamePayloads(o, m, L) && PayloadWrite(m, w, M[0]) && SamePayloads(w, v, Drop(M, k + 1))
    ensures Drop(M, k + 1) == [M[0]] + Drop(L, k)
    ensures SamePayloads(o, v, Drop(L, k))
    ensures SamePayloads(w, v, [M[0]])
    ensures SamePayloads(o, m, [L[k]])
  {
    assert Drop(M, k + 1) == [M[0]] + Drop(L, k);
    DropSubset(L, k);
    forall b, a | b in Drop(L, k) && InPayload(b, a) ensures 0 <= a < |o| && v[a] == o[a] {
      assert b in L && b in Drop(M, k + 1);
      var j :| 0 <= j < |L| && L[j] == b;
      assert M[j + 1] == b;
      PayloadsApart(F, M, 0, j + 1, lo, hi);
    }
    assert M[0] in Drop(M, k + 1) && L[k] in L;
  }

  /** cnt bytes of v from dst are the bytes of o from src. */
  ghost predicate Copied(v: seq<int>, dst: int, o: seq<int>, src: int, cnt: int) {
    && 0 <= dst && dst + cnt <= |v| && 0 <= src && src + cnt <= |o|
    && forall i {:trigger v[i]} :: dst <= i < dst + cnt ==> v[i] == o[i - dst + src]
  }

  lemma MovedBytes(o: seq<int>, m: seq<int>, w: seq<int>, v: seq<int>, b: Block, s: Block, cnt: int)
    requires SamePayloads(o, m, [s]) && SamePayloads(w, v, [b]) && |m| == |w| && 0 <= cnt <= b.n && cnt <= s.n
    requires Copied(w, b.addr + HDR, m, s.addr + HDR, cnt)
    ensures Copied(v, b.addr + HDR, o, s.addr + HDR, cnt)
  {
    var dst, src := b.addr + HDR, s.addr + HDR;
    forall i {:trigger v[i]} | dst <= i < dst + cnt ensures v[i] == o[i - dst + src] {
      assert InPayload(b, i) && b in [b];
      assert InPayload(s, i - dst + src) && s in [s];
      assert w[i] == m[i - dst + src];
    }
  }

  lemma PayloadBounds(F: seq<Ext>, L: seq<Block>, k: nat, lo: int, hi: int)
    requires Tiles(F, L, lo, hi) && k < |L|
    ensures lo <= L[k].addr && L[k].addr + HDR + L[k].n <= hi
  {
  }

  function JobBytes(L: seq<Block>): int {
    if L == [] then 0 else (if L[0].job then L[0].n else 0) + JobBytes(L[1..])
  }

  lemma {:induction false} KeptSnoc(L: seq<Block>, b: Block)
    ensures Kept(L + [b]) == Kept(L) + (if b.job then [] else [b])
  {
    if L == [] {
      assert L + [b] == [b] && [b][1..] == [];
    } else {
      KeptSnoc(L[1..], b);
      assert (L + [b])[1..] == L[1..] + [b];
    }
  }

  lemma {:induction false} JobBytesSnoc(L: seq<Block>, b: Block)
    ensures JobBytes(L + [b]) == JobBytes(L) + (if b.job then b.n else 0)
  {
    if L == [] {
      assert L + [b] == [b] && [b][1..] == [];
    } else {
      JobBytesSnoc(L[1..], b);
      assert (L + [b])[1..] == L[1..] + [b];
    }
  }

  lemma KeptStep(M: seq<Block>, i: nat)
    requires i < |M|
    ensures Kept(M[..i + 1]) == Kept(M[..i]) + (if M[i].job then [] else [M[i]])
    ensures JobBytes(M[..i + 1]) == JobBytes(M[..i]) + (if M[i].job then M[i].n else 0)
    ensures M[i..] == [M[i]] + M[i + 1..]
  {
    assert M[..i + 1] == M[..i] + [M[i]];
    KeptSnoc(M[..i], M[i]);
    JobBytesSnoc(M[..i], M[i]);
  }

  lemma PayloadChain(m: seq<int>, w: seq<int>, v: seq<int>, L: seq<Block>, j: nat)
    requires j < |L| && SamePayloads(m, w, L) && SamePayloads(w, v, Drop(L, j))
    ensures SamePayloads(m, v, Drop(L, j))
  {
  }

  lemma NextAfterDrop(L: seq<Block>, j: nat)
    requires j < |L|
    ensures Next(Drop(L, j), j - 1) == Next(L, j)
  {
  }

  lemma PayloadSame(m: seq<int>, w: seq<int>, v: seq<int>, L: seq<Block>)
    requires SamePayloads(m, w, L) && SamePayloads(w, v, L)
    ensures SamePayloads(m, v, L)
  {
  }

  lemma ProductFits(k: int, n: int)
    requires 0 <= k && 0 <= n
    ensures 0 <= k * n && 0 <= k * n % WORD < WORD && (k * n < WORD ==> k * n % WORD == k * n)
  {
  }

  /** Writing into the newest block's payload leaves the older payloads alone. */
  lemma WriteSparesOthers(m: seq<int>, w: seq<int>, F: seq<Ext>, L: seq<Block>, lo: int, hi: int)
    requires |L| > 0 && PayloadWrite(m, w, L[0]) && Tiles(F, L, lo, hi) && 0 <= lo && hi <= |m|
    ensures SamePayloads(m, w, L[1..])
  {
    hide Tiles;
    forall b, a | b in L[1..] && InPayload(b, a) ensures 0 <= a < |m| && w[a] == m[a] {
      var k :| 1 <= k < |L| && L[k] == b;
      PayloadsApart(F, L, 0, k, lo, hi);
    }
  }

  /** jobheap_end's walk after i of the blocks M: the kept ones among them, then the rest. */
  ghost predicate Swept(M: seq<Block>, i: nat, K: seq<Block>, L: seq<Block>, b: int, sum: int) {
    && i <= |M| && K == Kept(M[..i]) && L == K + M[i..]
    && b == (if i < |M| then M[i].addr else LIVE)
    && sum == JobBytes(M[..i]) % WORD
    && forall k :: 0 <= k < |M| ==> 24 <= M[k].addr
  }

  lemma SweptInit(M: seq<Block>)
    requires forall k :: 0 <= k < |M| ==> 24 <= M[k].addr
    ensures Swept(M, 0, [], M, Next(M, -1), 0)
  {
  }

  lemma SweptHere(M: seq<Block>, i: nat, K: seq<Block>, L: seq<Block>, b: int, sum: int)
    requires Swept(M, i, K, L, b, sum) && b != LIVE
    ensures i < |M| && |K| < |L| && L[|K|] == M[i] && M[i].addr == b
  {
  }

  lemma SweptStep(M: seq<Block>, i: nat, K: seq<Block>, L: seq<Block>, b: int, sum: int)
    requires Swept(M, i, K, L, b, sum) && i < |M| && |K| < |L|
    ensures M[i].job ==>
              Swept(M, i + 1, K, Drop(L, |K|), Next(Drop(L, |K|), |K| - 1), (sum + M[i].n) % WORD)
    ensures !M[i].job ==> Swept(M, i + 1, K + [M[i]], L, Next(L, |K|), sum)
  {
    KeptStep(M, i);
    SweptSuffix(K, M, i);
  }

  lemma SweptSuffix(K: seq<Block>, M: seq<Block>, i: nat)
    requires i < |M|
    ensures Drop(K + M[i..], |K|) == K + M[i + 1..]
    ensures K + M[i..] == (K + [M[i]]) + M[i + 1..]
    ensures Next(K + M[i + 1..], |K| - 1) == if i + 1 < |M| then M[i + 1].addr else LIVE
    ensures Next(K + M[i..], |K|) == if i + 1 < |M| then M[i + 1].addr else LIVE
  {
  }

  lemma SweptEnd(M: seq<Block>, i: nat, K: seq<Block>, L: seq<Block>, sum: int)
    requires Swept(M, i, K, L, LIVE, sum)
    ensures i == |M| && L == Kept(M) && sum == JobBytes(M) % WORD
  {
    assert M[..|M|] == M;
  }

  lemma RingStart(m: seq<int>, L: seq<Block>, lo: int, hi: int)
    requires Ring(m, L, lo, hi)
    ensures 24 <= lo <= hi <= |m| && m[LIVE] == Next(L, -1)
    ensures forall k :: 0 <= k < |L| ==> 24 <= L[k].addr
  {
  }

  /** A kernel's heap traffic. Blocks are named by their place in the live ring. */
  datatype Op = Alloc(n: int) | Give(i: int) | Resize(i: int, n: int) | Put(i: int, off: int, v: int)

  /** The payloads of K are the same, apart from the block at `out`. */
  ghost predicate SameExcept(m: seq<int>, w: seq<int>, K: seq<Block>, out: int) {
    |w| == |m| && forall b, a :: b in K && b.addr != out && InPayload(b, a) ==> 0 <= a < |m| && w[a] == m[a]
  }

  lemma SameExceptSelf(m: seq<int>, L: seq<Block>, out: int, lo: int, hi: int)
    requires Ring(m, L, lo, hi)
    ensures SameExcept(m, m, Kept(L), out)
  {
    KeptSubset(L);
  }

  lemma SameExceptTrans(m: seq<int>, w: seq<int>, v: seq<int>, K: seq<Block>, out: int)
    requires SameExcept(m, w, K, out) && SameExcept(w, v, K, out)
    ensures SameExcept(m, v, K, out)
  {
  }

  lemma {:induction false} KeptSubset(L: seq<Block>)
    ensures forall b :: b in Kept(L) ==> b in L && !b.job
  {
    if L != [] {
      KeptSubset(L[1..]);
    }
  }

  lemma KeptPush(L: seq<Block>, b: Block)
    requires b.job
    ensures Kept([b] + L) == Kept(L)
  {
  }

  lemma {:induction false} KeptDrop(L: seq<Block>, i: nat)
    requires i < |L| && L[i].job
    ensures Kept(Drop(L, i)) == Kept(L)
  {
    if i == 0 {
      assert Drop(L, 0) == L[1..];
    } else {
      KeptDrop(L[1..], i - 1);
      assert Drop(L, i)[0] == L[0] && Drop(L, i)[1..] == Drop(L[1..], i - 1);
    }
  }

  lemma KeptPayloads(m: seq<int>, w: seq<int>, L: seq<Block>, out: int)
    requires SamePayloads(m, w, L)
    ensures SameExcept(m, w, Kept(L), out)
  {
    KeptSubset(L);
  }

  lemma StoreKept(m: seq<int>, w: seq<int>, F: seq<Ext>, L: seq<Block>, i: nat, out: int, lo: int, hi: int)
    requires Tiles(F, L, lo, hi) && 0 <= lo && hi <= |m| && i < |L| && (L[i].job || L[i].addr == out)
    requires PayloadWrite(m, w, L[i])
    ensures SameExcept(m, w, Kept(L), out)
  {
    KeptSubset(L);
    forall b, a | b in Kept(L) && b.addr != out && InPayload(b, a) ensures 0 <= a < |m| && w[a] == m[a] {
      var j :| 0 <= j < |L| && L[j] == b;
      PayloadsApart(F, L, i, j, lo, hi);
    }
  }

  // ---- one node-0 job --------------------------------------------------------------------------

  /** Room between the reply header and the payload for an in-place job's 4-byte pixels (root.c). */
  function QGAP(n: int): (r: int)
    requires n >= 0
    ensures r % 8 == 0 && 3 * (r - LREP_HDR - 64) > n && 3 * (r - LREP_HDR - 64 - 8) <= n
  {
    LREP_HDR + 64 + (n / 3 + 8) / 8 * 8
  }

  /** A node-0 request as the heap sees it: payload length field, whether the op is 'q', the output bound
      job_out_cap gives, and what the kernel does with the heap. */
  datatype Job = Job(n: int, quant: bool, cap: int, ops: seq<Op>)

  /** The kernel works in the payload's own buffer. */
  predicate InPlace(job: Job) { job.n > 0 && job.quant }

  /** What host allocates for the payload. */
  function Payload(job: Job): int
    requires job.n >= 0
  {
    (if InPlace(job) then QGAP(job.n) else 0) + (if job.n > 0 then job.n else 1)
  }

  /** The heap F can hold the job's buffers: the payload, and then the reply unless it is in place. */
  ghost predicate Fits(F: seq<Ext>, job: Job)
    requires job.cap >= 0
  {
    && 0 <= job.n <= JOB_BIG
    && var i := FirstFit(F, Need(Payload(job)));
       i < |F|
       && (InPlace(job)
           || var G := Carve(F, i, Need(Payload(job))); FirstFit(G, Need(LREP_HDR + job.cap)) < |G|)
  }

  /** The live list during a job: the reply and payload blocks in front of what was there. */
  ghost predicate Holding(L: seq<Block>, L0: seq<Block>, blk: int, rep: int, inPlace: bool) {
    if blk == NULL then rep == NULL && !inPlace && L == L0
    else if inPlace then rep == blk && |L| > 0 && L == [L[0]] + L0 && L[0].addr + HDR == blk
    else if rep == NULL then |L| > 0 && L == [L[0]] + L0 && L[0].addr + HDR == blk
    else |L| > 1 && L == [L[0], L[1]] + L0 && L[0].addr + HDR == rep && L[1].addr + HDR == blk
  }

  lemma PayloadSize(job: Job)
    requires 0 <= job.n <= JOB_BIG
    ensures 0 <= Payload(job) < WORD
  {
  }

  lemma BuffersApart(F: seq<Ext>, L: seq<Block>, L0: seq<Block>, lo: int, hi: int)
    requires Tiles(F, L, lo, hi) && |L| > |L0| && L[|L| - |L0|..] == L0
    ensures forall b :: b in L0 ==> b.addr != L[0].addr
  {
  }

  lemma KernelSpares(m: seq<int>, w: seq<int>, v: seq<int>, L0: seq<Block>, L: seq<Block>, out: int)
    requires SamePayloads(m, w, L0) && SameExcept(w, v, L, out) && |L| >= |L0| && L[|L| - |L0|..] == L0
    requires forall b :: b in L0 ==> b.addr != out
    ensures SamePayloads(m, v, L0)
  {
  }

  lemma PayloadSuffix(m: seq<int>, w: seq<int>, v: seq<int>, L0: seq<Block>, L: seq<Block>)
    requires SamePayloads(m, w, L0) && SamePayloads(w, v, L) && |L| >= |L0| && L[|L| - |L0|..] == L0
    ensures SamePayloads(m, v, L0)
  {
  }

  lemma KeptPushOwn(L: seq<Block>, b: Block)
    requires !b.job
    ensures Kept([b] + L) == [b] + Kept(L)
  {
  }

  class Heap {
    const mem: array<int>
    const start: int                 // __t800_heap_start()
    const end: int                   // __t800_heap_end()
    var base: int                    // 0 until the first allocation
    var on: bool
    var hiwater: int
    var last: int
    var total: int
    ghost var F: seq<Ext>            // the free list; before the first allocation, the one it will be given
    ghost var L: seq<Block>          // the live list

    ghost function Lo(): int
      requires 24 <= start
    {
      Up8(start)
    }

    ghost function Hi(): int
      requires 24 <= start
    {
      Lo() + (end - Lo()) / 8 * 8
    }

    ghost predicate Room() {
      24 <= start && Up8(start) + HDR + 8 <= end <= mem.Length && end + 64 < WORD
    }

    ghost predicate Valid()
      reads this, mem
    {
      && Room()
      && (base == 0 || base == Lo())
      && (base == 0 ==> F == [Ext(Lo(), Hi() - Lo())] && L == [])
      && Tiles(F, L, Lo(), Hi())
      && (base != 0 ==> FreeLinked(mem[..], F, Lo(), Hi()))
      && Ring(mem[..], L, Lo(), Hi())
    }

    constructor (start: int, end: int)
      requires 24 <= start && Up8(start) + HDR + 8 <= end && end + 64 < WORD
      ensures Valid() && fresh(mem) && L == [] && !on && base == 0
      ensures this.start == start && this.end == end && F == [Ext(Lo(), Hi() - Lo())]
    {
      this.start, this.end := start, end;
      base, on, hiwater, last, total := 0, false, 0, 0, 0;
      var m := new int[end];
      m[LIVE], m[LIVE + 4] := LIVE, LIVE;
      mem := m;
      var lo := Up8(start);
      F, L := [Ext(lo, (end - lo) / 8 * 8)], [];
      new;
      OneFreeBlock();
    }

    lemma OneFreeBlock()
      requires Room()
      ensures Tiles([Ext(Lo(), Hi() - Lo())], [], Lo(), Hi())
    {
      forall a | Lo() <= a < Hi()
        ensures FreeAt([Ext(Lo(), Hi() - Lo())], a) && !LiveAt([], a)
      {
        FreeAtOne(Ext(Lo(), Hi() - Lo()), a);
      }
    }

    /** The first call lays the whole heap out as one free block. */
    method Init()
      requires Valid() && base == 0
      modifies this`base, mem
      ensures Valid() && base != 0
      ensures forall a :: 0 <= a < mem.Length && !(a == FL || a == Lo() || a == Lo() + 4) ==> mem[a] == old(mem[a])
    {
      base := Up8(start);
      mem[FL] := base;
      mem[base] := NULL;
      mem[base + 4] := (end - base) / 8 * 8;
    }

    /** Cut sz bytes off the head of free block i, or all of it when the rest could not be a block. */
    method TakeHead(pp: int, f: int, sz: int, ghost i: nat) returns (got: int)
      requires Room() && FreeLinked(mem[..], F, Lo(), Hi())
      requires i < |F| && pp == Slot(F, i) && f == F[i].addr && HDR <= sz <= F[i].size
      modifies mem, `F
      ensures got == Taken(old(F)[i], sz) && F == Carve(old(F), i, sz)
      ensures FreeLinked(mem[..], F, Lo(), Hi())
      ensures FreeWrites(old(mem[..]), mem[..], old(F))
    {
      ghost var m := mem[..];
      assert FreeCell(m, F, i);
      CellApart(F, i, i, Lo(), Hi());
      SlotIsFree(F, i, Lo(), Hi());
      var size := mem[f + 4];
      if size - sz >= HDR + 8 {
        var r := f + sz;
        mem[r] := mem[f];
        mem[r + 4] := size - sz;
        mem[pp] := r;
        got := sz;
        SplitLinked(m, mem[..], F, i, sz, Lo(), Hi());
      } else {
        got := size;
        mem[pp] := mem[f];
        WholeLinked(m, mem[..], F, i, sz, Lo(), Hi());
      }
      F := Carve(F, i, sz);
    }

    /** Put a header on the block at b and link it at the front of the live ring. */
    method PushLive(b: int, n: int)
      requires Room() && Ring(mem[..], L, Lo(), Hi())
      requires Disjoint([Block(b, n, on)] + L, Lo(), Hi())
      modifies mem, `L
      ensures L == [Block(b, n, on)] + old(L) && Ring(mem[..], L, Lo(), Hi())
      ensures HeaderWrites(old(mem[..]), mem[..], L)
    {
      ghost var m, B := mem[..], Block(b, n, on);
      FrontApart(L, B, Lo(), Hi());
      mem[b + 8] := n;
      mem[b + 12] := if on then 1 else 0;
      var first := mem[LIVE];
      mem[b] := first;
      mem[b + 4] := LIVE;
      mem[first + 4] := b;
      mem[LIVE] := b;
      assert OutsideHeader(m, mem[..], b, LIVE, Next(L, -1) + 4);
      PushRing(m, mem[..], L, B, Lo(), Hi());
      FirstHeaders(m, mem[..], L, B);
      L := [B] + L;
    }

    /** The first-fit walk: pp ends at the cell that points to the first free block of sz bytes or more. */
    method Walk(sz: int) returns (pp: int, f: int, ghost i: nat)
      requires Room() && FreeLinked(mem[..], F, Lo(), Hi())
      ensures i <= |F| && pp == Slot(F, i) && f == At(F, i) && (f == NULL <==> i == |F|)
      ensures i < |F| ==> F[i].size >= sz
      ensures forall j :: 0 <= j < i ==> F[j].size < sz
    {
      pp := FL;
      f := mem[pp];
      i := 0;
      while f != NULL && mem[f + 4] < sz
        invariant 0 <= i <= |F| && pp == Slot(F, i) && f == At(F, i)
        invariant forall j :: 0 <= j < i ==> F[j].size < sz
        invariant i < |F| ==> FreeCell(mem[..], F, i)
        decreases |F| - i
      {
        pp := f;
        f := mem[pp];
        i := i + 1;
      }
    }

    /** Turn the head of free block i into a live block. */
    method Claim(pp: int, f: int, need: int, ghost i: nat)
      requires Valid() && base != 0
      requires i < |F| && pp == Slot(F, i) && f == F[i].addr && HDR <= need <= F[i].size
      modifies mem, `F, `L, `hiwater
      ensures Valid()
      ensures L == [Block(f, Taken(old(F)[i], need) - HDR, on)] + old(L) && F == Carve(old(F), i, need)
      ensures SamePayloads(old(mem[..]), mem[..], old(L))
    {
      hide Tiles, FreeWrites, HeaderWrites, Ring, Disjoint, Canonical, SamePayloads, SameBlocks;
      ghost var m, F0, L0 := mem[..], F, L;
      CarveTiles(F, L, i, need, on, Lo(), Hi());
      var sz := TakeHead(pp, f, need, i);
      ghost var w := mem[..];
      FreeWritesSpareLive(m, w, F0, L0, Lo(), Hi());
      if f + sz - base > hiwater {
        hiwater := f + sz - base;
      }
      PushLive(f, sz - HDR);
      HeaderWritesSpareFree(w, mem[..], F, L, Lo(), Hi());
      OldPayloads(m, w, mem[..], L0, L[0]);
    }

    /** malloc: first fit in address order. */
    method Malloc(n: int) returns (p: int)
      requires Valid() && 0 <= n < WORD
      modifies this, mem
      ensures Valid() && on == old(on) && last == old(last) && total == old(total)
      ensures p == NULL <==> forall i :: 0 <= i < |old(F)| ==> old(F)[i].size < Need(n)
      ensures p == NULL ==> F == old(F) && L == old(L)
      ensures p != NULL ==>
                var i := FirstFit(old(F), Need(n));
                i < |old(F)| && p == old(F)[i].addr + HDR && Taken(old(F)[i], Need(n)) >= HDR + n
                && L == [Block(p - HDR, Taken(old(F)[i], Need(n)) - HDR, on)] + old(L)
                && F == Carve(old(F), i, Need(n))
      ensures SamePayloads(old(mem[..]), mem[..], old(L))
    {
      hide Tiles, Ring, Canonical, Disjoint, FreeLinked, SamePayloads, Need, Carve, FirstFit, Taken;
      NoneSoBig(F, L, Lo(), Hi(), n, end);
      SameMemory(mem[..], L, Lo(), Hi());
      p := NULL;
      if base == 0 {
        Init();
      }
      SameMemory(mem[..], L, Lo(), Hi());
      if n <= end - base {
        p := Fit(n);
      }
      if old(L) == [] {
        NoPayloads(old(mem[..]), mem[..]);
      }
    }

    /** The walk and the cut, once the heap is laid out. */
    method Fit(n: int) returns (p: int)
      requires Valid() && base != 0 && 0 <= n < WORD
      modifies mem, `F, `L, `hiwater
      ensures Valid()
      ensures p == NULL <==> forall i :: 0 <= i < |old(F)| ==> old(F)[i].size < Need(n)
      ensures p == NULL ==> F == old(F) && L == old(L)
      ensures p != NULL ==>
                var i := FirstFit(old(F), Need(n));
                i < |old(F)| && p == old(F)[i].addr + HDR && Taken(old(F)[i], Need(n)) >= HDR + n
                && L == [Block(p - HDR, Taken(old(F)[i], Need(n)) - HDR, on)] + old(L)
                && F == Carve(old(F), i, Need(n))
      ensures SamePayloads(old(mem[..]), mem[..], old(L))
    {
      hide Tiles, Ring, Canonical, Disjoint, FreeLinked, SamePayloads, Carve, FirstFit;
      SameMemory(mem[..], L, Lo(), Hi());
      SizesBounded(F, L, Lo(), Hi());
      p := NULL;
      var sz := (HDR + n + 7) / 8 * 8;
      assert sz == Need(n);
      hide Need;
      var pp, f;
      ghost var i;
      pp, f, i := Walk(sz);
      if f != NULL {
        FirstFitIs(F, sz, i);
        Claim(pp, f, sz, i);
        p := f + HDR;
      }
    }

    /** Unlink the live block at b, ring member k, and give it a free header. */
    method Unlink(b: int, ghost k: nat)
      requires Room() && Ring(mem[..], L, Lo(), Hi()) && k < |L| && L[k].addr == b
      modifies mem, `L
      ensures L == Drop(old(L), k) && Ring(mem[..], L, Lo(), Hi())
      ensures HeaderWrites(old(mem[..]), mem[..], old(L))
      ensures mem[b + 8] == old(L)[k].n
    {
      ghost var m := mem[..];
      RingAround(m, L, k, Lo(), Hi());
      var next, prev := mem[b], mem[b + 4];
      mem[prev] := next;
      mem[next + 4] := prev;
      assert Outside(m, mem[..], Prev(L, k), Next(L, k) + 4, Prev(L, k));
      DropRing(m, mem[..], L, k, Lo(), Hi());
      L := Drop(L, k);
    }

    /** Where the block at f belongs in the address order; prev is the free block below it, or NULL. */
    method Place(f: int, ghost e: Ext) returns (pp: int, prev: int, ghost i: nat)
      requires Room() && FreeLinked(mem[..], F, Lo(), Hi()) && f == e.addr && f > 0
      requires NoOverlap(F, e) && e.size >= HDR
      ensures FitsAt(F, i, e) && pp == Slot(F, i) && prev == (if i > 0 then F[i - 1].addr else NULL)
    {
      pp, prev, i := FL, NULL, 0;
      while mem[pp] != NULL && mem[pp] < f
        invariant 0 <= i <= |F| && pp == Slot(F, i) && mem[pp] == At(F, i)
        invariant prev == (if i > 0 then F[i - 1].addr else NULL)
        invariant i > 0 ==> F[i - 1].addr < f
        decreases |F| - i
      {
        assert FreeCell(mem[..], F, i);
        prev := mem[pp];
        pp := mem[pp];
        i := i + 1;
      }
      PlaceFits(F, i, e, Lo(), Hi());
    }

    /** Give the block at f, of the size already in its header, back to the free list at place i. */
    method Splice(f: int, pp: int, prev: int, ghost i: nat, ghost e: Ext)
      requires Room() && FreeLinked(mem[..], F, Lo(), Hi()) && FitsAt(F, i, e) && Fine(e, Lo(), Hi())
      requires f == e.addr && mem[f + 4] == e.size
      requires pp == Slot(F, i) && prev == (if i > 0 then F[i - 1].addr else NULL)
      modifies mem, `F
      ensures F == Release(old(F), i, e) && FreeLinked(mem[..], F, Lo(), Hi())
      ensures ReleaseWrites(old(mem[..]), mem[..], old(F), e)
    {
      ghost var m0 := mem[..];
      ghost var x, t := MeetAbove(f, pp, i, e);
      ghost var m1 := mem[..];
      FitsClear(F, i, e, Lo(), Hi());
      if i > 0 {
        assert FreeCell(m1, F, i - 1) && Fine(F[i - 1], Lo(), Hi());
      }
      hide FreeLinked, Canonical, Release, FitsAt;
      Join(f, pp, prev);
      JoinLinked(m1, mem[..], F, i, e, x, t, Lo(), Hi());
      SpliceWrites(m0, m1, mem[..], F, i, e, Lo(), Hi());
      F := Release(F, i, e);
    }

    /** Make the cell at pp point to f, or let the block below swallow f when they touch. */
    method Join(f: int, pp: int, prev: int)
      requires 0 <= f && f + 8 <= mem.Length && 0 <= pp < mem.Length
      requires prev != NULL ==> pp == prev && prev + 8 <= mem.Length && (prev + 8 <= f || f + 8 <= prev)
      modifies mem
      ensures var m, w, swallow := old(mem[..]), mem[..], prev != NULL && prev + old(mem[..])[prev + 4] == f;
              && Outside(m, w, pp, if prev != NULL then pp + 4 else pp, pp)
              && (if swallow then w[pp] == m[f] && w[pp + 4] == m[pp + 4] + m[f + 4]
                  else w[pp] == f && (pp + 4 < |m| ==> w[pp + 4] == m[pp + 4]))
    {
      if prev != NULL && prev + mem[prev + 4] == f {
        mem[prev + 4] := mem[prev + 4] + mem[f + 4];
        mem[prev] := mem[f];
      } else {
        mem[pp] := f;
      }
    }

    /** Link f to what follows slot i, swallowing the block above when they touch. */
    method MeetAbove(f: int, pp: int, ghost i: nat, ghost e: Ext) returns (ghost x: Ext, ghost t: nat)
      requires Room() && FreeLinked(mem[..], F, Lo(), Hi()) && FitsAt(F, i, e) && Fine(e, Lo(), Hi())
      requires f == e.addr && mem[f + 4] == e.size && pp == Slot(F, i)
      modifies mem
      ensures FreeLinked(mem[..], F, Lo(), Hi()) && i <= t <= |F| && x.addr == f
      ensures if i < |F| && e.addr + e.size == F[i].addr then t == i + 1 && x == Ext(e.addr, e.size + F[i].size)
              else t == i && x == e
      ensures mem[f] == At(F, t) && mem[f + 4] == x.size
      ensures OutsideHeader(old(mem[..]), mem[..], f, f, f)
    {
      ghost var m := mem[..];
      FitsClear(F, i, e, Lo(), Hi());
      assert i > 0 ==> FreeCell(m, F, i - 1);
      assert i < |F| ==> FreeCell(m, F, i);
      var next := mem[pp];
      assert next == At(F, i) && (i < |F| ==> F[i].addr >= 24);
      hide Canonical, Fine, FitsAt, FreeLinked;
      mem[f] := next;
      if next != NULL && f + mem[f + 4] == next {
        mem[f + 4] := mem[f + 4] + mem[next + 4];
        mem[f] := mem[next];
        x, t := Ext(e.addr, e.size + F[i].size), i + 1;
      } else {
        x, t := e, i;
      }
      HeaderFrame(m, mem[..], F, f, Lo(), Hi());
    }

    /** Give the unlinked block at f back: write its size, find its place, splice it in. */
    method GiveBack(f: int, ghost e: Ext) returns (ghost i: nat)
      requires Room() && FreeLinked(mem[..], F, Lo(), Hi()) && Fine(e, Lo(), Hi()) && NoOverlap(F, e)
      requires f == e.addr && mem[f + 8] == e.size - HDR
      modifies mem, `F
      ensures FitsAt(old(F), i, e) && F == Release(old(F), i, e) && FreeLinked(mem[..], F, Lo(), Hi())
      ensures ReleaseWrites(old(mem[..]), mem[..], old(F), e)
    {
      ghost var m, F0 := mem[..], F;
      HeaderClear(F, e, Lo(), Hi());
      hide FreeLinked, Canonical, Release, FitsAt, NoOverlap;
      mem[f + 4] := mem[f + 8] + HDR;
      ghost var w := mem[..];
      HeaderFrame(m, w, F, f, Lo(), Hi());
      var pp, prev;
      pp, prev, i := Place(f, e);
      Splice(f, pp, prev, i, e);
      TwoWrites(m, w, mem[..], F0, e);
    }

    /** Free the live block at b, ring member k. */
    method FreeBlock(b: int, ghost k: nat)
      requires Valid() && k < |L| && L[k].addr == b
      modifies mem, `F, `L
      ensures Valid() && L == Drop(old(L), k) && SamePayloads(old(mem[..]), mem[..], L)
    {
      hide Tiles, Ring, FreeLinked, Canonical, Disjoint, Release, FitsAt, NoOverlap, HeaderWrites, ReleaseWrites,
           SamePayloads, SameBlocks;
      ghost var e, m, F0, L0 := Ext(b, HDR + L[k].n), mem[..], F, L;
      LiveClear(F, L, k, Lo(), Hi());
      Unlink(b, k);
      HeaderWritesSpareFree(m, mem[..], F, L0, Lo(), Hi());
      ghost var w := mem[..];
      ghost var i := GiveBack(b, e);
      ReleaseTiles(F0, L0, i, k, Lo(), Hi());
      ReleaseSparesLive(w, mem[..], F0, L0, k, Lo(), Hi());
      LeftPayloads(m, w, mem[..], L0, k);
    }

    /** free: the block must be live; NULL is allowed. */
    method Free(p: int)
      requires Valid() && (p == NULL || exists k :: 0 <= k < |L| && L[k].addr + HDR == p)
      modifies mem, `F, `L
      ensures Valid() && SamePayloads(old(mem[..]), mem[..], L)
      ensures p == NULL ==> L == old(L) && F == old(F)
      ensures forall k :: 0 <= k < |old(L)| && old(L)[k].addr + HDR == p ==> L == Drop(old(L), k)
    {
      LiveAddrs(L, Lo(), Hi());
      hide Tiles, Ring, FreeLinked, Drop;
      if p != NULL {
        ghost var k :| 0 <= k < |L| && L[k].addr + HDR == p;
        forall j | 0 <= j < |L| && j != k ensures L[j].addr + HDR != p {
          HeadersApart(L, j, k, Lo(), Hi());
        }
        FreeBlock(p - HDR, k);
      }
    }

    /** Store into the payload of live block k: the caller's own bytes, so no list can notice. */
    method Store(a: int, v: int, ghost k: nat)
      requires Valid() && k < |L| && InPayload(L[k], a)
      modifies mem
      ensures Valid() && PayloadWrite(old(mem[..]), mem[..], L[k]) && mem[a] == v
      ensures forall c :: 0 <= c < mem.Length && c != a ==> mem[c] == old(mem[c])
    {
      hide Tiles, Ring, FreeLinked;
      ghost var m := mem[..];
      PayloadInside(F, L, k, a, Lo(), Hi());
      mem[a] := v;
      if base != 0 {
        PayloadSparesFree(m, mem[..], F, L, k, Lo(), Hi());
      }
      PayloadSparesRing(m, mem[..], L, k, Lo(), Hi());
    }

    /** memcpy from payload s to payload d. */
    method Copy(dst: int, src: int, cnt: int, ghost d: nat, ghost s: nat)
      requires Valid() && d < |L| && s < |L| && d != s && 0 <= cnt <= L[d].n && cnt <= L[s].n
      requires dst == L[d].addr + HDR && src == L[s].addr + HDR
      modifies mem
      ensures Valid() && PayloadWrite(old(mem[..]), mem[..], L[d])
      ensures Copied(mem[..], dst, old(mem[..]), src, cnt)
    {
      hide Tiles, Ring, FreeLinked;
      PayloadsApart(F, L, d, s, Lo(), Hi());
      var j := 0;
      while j < cnt
        invariant 0 <= j <= cnt && Valid() && PayloadWrite(old(mem[..]), mem[..], L[d])
        invariant Copied(mem[..], dst, old(mem[..]), src, j)
      {
        Store(dst + j, mem[src + j], d);
        j := j + 1;
      }
    }

    /** realloc: always a fresh block, with the old bytes up to the smaller size. */
    method Realloc(p: int, n: int) returns (q: int)
      requires Valid() && 0 <= n < WORD && (p == NULL || exists k :: 0 <= k < |L| && L[k].addr + HDR == p)
      modifies this, mem
      ensures Valid() && on == old(on) && last == old(last) && total == old(total)
      ensures q == NULL <==> forall i :: 0 <= i < |old(F)| ==> old(F)[i].size < Need(n)
      ensures q == NULL ==> F == old(F) && L == old(L) && SamePayloads(old(mem[..]), mem[..], L)
      ensures q != NULL ==> |L| > 0 && L[0].addr + HDR == q && L[0].n >= n && L[0].job == on
      ensures q != NULL && p == NULL ==> L[1..] == old(L) && SamePayloads(old(mem[..]), mem[..], L[1..])
      ensures q != NULL ==> forall k :: 0 <= k < |old(L)| && old(L)[k].addr + HDR == p ==>
                L[1..] == Drop(old(L), k) && SamePayloads(old(mem[..]), mem[..], L[1..])
                && Copied(mem[..], q, old(mem[..]), p, if n < old(L)[k].n then n else old(L)[k].n)
    {
      hide Tiles, Ring, FreeLinked, Disjoint, Canonical, SamePayloads;
      LiveStarts(F, L, Lo(), Hi());
      ghost var o, L0 := mem[..], L;
      q := Malloc(n);
      if q != NULL {
        assert L[1..] == L0;
        if p != NULL {
          ghost var k :| 0 <= k < |L0| && L0[k].addr + HDR == p;
          CapacityAt(o, L0, k, Lo(), Hi());
          Move(p, q, n, o, L0, k);
        }
      }
    }

    /** realloc's second half: copy what fits of live block k to the new block 0 and free the old one. */
    method Move(p: int, q: int, n: int, ghost o: seq<int>, ghost L0: seq<Block>, ghost k: nat)
      requires Valid() && k < |L0| && |L| == |L0| + 1 && L == [L[0]] + L0 && SamePayloads(o, mem[..], L0)
      requires L0[k].addr + HDR == p && L[0].addr + HDR == q && 0 <= n <= L[0].n
      modifies mem, `F, `L
      ensures Valid() && |L| > 0 && L[0] == old(L[0]) && L[1..] == Drop(L0, k) && SamePayloads(o, mem[..], L[1..])
      ensures Copied(mem[..], q, o, p, if n < L0[k].n then n else L0[k].n)
    {
      hide Tiles, Ring, FreeLinked, Disjoint, Canonical, SamePayloads, PayloadWrite, Copied;
      ghost var m, M, F0 := mem[..], L, F;
      assert M[k + 1] == L0[k] && M[1..] == L0;
      CapacityAt(mem[..], L, k + 1, Lo(), Hi());
      PayloadsApart(F, L, 0, k + 1, Lo(), Hi());
      var cap := mem[p - HDR + 8];
      Copy(q, p, if n < cap then n else cap, 0, k + 1);
      ghost var w := mem[..];
      assert M[k + 1].addr + HDR == p;
      Free(p);
      assert L == Drop(M, k + 1);
      ReallocEnd(o, m, w, mem[..], F0, L0, M, k, Lo(), Hi());
      MovedBytes(o, m, w, mem[..], M[0], L0[k], if n < cap then n else cap);
    }

    /** calloc: k * n wraps at 32 bits before the request is made, and only that much is cleared, so the block holds k * n
        bytes exactly when the product does not wrap. */
    method Calloc(k: int, n: int) returns (p: int)
      requires Valid() && 0 <= k < WORD && 0 <= n < WORD
      modifies this, mem
      ensures Valid() && on == old(on)
      ensures p == NULL <==> forall i :: 0 <= i < |old(F)| ==> old(F)[i].size < Need(k * n % WORD)
      ensures p == NULL ==> F == old(F) && L == old(L)
      ensures p != NULL ==>
                && |L| > 0 && L[1..] == old(L) && L[0].addr + HDR == p && L[0].job == on
                && L[0].n >= k * n % WORD && (L[0].n >= k * n <==> k * n < WORD)
      ensures p != NULL ==> 0 <= p && p + k * n % WORD <= mem.Length
      ensures p != NULL ==> forall a :: p <= a < p + k * n % WORD ==> mem[a] == 0
      ensures SamePayloads(old(mem[..]), mem[..], old(L))
    {
      hide Tiles, Ring, FreeLinked, Disjoint, Canonical, SamePayloads, Carve, Need;
      var sz := k * n % WORD;
      ProductFits(k, n);
      ghost var L0 := L;
      p := Malloc(sz);
      if p != NULL {
        ghost var w := mem[..];
        PayloadBounds(F, L, 0, Lo(), Hi());
        Clear0(p, sz);
        assert L[1..] == L0;
        WriteSparesOthers(w, mem[..], F, L, Lo(), Hi());
        PayloadSame(old(mem[..]), w, mem[..], L0);
      }
    }

    method Clear0(p: int, sz: int)
      requires Valid() && |L| > 0 && L[0].addr + HDR == p && 0 <= sz <= L[0].n
      modifies mem
      ensures Valid() && 0 <= p && p + sz <= mem.Length && PayloadWrite(old(mem[..]), mem[..], L[0])
      ensures forall a :: p <= a < p + sz ==> mem[a] == 0
    {
      hide Tiles, Ring, FreeLinked, Disjoint, Canonical;
      PayloadBounds(F, L, 0, Lo(), Hi());
      var j := 0;
      while j < sz
        invariant 0 <= j <= sz && Valid() && PayloadWrite(old(mem[..]), mem[..], L[0])
        invariant forall a :: p <= a < p + j ==> mem[a] == 0
      {
        Store(p + j, 0, 0);
        j := j + 1;
      }
    }

    method Begin()
      requires Valid()
      modifies `on
      ensures Valid() && on
    {
      on := true;
    }

    /** One turn of jobheap_end's walk: free ring member j if a job owns it, and move on. */
    method Sweep(b: int, ghost j: nat) returns (nx: int)
      requires Valid() && j < |L| && b == L[j].addr
      modifies this, mem
      ensures Valid() && on == old(on) && total == old(total)
      ensures if old(L)[j].job then L == Drop(old(L), j) && nx == Next(L, j - 1)
              else L == old(L) && nx == Next(L, j)
      ensures last == if old(L)[j].job then (old(last) + old(L)[j].n) % WORD else old(last)
      ensures SamePayloads(old(mem[..]), mem[..], L)
    {
      hide Tiles, FreeLinked, Disjoint, Canonical, Ring, SamePayloads;
      RingAround(mem[..], L, j, Lo(), Hi());
      SameMemory(mem[..], L, Lo(), Hi());
      nx := mem[b];
      if mem[b + 12] != 0 {
        last := (last + mem[b + 8]) % WORD;
        NextAfterDrop(L, j);
        Free(b + HDR);
      }
    }

    method SweepNext(b: int, ghost m: seq<int>, ghost M: seq<Block>, ghost i: nat, ghost K: seq<Block>)
      returns (nx: int, ghost K': seq<Block>)
      requires Valid() && b != LIVE && i <= |M| && Swept(M, i, K, L, b, last) && SamePayloads(m, mem[..], L)
      modifies this, mem
      ensures Valid() && on == old(on) && total == old(total)
      ensures i < |M| && Swept(M, i + 1, K', L, nx, last) && SamePayloads(m, mem[..], L)
    {
      hide Tiles, FreeLinked, Disjoint, Canonical, Ring, SamePayloads, Swept;
      ghost var w, L1 := mem[..], L;
      SweptHere(M, i, K, L, b, last);
      SweptStep(M, i, K, L, b, last);
      nx := Sweep(b, |K|);
      K' := K;
      if M[i].job {
        PayloadChain(m, w, mem[..], L1, |K|);
      } else {
        PayloadSame(m, w, mem[..], L);
        K' := K + [M[i]];
      }
    }

    /** jobheap_end: walk the ring and free what the job left behind. */
    method End()
      requires Valid()
      modifies this, mem
      ensures Valid() && !on && L == Kept(old(L)) && SamePayloads(old(mem[..]), mem[..], L)
      ensures last == JobBytes(old(L)) % WORD && total == (old(total) + last) % WORD
    {
      hide Tiles, FreeLinked, Disjoint, Canonical, Ring, SamePayloads, Swept, Kept, JobBytes;
      ghost var m, M := mem[..], L;
      on := false;
      last := 0;
      RingStart(mem[..], L, Lo(), Hi());
      SameMemory(mem[..], L, Lo(), Hi());
      SweptInit(M);
      var b := mem[LIVE];
      ghost var i := 0;                 // where b stood before the walk
      ghost var K: seq<Block> := [];    // what has been kept so far
      while b != LIVE
        invariant Valid() && !on && total == old(total) && Swept(M, i, K, L, b, last) && i <= |M|
        invariant SamePayloads(m, mem[..], L)
        decreases |M| - i
      {
        b, K := SweepNext(b, m, M, i, K);
        i := i + 1;
      }
      SweptEnd(M, i, K, L, last);
      total := (total + last) % WORD;
    }

    // ---- one node-0 job, from host's malloc to mux's free (root.c) -------------------------------

    /** Whatever a kernel does with the heap: it allocates, writes, resizes and frees blocks of its own,
        and writes its output into the reply buffer at `out`.  Operations on other blocks are not its to make. */
    method Kernel(ops: seq<Op>, out: int)
      requires Valid() && on
      modifies this, mem
      ensures Valid() && on && Kept(L) == Kept(old(L)) && last == old(last) && total == old(total)
      ensures SameExcept(old(mem[..]), mem[..], Kept(L), out)
    {
      hide Tiles, FreeLinked, Disjoint, Canonical, Ring, Kept, SameExcept;
      ghost var m, K := mem[..], Kept(L);
      SameExceptSelf(m, L, out, Lo(), Hi());
      var j := 0;
      while j < |ops|
        invariant 0 <= j <= |ops| && Valid() && on && Kept(L) == K && last == old(last) && total == old(total)
        invariant SameExcept(m, mem[..], K, out)
      {
        ghost var w := mem[..];
        KernelStep(ops[j], out);
        SameExceptTrans(m, w, mem[..], K, out);
        j := j + 1;
      }
    }

    method KernelStep(op: Op, out: int)
      requires Valid() && on
      modifies this, mem
      ensures Valid() && on && Kept(L) == Kept(old(L)) && last == old(last) && total == old(total)
      ensures SameExcept(old(mem[..]), mem[..], Kept(L), out)
    {
      hide Valid, Kept, SameExcept;
      match op
      case Alloc(n) => KernelAlloc(n, out);
      case Give(i) => KernelGive(i, out);
      case Resize(i, n) => KernelResize(i, n, out);
      case Put(i, off, v) => KernelPut(i, off, v, out);
    }

    method KernelAlloc(n: int, out: int)
      requires Valid() && on
      modifies this, mem
      ensures Valid() && on && Kept(L) == Kept(old(L)) && last == old(last) && total == old(total)
      ensures SameExcept(old(mem[..]), mem[..], Kept(L), out)
    {
      hide Tiles, FreeLinked, Disjoint, Canonical, Ring, SamePayloads, SameExcept, Kept, Copied, Carve, Need, FirstFit, Taken;
      SameExceptSelf(mem[..], L, out, Lo(), Hi());
      if 0 <= n < WORD {
        var p := Malloc(n);
        if p != NULL {
          KeptPush(old(L), L[0]);
        }
        KeptPayloads(old(mem[..]), mem[..], old(L), out);
      }
    }

    method KernelGive(i: int, out: int)
      requires Valid() && on
      modifies this, mem
      ensures Valid() && on && Kept(L) == Kept(old(L)) && last == old(last) && total == old(total)
      ensures SameExcept(old(mem[..]), mem[..], Kept(L), out)
    {
      hide Tiles, FreeLinked, Disjoint, Canonical, Ring, SamePayloads, SameExcept, Kept, Copied, Carve, Need, FirstFit, Taken;
      SameExceptSelf(mem[..], L, out, Lo(), Hi());
      var b := Member(i);
      if b != LIVE && mem[b + 12] != 0 {
        KeptDrop(L, i);
        Free(b + HDR);
        KeptPayloads(old(mem[..]), mem[..], L, out);
      }
    }

    method KernelResize(i: int, n: int, out: int)
      requires Valid() && on
      modifies this, mem
      ensures Valid() && on && Kept(L) == Kept(old(L)) && last == old(last) && total == old(total)
      ensures SameExcept(old(mem[..]), mem[..], Kept(L), out)
    {
      hide Tiles, FreeLinked, Disjoint, Canonical, Ring, SamePayloads, SameExcept, Kept, Copied, Carve, Need, FirstFit, Taken;
      SameExceptSelf(mem[..], L, out, Lo(), Hi());
      var b := Member(i);
      if b != LIVE && mem[b + 12] != 0 && 0 <= n < WORD {
        KeptDrop(L, i);
        var p := Realloc(b + HDR, n);
        if p != NULL {
          assert L == [L[0]] + L[1..];
          KeptPush(L[1..], L[0]);
          KeptPayloads(old(mem[..]), mem[..], L[1..], out);
        } else {
          KeptPayloads(old(mem[..]), mem[..], L, out);
        }
      }
    }

    method KernelPut(i: int, off: int, v: int, out: int)
      requires Valid() && on
      modifies this, mem
      ensures Valid() && on && Kept(L) == Kept(old(L)) && last == old(last) && total == old(total)
      ensures SameExcept(old(mem[..]), mem[..], Kept(L), out)
    {
      hide Tiles, FreeLinked, Disjoint, Canonical, Ring, SamePayloads, SameExcept, Kept, Copied, Carve, Need, FirstFit, Taken;
      SameExceptSelf(mem[..], L, out, Lo(), Hi());
      var b := Member(i);
      if b != LIVE && (mem[b + 12] != 0 || b == out) && 0 <= off < mem[b + 8] {
        Store(b + HDR + off, v, i);
        StoreKept(old(mem[..]), mem[..], F, L, i, out, Lo(), Hi());
      }
    }

    /** The i-th block of the ring, or the ring head when there is none. */
    method Member(i: int) returns (b: int)
      requires Valid()
      ensures b != LIVE <==> 0 <= i < |L|
      ensures b != LIVE ==> LiveCell(mem[..], L, i) && b == L[i].addr && 24 <= b
    {
      hide Tiles, FreeLinked, Disjoint, Canonical;
      RingStart(mem[..], L, Lo(), Hi());
      b := LIVE;
      if i < 0 {
        return;
      }
      b := mem[LIVE];
      var j := 0;
      while j < i && b != LIVE
        invariant 0 <= j <= i && j <= |L| && b == Next(L, j - 1)
      {
        assert LiveCell(mem[..], L, j);
        b := mem[b];
        j := j + 1;
      }
      if b != LIVE {
        assert LiveCell(mem[..], L, i);
      }
    }

    /** One node-0 job as the dispatcher runs it: host allocates the payload (behind room for the reply when
        the op works in place), work0 allocates the reply, the kernel runs between Begin and End, work0 frees
        the payload and mux, once the reply is out, the reply.  A job the heap cannot hold is refused. */
    method Node0Job(job: Job) returns (ran: bool)
      requires Valid() && !on && Kept(L) == L && 0 <= job.cap <= JOB_BIG
      modifies this, mem
      ensures Valid() && !on && Kept(L) == L
      ensures L == old(L) && F == old(F)
      ensures SamePayloads(old(mem[..]), mem[..], L)
      ensures ran <==> Fits(old(F), job)
    {
      hide Tiles, FreeLinked, Disjoint, Canonical, Ring, SamePayloads, SameExcept, Kept, Carve, Copied;
      ghost var m, F0, L0 := mem[..], F, L;
      var blk, rep, inPlace := Buffers(job);
      ran := rep != NULL;
      ghost var w, L1 := mem[..], L;
      Begin();
      if ran {
        BuffersApart(F, L1, L0, Lo(), Hi());
        Kernel(job.ops, rep - HDR);
        KernelSpares(m, w, mem[..], L0, L1, rep - HDR);
      }
      w := mem[..];
      End();
      PayloadSuffix(m, w, mem[..], L0, L1);
      Dispose(blk, rep, inPlace, m, L0);
      FreeListDetermined(F, L, F0, L0, Lo(), Hi());
    }

    /** host's payload block and work0's reply block; both before jobheap_begin. */
    method Buffers(job: Job) returns (blk: int, rep: int, inPlace: bool)
      requires Valid() && !on && Kept(L) == L && 0 <= job.cap <= JOB_BIG
      modifies this, mem
      ensures Valid() && !on && Kept(L) == L
      ensures Holding(L, old(L), blk, rep, inPlace)
      ensures SamePayloads(old(mem[..]), mem[..], old(L))
      ensures rep != NULL <==> Fits(old(F), job)
    {
      hide Tiles, FreeLinked, Disjoint, Canonical, Ring, SamePayloads, Kept, Carve, Need, FirstFit, Taken, QGAP;
      ghost var m, F0, L0 := mem[..], F, L;
      SameMemory(m, L, Lo(), Hi());
      blk, rep, inPlace := NULL, NULL, false;
      if 0 <= job.n <= JOB_BIG {
        PayloadSize(job);
        blk := Own(Payload(job));
      }
      if blk != NULL && InPlace(job) {
        rep, inPlace := blk, true;
      } else if blk != NULL {
        ghost var w, L1 := mem[..], L;
        rep := Own(LREP_HDR + job.cap);
        PayloadSuffix(m, w, mem[..], L0, L1);
      }
    }

    /** malloc outside a job. */
    method Own(n: int) returns (p: int)
      requires Valid() && !on && Kept(L) == L && 0 <= n < WORD
      modifies this, mem
      ensures Valid() && !on && Kept(L) == L
      ensures p == NULL <==> FirstFit(old(F), Need(n)) == |old(F)|
      ensures p == NULL ==> F == old(F) && L == old(L)
      ensures p != NULL ==> |L| > 0 && L[1..] == old(L) && L == [L[0]] + old(L) && L[0].addr + HDR == p
                            && F == Carve(old(F), FirstFit(old(F), Need(n)), Need(n))
      ensures SamePayloads(old(mem[..]), mem[..], old(L))
    {
      hide Tiles, FreeLinked, Disjoint, Canonical, Ring, SamePayloads, Kept, Carve, Taken, Need;
      ghost var L0 := L;
      p := Malloc(n);
      if p != NULL {
        KeptPushOwn(L0, L[0]);
      }
    }

    /** work0 frees the payload unless it is the reply block too; mux frees the reply. */
    method Dispose(blk: int, rep: int, inPlace: bool, ghost m: seq<int>, ghost L0: seq<Block>)
      requires Valid() && Holding(L, L0, blk, rep, inPlace) && SamePayloads(m, mem[..], L0)
      modifies mem, `F, `L
      ensures Valid() && L == L0 && SamePayloads(m, mem[..], L0)
    {
      hide Tiles, FreeLinked, Disjoint, Canonical, Ring, SamePayloads;
      if !inPlace {
        ghost var w, L1 := mem[..], L;
        Free(blk);
        if blk != NULL {
          assert L == Drop(L1, if rep == NULL then 0 else 1);
          assert L == if rep == NULL then L0 else [L1[0]] + L0;
        }
        PayloadSuffix(m, w, mem[..], L0, L);
      }
      if rep != NULL {
        ghost var w, L1 := mem[..], L;
        Free(rep);
        assert L == Drop(L1, 0);
        assert L == L0;
        PayloadSame(m, w, mem[..], L0);
      }
    }

    /** Any history of jobs: the idle heap is the same after it, so each job is taken or refused as if first. */
    method Serve(jobs: seq<Job>) returns (ran: seq<bool>)
      requires Valid() && !on && Kept(L) == L && forall i :: 0 <= i < |jobs| ==> 0 <= jobs[i].cap <= JOB_BIG
      modifies this, mem
      ensures Valid() && !on && L == old(L) && F == old(F) && SamePayloads(old(mem[..]), mem[..], L)
      ensures |ran| == |jobs| && forall i :: 0 <= i < |jobs| ==> (ran[i] <==> Fits(old(F), jobs[i]))
    {
      hide Tiles, FreeLinked, Disjoint, Canonical, Ring, SamePayloads, Kept, Fits;
      ran := [];
      SameMemory(mem[..], L, Lo(), Hi());
      for i := 0 to |jobs|
        invariant Valid() && !on && Kept(L) == L && L == old(L) && F == old(F)
        invariant SamePayloads(old(mem[..]), mem[..], L)
        invariant |ran| == i && forall k :: 0 <= k < i ==> (ran[k] <==> Fits(old(F), jobs[k]))
      {
        ghost var w := mem[..];
        var r := Node0Job(jobs[i]);
        PayloadSame(old(mem[..]), w, mem[..], L);
        ran := ran + [r];
      }
    }
}

  /** A request that wraps: 65,536 elements of 65,537 bytes get a block that is too small for them, as soon as 65,536 bytes
      can be had. */
  method CallocWraps(heap: Heap) returns (p: int)
    requires heap.Valid()
    modifies heap, heap.mem
    ensures heap.Valid()
    ensures p != NULL <==> exists i :: 0 <= i < |old(heap.F)| && old(heap.F)[i].size >= Need(65536)
    ensures p != NULL ==> |heap.L| > 0 && heap.L[0].addr + HDR == p && heap.L[0].n < 65536 * 65537
  {
    hide Tiles, Ring, FreeLinked, SamePayloads, Need;
    p := heap.Calloc(65536, 65537);
  }
}
