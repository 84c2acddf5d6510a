/** The transputer network with node 0's heap in it.  Each process changes the heap at the step where it calls malloc or
    free, kernels do as they like with blocks of their own, and the other processes run on in between.  F and L are the
    free list and the live ring as JobHeap.Heap keeps them; the relations below are what its methods promise. */
module DispatcherHeap {
  import opened Wire
  import opened Dispatcher
  import opened DispatcherInv
  import DispatcherTheorems
  import H = JobHeap

  // ---- what the heap's methods do to the two lists -----------------------------------------------

  /** malloc(n): the header address of the block, or NULL. */
  predicate MallocStep(F: seq<H.Ext>, L: seq<H.Block>, F': seq<H.Ext>, L': seq<H.Block>, n: nat, p: int) {
    var i := H.FirstFit(F, H.Need(n));
    if i == |F| then p == H.NULL && F' == F && L' == L
    else p == F[i].addr && L' == [Cut(F, n)] + L && F' == H.Carve(F, i, H.Need(n))
  }

  predicate Fits1(F: seq<H.Ext>, n: nat) { H.FirstFit(F, H.Need(n)) < |F| }

  /** The block that malloc(n) makes, outside jobheap_begin and jobheap_end. */
  function Cut(F: seq<H.Ext>, n: nat): H.Block
    requires Fits1(F, n)
  {
    var i := H.FirstFit(F, H.Need(n));
    H.Block(F[i].addr, H.Taken(F[i], H.Need(n)) - H.HDR, false)
  }

  ghost predicate FreeStep(L: seq<H.Block>, F': seq<H.Ext>, L': seq<H.Block>, p: int, lo: int, hi: int) {
    (exists k :: 0 <= k < |L| && L[k].addr == p && L' == H.Drop(L, k)) && H.Tiles(F', L', lo, hi)
  }

  method MallocDoes(hp: H.Heap, n: nat) returns (p: int)
    requires hp.Valid() && n < H.WORD && !hp.on
    modifies hp, hp.mem
    ensures hp.Valid() && MallocStep(old(hp.F), old(hp.L), hp.F, hp.L, n, if p == H.NULL then H.NULL else p - H.HDR)
  {
    hide H.Tiles, H.Ring, H.FreeLinked, H.Carve, H.Taken, H.Need;
    p := hp.Malloc(n);
  }

  method FreeDoes(hp: H.Heap, p: int)
    requires hp.Valid() && exists k :: 0 <= k < |hp.L| && hp.L[k].addr == p
    modifies hp, hp.mem
    ensures hp.Valid() && FreeStep(old(hp.L), hp.F, hp.L, p, hp.Lo(), hp.Hi())
  {
    hide H.Tiles, H.Ring, H.FreeLinked, H.Drop;
    ghost var k :| 0 <= k < |hp.L| && hp.L[k].addr == p;
    hp.Free(p + H.HDR);
  }

  // ---- states and steps --------------------------------------------------------------------------

  /** Where work0 is while the network sees it run: before its malloc, in the kernel, after jobheap_end. */
  datatype Stage = Fetch | Kernel(cap: nat) | Swept(cap: nat)

  /** in0 and rep0 are the header addresses of those blocks; rep0 is NULL for the static err0. */
  datatype Heaped = Heaped(s: State, F: seq<H.Ext>, L: seq<H.Block>, in0: int, rep0: int, stage: Stage)

  predicate Quant(hdr: seq<byte>) { |hdr| == JOB_HDR && hdr[2] == 113 && Len(hdr) > 0 }

  /** The job a header announces, as the heap sees it. */
  function JobOf(hdr: seq<byte>, cap: nat): H.Job { H.Job(Len(hdr), |hdr| == JOB_HDR && hdr[2] == 113, cap, []) }

  lemma LenNat(hdr: seq<byte>)
    ensures Len(hdr) >= 0
  {
  }

  function PaySize(hdr: seq<byte>): nat {
    LenNat(hdr);
    H.Payload(JobOf(hdr, 0))
  }

  datatype Move =
    | Net(a: Action)
    | Alloc
    | Take(cap: nat)                                   // work0: malloc of the reply, jobheap_begin
    | Compute(F: seq<H.Ext>, L: seq<H.Block>)          // the kernel
    | Sweep(F: seq<H.Ext>)                             // jobheap_end
    | Finish(rep: seq<byte>, F: seq<H.Ext>)            // free(in0), done
    | Free0(F: seq<H.Ext>)                             // mux: free(rep0)

  predicate Outside(a: Action) { !a.HostAlloc? && !a.Work0? && !a.Release? }

  ghost predicate Moves(x: Heaped, m: Move, y: Heaped, lo: int, hi: int) {
    match m
    case Net(a) =>
      && Outside(a) && Enabled(x.s, a)
      && y == x.(s := Step(x.s, a), stage := if a.HostGo? then Fetch else x.stage)
    case Alloc =>
      && x.s.r.host.HAlloc? && MallocStep(x.F, x.L, y.F, y.L, PaySize(x.s.r.h), y.in0)
      && y == x.(s := Step(x.s, HostAlloc(y.in0 != H.NULL)), F := y.F, L := y.L, in0 := y.in0)
    case Take(cap) =>
      && x.s.r.work0.Run? && x.stage.Fetch? && y == x.(F := y.F, L := y.L, rep0 := y.rep0, stage := Kernel(cap))
      && (if x.s.r.work0.n < 0 then y.rep0 == H.NULL && y.F == x.F && y.L == x.L
          else if Quant(x.s.r.hdr0) then y.rep0 == x.in0 && y.F == x.F && y.L == x.L
          else MallocStep(x.F, x.L, y.F, y.L, LREP_HDR + cap, y.rep0))
    case Compute(F, L) =>
      && x.s.r.work0.Run? && x.stage.Kernel? && x.rep0 != H.NULL
      && H.Tiles(F, L, lo, hi) && H.Kept(L) == H.Kept(x.L) && y == x.(F := F, L := L)
    case Sweep(F) =>
      && x.s.r.work0.Run? && x.stage.Kernel? && H.Tiles(F, H.Kept(x.L), lo, hi)
      && y == x.(F := F, L := H.Kept(x.L), stage := Swept(x.stage.cap))
    case Finish(rep, F) =>
      && x.stage.Swept? && Enabled(x.s, Work0(rep))
      && (x.rep0 == H.NULL ==> |rep| == LREP_HDR && rep[2] == ST_TOOBIG)
      && y == x.(s := Step(x.s, Work0(rep)), F := y.F, L := y.L, in0 := H.NULL)
      && (if x.in0 == H.NULL || Quant(x.s.r.hdr0) then y.F == x.F && y.L == x.L
          else FreeStep(x.L, y.F, y.L, x.in0, lo, hi) && y.F == F)
    case Free0(F) =>
      && x.s.r.mux.MRelease? && y == x.(s := Step(x.s, Release), F := y.F, L := y.L, rep0 := H.NULL)
      && (if x.rep0 == H.NULL then y.F == x.F && y.L == x.L else FreeStep(x.L, y.F, y.L, x.rep0, lo, hi) && y.F == F)
  }

  // ---- who is using node 0 -----------------------------------------------------------------------

  datatype Use = Idle | Asking | Refusing | Holding | Working(n: int) | Answering

  function Use0(host: HostPC, h: seq<byte>, work0: Worker, mux: MuxPC): Use {
    if host.HAlloc? then Asking
    else if host.HDrain? || (host.HGo? && host.n < 0) then Refusing
    else if host.HGo? || (host.HPay? && |h| == JOB_HDR && h[3] == 0) then Holding
    else if work0.Run? then Working(work0.n)
    else if work0.Done? || mux.MOut0? || mux.MRelease? then Answering
    else Idle
  }

  function UseOf(s: State): Use { Use0(s.r.host, s.r.h, s.r.work0, s.r.mux) }

  /** What the network's invariant says about the one user of node 0. */
  predicate One(s: State) {
    && !(DispatcherTheorems.HostHas0(s) && DispatcherTheorems.Work0Has0(s))
    && !(DispatcherTheorems.HostHas0(s) && DispatcherTheorems.MuxHas0(s))
    && !(DispatcherTheorems.Work0Has0(s) && DispatcherTheorems.MuxHas0(s))
    && (s.r.host.HAlloc? ==> s.r.hdr0 == s.r.h && |s.r.h| == JOB_HDR && s.r.h[3] == 0)
    && (s.r.work0.Run? ==> |s.r.hdr0| == JOB_HDR && Len(s.r.hdr0) <= JOB_BIG && (s.r.work0.n < 0 || s.r.work0.n == Len(s.r.hdr0)))
  }

  lemma OneOf(s: State)
    requires Inv(s)
    ensures One(s)
  {
    hide LedgerInv, TramInv;
  }

  /** A step of the network outside the heap moves the use of node 0 on in one of these ways, and keeps its header. */
  predicate Onward(u: Use, a: Action, v: Use) {
    || v == u
    || (a.HostTake? && u.Idle? && v.Asking?)
    || (a.HostGo? && u.Refusing? && v.Working? && v.n < 0)
    || (a.HostGo? && u.Holding? && v.Working? && v.n >= 0)
  }

  lemma NetUse(s: State, a: Action)
    requires One(s) && Enabled(s, a) && Outside(a) && One(Step(s, a))
    ensures Onward(UseOf(s), a, UseOf(Step(s, a)))
    ensures !UseOf(s).Idle? ==> Step(s, a).r.hdr0 == s.r.hdr0
    ensures a.HostGo? ==> UseOf(Step(s, a)).Working? && !UseOf(s).Working?
  {
    hide G4, RouteTakes, Tram2Takes, IsReply, ValidReq;
  }

  // ---- the heap as a function of the use ---------------------------------------------------------

  /** The free list once the payload of size n has been cut from F. */
  function After(F: seq<H.Ext>, n: nat): seq<H.Ext>
    requires Fits1(F, n)
  {
    H.Carve(F, H.FirstFit(F, H.Need(n)), H.Need(n))
  }

  /** The blocks that are not the kernel's while work0 has the payload of size n, and where the reply goes. */
  predicate Bench(K: seq<H.Block>, in0: int, rep0: int, F0: seq<H.Ext>, L0: seq<H.Block>, n: nat, quant: bool, cap: nat)
    requires Fits1(F0, n)
  {
    var b := [Cut(F0, n)] + L0;
    if quant then rep0 == in0 && K == b
    else if Fits1(After(F0, n), LREP_HDR + cap) then
      var c := Cut(After(F0, n), LREP_HDR + cap); rep0 == c.addr && K == [c] + b
    else rep0 == H.NULL && K == b
  }

  predicate AtWork(L: seq<H.Block>, in0: int, rep0: int, stage: Stage, F0: seq<H.Ext>, L0: seq<H.Block>, hdr: seq<byte>, n: int) {
    var sz := PaySize(hdr);
    if n < 0 then
      !Fits1(F0, sz) && in0 == H.NULL && L == L0 && (!stage.Fetch? ==> rep0 == H.NULL)
    else
      && Fits1(F0, sz) && in0 == Cut(F0, sz).addr
      && match stage
         case Fetch => L == [Cut(F0, sz)] + L0
         case Kernel(cap) => Bench(H.Kept(L), in0, rep0, F0, L0, sz, Quant(hdr), cap)
         case Swept(cap) => Bench(L, in0, rep0, F0, L0, sz, Quant(hdr), cap)
  }

  predicate At(x: Heaped, F0: seq<H.Ext>, L0: seq<H.Block>) {
    var sz := PaySize(x.s.r.hdr0);
    match UseOf(x.s)
    case Idle => x.L == L0
    case Asking => x.L == L0
    case Refusing => x.L == L0 && x.in0 == H.NULL && !Fits1(F0, sz)
    case Holding => Fits1(F0, sz) && x.L == [Cut(F0, sz)] + L0 && x.in0 == Cut(F0, sz).addr
    case Working(n) => AtWork(x.L, x.in0, x.rep0, x.stage, F0, L0, x.s.r.hdr0, n)
    case Answering => if x.rep0 == H.NULL then x.L == L0 else OneMore(x.L, L0, x.rep0)
  }

  predicate OneMore(L: seq<H.Block>, L0: seq<H.Block>, p: int) { |L| > 0 && L[1..] == L0 && L[0].addr == p }

  /** The heap at the start: some blocks that no job owns. */
  ghost predicate Start(F0: seq<H.Ext>, L0: seq<H.Block>, lo: int, hi: int) {
    H.Tiles(F0, L0, lo, hi) && H.Kept(L0) == L0 && lo > 0
  }

  ghost predicate HeapInv(x: Heaped, F0: seq<H.Ext>, L0: seq<H.Block>, lo: int, hi: int) {
    Inv(x.s) && Start(F0, L0, lo, hi) && H.Tiles(x.F, x.L, lo, hi) && At(x, F0, L0)
  }

  // ---- every move keeps it -----------------------------------------------------------------------

  lemma CutFits(F: seq<H.Ext>, L: seq<H.Block>, n: nat, lo: int, hi: int)
    requires H.Tiles(F, L, lo, hi) && Fits1(F, n) && lo > 0
    ensures H.Tiles(After(F, n), [Cut(F, n)] + L, lo, hi) && Cut(F, n).addr != H.NULL
  {
    hide H.FreeAt, H.LiveAt, H.Disjoint;
    H.CarveTiles(F, L, H.FirstFit(F, H.Need(n)), H.Need(n), false, lo, hi);
  }

  lemma AddrOnce(F: seq<H.Ext>, L: seq<H.Block>, lo: int, hi: int, j: nat, k: nat)
    requires H.Tiles(F, L, lo, hi) && j < |L| && k < |L| && L[j].addr == L[k].addr
    ensures j == k
  {
    hide H.Canonical, H.FreeAt, H.LiveAt;
  }

  lemma SameF(F: seq<H.Ext>, G: seq<H.Ext>, L: seq<H.Block>, lo: int, hi: int)
    requires H.Tiles(F, L, lo, hi) && H.Tiles(G, L, lo, hi)
    ensures F == G
  {
    hide H.Tiles;
    H.FreeListDetermined(F, L, G, L, lo, hi);
  }

  lemma KeptMore(b: H.Block, L: seq<H.Block>)
    requires !b.job
    ensures H.Kept([b] + L) == [b] + H.Kept(L)
  {
    assert ([b] + L)[1..] == L;
  }

  /** Freeing the first block, or the one behind it. */
  lemma DropFirst(F: seq<H.Ext>, L: seq<H.Block>, F': seq<H.Ext>, L': seq<H.Block>, L0: seq<H.Block>, p: int, lo: int, hi: int)
    requires H.Tiles(F, L, lo, hi) && FreeStep(L, F', L', p, lo, hi) && OneMore(L, L0, p)
    ensures L' == L0
  {
    hide H.Tiles;
    var k :| 0 <= k < |L| && L[k].addr == p && L' == H.Drop(L, k);
    AddrOnce(F, L, lo, hi, 0, k);
  }

  lemma DropSecond(F: seq<H.Ext>, c: H.Block, b: H.Block, L0: seq<H.Block>, F': seq<H.Ext>, L': seq<H.Block>, lo: int, hi: int)
    requires H.Tiles(F, [c] + ([b] + L0), lo, hi) && FreeStep([c] + ([b] + L0), F', L', b.addr, lo, hi)
    ensures L' == [c] + L0
  {
    hide H.Tiles;
    var L := [c] + ([b] + L0);
    var k :| 0 <= k < |L| && L[k].addr == b.addr && L' == H.Drop(L, k);
    AddrOnce(F, L, lo, hi, 1, k);
    assert L[..1] == [c] && L[2..] == L0;
  }

  lemma NetKeeps(x: Heaped, a: Action, y: Heaped, F0: seq<H.Ext>, L0: seq<H.Block>, lo: int, hi: int)
    requires HeapInv(x, F0, L0, lo, hi) && Moves(x, Net(a), y, lo, hi)
    ensures HeapInv(y, F0, L0, lo, hi)
  {
    hide Inv, H.Tiles, Step, Enabled, AtWork, Use0, Cut, Fits1, PaySize, Start;
    StepInv(x.s, a);
    OneOf(x.s);
    OneOf(y.s);
    NetUse(x.s, a);
    hide One;
    if UseOf(x.s).Holding? && UseOf(y.s).Working? {
      FetchHolds(y, F0, L0, true);
    } else if UseOf(x.s).Refusing? && UseOf(y.s).Working? {
      FetchHolds(y, F0, L0, false);
    }
  }

  lemma FetchHolds(y: Heaped, F0: seq<H.Ext>, L0: seq<H.Block>, held: bool)
    requires UseOf(y.s).Working? && y.stage.Fetch? && (UseOf(y.s).n >= 0 <==> held)
    requires var sz := PaySize(y.s.r.hdr0);
             if held then Fits1(F0, sz) && y.L == [Cut(F0, sz)] + L0 && y.in0 == Cut(F0, sz).addr
             else !Fits1(F0, sz) && y.L == L0 && y.in0 == H.NULL
    ensures At(y, F0, L0)
  {
    hide Cut, Fits1, PaySize, Use0;
  }

  lemma AllocKeeps(x: Heaped, y: Heaped, F0: seq<H.Ext>, L0: seq<H.Block>, lo: int, hi: int)
    requires HeapInv(x, F0, L0, lo, hi) && Moves(x, Alloc, y, lo, hi)
    ensures HeapInv(y, F0, L0, lo, hi)
    ensures x.F == F0 && (y.in0 == H.NULL <==> !Fits1(F0, PaySize(x.s.r.h)))
  {
    hide Inv, H.Tiles, H.Carve, H.Taken, H.Need, H.FirstFit, PaySize, AtWork;
    OneOf(x.s);
    var sz := PaySize(x.s.r.h);
    SameF(x.F, F0, L0, lo, hi);
    if Fits1(F0, sz) {
      CutFits(F0, L0, sz, lo, hi);
    }
    StepInv(x.s, HostAlloc(y.in0 != H.NULL));
    AllocUse(x.s, y.in0 != H.NULL);
  }

  lemma AllocUse(s: State, ok: bool)
    requires One(s) && s.r.host.HAlloc?
    ensures UseOf(Step(s, HostAlloc(ok))) == (if ok then Holding else Refusing) && Step(s, HostAlloc(ok)).r.hdr0 == s.r.h
  {
    hide G4;
    LenNat(s.r.h);
  }

  lemma TakeKeeps(x: Heaped, cap: nat, y: Heaped, F0: seq<H.Ext>, L0: seq<H.Block>, lo: int, hi: int)
    requires HeapInv(x, F0, L0, lo, hi) && Moves(x, Take(cap), y, lo, hi)
    ensures HeapInv(y, F0, L0, lo, hi)
  {
    hide Inv, H.Tiles, H.Carve, H.Taken, H.Need, H.FirstFit, PaySize, H.Kept, Quant;
    OneOf(x.s);
    var sz, n := PaySize(x.s.r.hdr0), x.s.r.work0.n;
    assert UseOf(x.s) == Working(n);
    if n >= 0 {
      var b := Cut(F0, sz);
      CutFits(F0, L0, sz, lo, hi);
      KeptMore(b, L0);
      SameF(x.F, After(F0, sz), [b] + L0, lo, hi);
      if !Quant(x.s.r.hdr0) && Fits1(After(F0, sz), LREP_HDR + cap) {
        CutFits(After(F0, sz), [b] + L0, LREP_HDR + cap, lo, hi);
        KeptMore(Cut(After(F0, sz), LREP_HDR + cap), [b] + L0);
      }
    }
  }

  lemma KernelKeeps(x: Heaped, F: seq<H.Ext>, L: seq<H.Block>, y: Heaped, F0: seq<H.Ext>, L0: seq<H.Block>, lo: int, hi: int)
    requires HeapInv(x, F0, L0, lo, hi) && Moves(x, Compute(F, L), y, lo, hi)
    ensures HeapInv(y, F0, L0, lo, hi)
  {
    hide Inv, H.Tiles, H.Kept, PaySize, Cut, Fits1, Bench;
    OneOf(x.s);
    assert UseOf(x.s) == Working(x.s.r.work0.n);
  }

  lemma SweepKeeps(x: Heaped, F: seq<H.Ext>, y: Heaped, F0: seq<H.Ext>, L0: seq<H.Block>, lo: int, hi: int)
    requires HeapInv(x, F0, L0, lo, hi) && Moves(x, Sweep(F), y, lo, hi)
    ensures HeapInv(y, F0, L0, lo, hi)
  {
    hide Inv, H.Tiles, H.Kept, PaySize, Cut, Fits1, Bench;
    OneOf(x.s);
    assert UseOf(x.s) == Working(x.s.r.work0.n);
  }

  lemma FinishKeeps(x: Heaped, rep: seq<byte>, F: seq<H.Ext>, y: Heaped, F0: seq<H.Ext>, L0: seq<H.Block>, lo: int, hi: int)
    requires HeapInv(x, F0, L0, lo, hi) && Moves(x, Finish(rep, F), y, lo, hi)
    ensures HeapInv(y, F0, L0, lo, hi)
  {
    hide Inv, H.Tiles, H.Kept, H.Drop, H.Carve, H.Taken, H.Need, H.FirstFit, PaySize, Quant, IsReply, G4;
    OneOf(x.s);
    StepInv(x.s, Work0(rep));
    OneOf(y.s);
    var sz, n := PaySize(x.s.r.hdr0), x.s.r.work0.n;
    assert UseOf(x.s) == Working(n) && UseOf(y.s).Answering?;
    if n >= 0 {
      var b := Cut(F0, sz);
      CutFits(F0, L0, sz, lo, hi);
      assert ([b] + L0)[1..] == L0;
      if !Quant(x.s.r.hdr0) {
        if Fits1(After(F0, sz), LREP_HDR + x.stage.cap) {
          var c := Cut(After(F0, sz), LREP_HDR + x.stage.cap);
          CutFits(After(F0, sz), [b] + L0, LREP_HDR + x.stage.cap, lo, hi);
          DropSecond(x.F, c, b, L0, y.F, y.L, lo, hi);
          assert ([c] + L0)[1..] == L0;
        } else {
          DropFirst(x.F, x.L, y.F, y.L, L0, b.addr, lo, hi);
        }
      }
    }
  }

  lemma ReleaseKeeps(x: Heaped, F: seq<H.Ext>, y: Heaped, F0: seq<H.Ext>, L0: seq<H.Block>, lo: int, hi: int)
    requires HeapInv(x, F0, L0, lo, hi) && Moves(x, Free0(F), y, lo, hi)
    ensures HeapInv(y, F0, L0, lo, hi)
  {
    hide Inv, H.Tiles, H.Kept, H.Drop, PaySize, AtWork, Cut, Fits1;
    OneOf(x.s);
    StepInv(x.s, Release);
    OneOf(y.s);
    assert UseOf(x.s).Answering?;
    if x.rep0 != H.NULL {
      DropFirst(x.F, x.L, y.F, y.L, L0, x.rep0, lo, hi);
    }
  }

  lemma MoveKeeps(x: Heaped, m: Move, y: Heaped, F0: seq<H.Ext>, L0: seq<H.Block>, lo: int, hi: int)
    requires HeapInv(x, F0, L0, lo, hi) && Moves(x, m, y, lo, hi)
    ensures HeapInv(y, F0, L0, lo, hi)
  {
    hide HeapInv, Moves;
    match m
    case Net(a) => NetKeeps(x, a, y, F0, L0, lo, hi);
    case Alloc => AllocKeeps(x, y, F0, L0, lo, hi);
    case Take(cap) => TakeKeeps(x, cap, y, F0, L0, lo, hi);
    case Compute(F, L) => KernelKeeps(x, F, L, y, F0, L0, lo, hi);
    case Sweep(F) => SweepKeeps(x, F, y, F0, L0, lo, hi);
    case Finish(rep, F) => FinishKeeps(x, rep, F, y, F0, L0, lo, hi);
    case Free0(F) => ReleaseKeeps(x, F, y, F0, L0, lo, hi);
  }

  // ---- every run ---------------------------------------------------------------------------------

  /** A run of the network with its heap, from a booted network whose heap is (F0, L0). */
  ghost predicate Path(path: seq<Heaped>, moves: seq<Move>, F0: seq<H.Ext>, L0: seq<H.Block>, lo: int, hi: int) {
    && |path| == |moves| + 1 && Start(F0, L0, lo, hi)
    && Init(path[0].s) && path[0].F == F0 && path[0].L == L0
    && forall i :: 0 <= i < |moves| ==> Moves(path[i], moves[i], path[i + 1], lo, hi)
  }

  lemma {:induction false} PathInv(path: seq<Heaped>, moves: seq<Move>, F0: seq<H.Ext>, L0: seq<H.Block>, lo: int, hi: int, i: nat)
    requires Path(path, moves, F0, L0, lo, hi) && i < |path|
    ensures HeapInv(path[i], F0, L0, lo, hi)
    decreases i
  {
    hide Moves, Inv, H.Tiles, AtWork;
    if i == 0 {
      InitInv(path[0].s);
    } else {
      PathInv(path, moves, F0, L0, lo, hi, i - 1);
      MoveKeeps(path[i - 1], moves[i - 1], path[i], F0, L0, lo, hi);
    }
  }

  /** In every reachable state in which no process has a job of node 0, and whatever the kernels of earlier jobs allocated
      and left, the heap is the one the network started with. */
  lemma IdleHeapIsTheSame(path: seq<Heaped>, moves: seq<Move>, F0: seq<H.Ext>, L0: seq<H.Block>, lo: int, hi: int, i: nat)
    requires Path(path, moves, F0, L0, lo, hi) && i < |path|
    requires UseOf(path[i].s).Idle? || UseOf(path[i].s).Asking?
    ensures path[i].F == F0 && path[i].L == L0
  {
    hide Path, Inv, H.Tiles, AtWork, Use0;
    PathInv(path, moves, F0, L0, lo, hi, i);
    SameF(path[i].F, F0, L0, lo, hi);
  }

  /** Node 0 is in nobody's hands when it has no job, or only one that the daemon is still writing, and its last reply has
      been freed. */
  lemma NoJobIsIdle(s: State)
    requires Inv(s) && (s.l.p0.Free? || s.l.p0.Asked?) && !s.r.mux.MRelease?
    ensures UseOf(s).Idle?
  {
    hide LedgerInv, TramInv, G4;
  }

  /** A job of node 0 is refused exactly when its buffers do not fit the heap the network started with, whatever ran before:
      work0 gets a buffer for its reply if and only if the job fits. */
  lemma RefusedIffItNeverFits(path: seq<Heaped>, moves: seq<Move>, F0: seq<H.Ext>, L0: seq<H.Block>, lo: int, hi: int, i: nat)
    requires Path(path, moves, F0, L0, lo, hi) && i < |path|
    requires path[i].s.r.work0.Run? && !path[i].stage.Fetch?
    ensures path[i].rep0 != H.NULL <==> H.Fits(F0, JobOf(path[i].s.r.hdr0, path[i].stage.cap))
  {
    hide Path, Inv, H.Tiles, H.Kept, H.Need, H.FirstFit, Use0;
    PathInv(path, moves, F0, L0, lo, hi, i);
    RunFits(path[i], F0, L0, lo, hi);
  }

  lemma RunFits(x: Heaped, F0: seq<H.Ext>, L0: seq<H.Block>, lo: int, hi: int)
    requires HeapInv(x, F0, L0, lo, hi) && x.s.r.work0.Run? && !x.stage.Fetch?
    ensures x.rep0 != H.NULL <==> H.Fits(F0, JobOf(x.s.r.hdr0, x.stage.cap))
  {
    hide Inv, H.Tiles, H.Kept, H.Need, H.FirstFit, G4, Bench, Fits1, After, Cut, H.Fits;
    OneOf(x.s);
    assert UseOf(x.s) == Working(x.s.r.work0.n);
    LenNat(x.s.r.hdr0);
    var L := if x.stage.Kernel? then H.Kept(x.L) else x.L;
    BenchFits(L, x.in0, x.rep0, F0, L0, x.s.r.hdr0, x.stage.cap, x.s.r.work0.n, lo, hi);
  }

  lemma FitsMeans(F0: seq<H.Ext>, hdr: seq<byte>, cap: nat)
    requires |hdr| == JOB_HDR && Len(hdr) <= JOB_BIG
    ensures H.Fits(F0, JobOf(hdr, cap)) <==>
            Fits1(F0, PaySize(hdr)) && (Quant(hdr) || Fits1(After(F0, PaySize(hdr)), LREP_HDR + cap))
  {
    hide H.Need, H.FirstFit, H.Carve, G4;
    LenNat(hdr);
  }

  lemma BenchFits(L: seq<H.Block>, in0: int, rep0: int, F0: seq<H.Ext>, L0: seq<H.Block>, hdr: seq<byte>, cap: nat, n: int, lo: int, hi: int)
    requires Start(F0, L0, lo, hi) && |hdr| == JOB_HDR && Len(hdr) <= JOB_BIG && (n < 0 || n == Len(hdr))
    requires if n < 0 then !Fits1(F0, PaySize(hdr)) && rep0 == H.NULL
             else Fits1(F0, PaySize(hdr)) && in0 == Cut(F0, PaySize(hdr)).addr
                  && Bench(L, in0, rep0, F0, L0, PaySize(hdr), Quant(hdr), cap)
    ensures rep0 != H.NULL <==> H.Fits(F0, JobOf(hdr, cap))
  {
    hide H.Tiles, H.Kept, H.Fits, Quant, Fits1, After, Cut, PaySize, Len;
    var sz := PaySize(hdr);
    FitsMeans(F0, hdr, cap);
    if n >= 0 {
      CutFits(F0, L0, sz, lo, hi);
      if Fits1(After(F0, sz), LREP_HDR + cap) {
        CutFits(After(F0, sz), [Cut(F0, sz)] + L0, LREP_HDR + cap, lo, hi);
      }
    }
  }

  /** ... and a refusal is the reply ST_TOOBIG. */
  lemma RefusalSaysTooBig(x: Heaped, rep: seq<byte>, F: seq<H.Ext>, y: Heaped, F0: seq<H.Ext>, L0: seq<H.Block>, lo: int, hi: int)
    requires HeapInv(x, F0, L0, lo, hi) && Moves(x, Finish(rep, F), y, lo, hi)
    requires !H.Fits(F0, JobOf(x.s.r.hdr0, x.stage.cap))
    ensures y.s.r.rep0 == rep && |rep| == LREP_HDR && rep[2] == ST_TOOBIG
  {
    hide Inv, H.Tiles, At, H.Fits, IsReply, G4;
    RunFits(x, F0, L0, lo, hi);
  }

  // ---- the heap stops nobody ---------------------------------------------------------------------

  /** Where a live block would go in the free list. */
  lemma {:induction false} PlaceOf(F: seq<H.Ext>, a: int, n: nat) returns (i: nat)
    requires n <= |F| && forall j :: n <= j < |F| ==> F[j].addr >= a
    ensures i <= |F| && (i > 0 ==> F[i - 1].addr < a) && (i < |F| ==> F[i].addr >= a)
    decreases n
  {
    if n > 0 && F[n - 1].addr >= a {
      i := PlaceOf(F, a, n - 1);
    } else {
      i := n;
    }
  }

  lemma FreeExists(F: seq<H.Ext>, L: seq<H.Block>, k: nat, lo: int, hi: int) returns (F': seq<H.Ext>)
    requires H.Tiles(F, L, lo, hi) && k < |L|
    ensures H.Tiles(F', H.Drop(L, k), lo, hi)
  {
    hide H.FreeAt, H.LiveAt, H.Release, H.Drop;
    var e := H.Ext(L[k].addr, H.HDR + L[k].n);
    H.LiveClear(F, L, k, lo, hi);
    var i := PlaceOf(F, e.addr, |F|);
    H.PlaceFits(F, i, e, lo, hi);
    H.ReleaseTiles(F, L, i, k, lo, hi);
    F' := H.Release(F, i, e);
  }

  lemma {:induction false} SweepExists(F: seq<H.Ext>, L: seq<H.Block>, lo: int, hi: int) returns (F': seq<H.Ext>)
    requires H.Tiles(F, L, lo, hi)
    ensures H.Tiles(F', H.Kept(L), lo, hi)
    decreases |L|
  {
    hide H.Tiles;
    if k :| 0 <= k < |L| && L[k].job {
      var G := FreeExists(F, L, k, lo, hi);
      F' := SweepExists(G, H.Drop(L, k), lo, hi);
      H.KeptDrop(L, k);
    } else {
      NoJobs(L);
      F' := F;
    }
  }

  lemma {:induction false} NoJobs(L: seq<H.Block>)
    requires forall k :: 0 <= k < |L| ==> !L[k].job
    ensures H.Kept(L) == L
  {
    if L != [] {
      NoJobs(L[1..]);
    }
  }

  /** Wherever a process is about to call malloc or free, or the kernel to return, it can go on. */
  lemma HeapNeverBlocks(x: Heaped, F0: seq<H.Ext>, L0: seq<H.Block>, lo: int, hi: int, cap: nat, rep: seq<byte>) returns (m: Move, y: Heaped)
    requires HeapInv(x, F0, L0, lo, hi) && (x.s.r.host.HAlloc? || x.s.r.work0.Run? || x.s.r.mux.MRelease?)
    requires x.s.r.work0.Run? && x.stage.Swept? ==>
               Enabled(x.s, Work0(rep)) && (x.rep0 == H.NULL ==> |rep| == LREP_HDR && rep[2] == ST_TOOBIG)
    ensures Moves(x, m, y, lo, hi) && !m.Net?
  {
    hide Inv, H.Tiles, H.Kept, H.Carve, H.Taken, H.Need, H.FirstFit, PaySize, Quant, IsReply, G4, AtWork;
    OneOf(x.s);
    if x.s.r.host.HAlloc? {
      var sz := PaySize(x.s.r.h);
      var ok := Fits1(x.F, sz);
      if ok {
        CutFits(x.F, x.L, sz, lo, hi);
      }
      m, y := Alloc, x.(s := Step(x.s, HostAlloc(ok)), F := if ok then After(x.F, sz) else x.F,
                        L := if ok then [Cut(x.F, sz)] + x.L else x.L, in0 := if ok then Cut(x.F, sz).addr else H.NULL);
    } else if x.s.r.work0.Run? {
      m, y := WorkGoesOn(x, F0, L0, lo, hi, cap, rep);
    } else {
      assert UseOf(x.s).Answering?;
      var F := x.F;
      if x.rep0 != H.NULL {
        F := FreeExists(x.F, x.L, 0, lo, hi);
      }
      m, y := Free0(F), x.(s := Step(x.s, Release), F := F, L := if x.rep0 == H.NULL then x.L else H.Drop(x.L, 0), rep0 := H.NULL);
    }
  }

  lemma WorkGoesOn(x: Heaped, F0: seq<H.Ext>, L0: seq<H.Block>, lo: int, hi: int, cap: nat, rep: seq<byte>) returns (m: Move, y: Heaped)
    requires HeapInv(x, F0, L0, lo, hi) && One(x.s) && x.s.r.work0.Run?
    requires x.stage.Swept? ==> Enabled(x.s, Work0(rep)) && (x.rep0 == H.NULL ==> |rep| == LREP_HDR && rep[2] == ST_TOOBIG)
    ensures Moves(x, m, y, lo, hi) && !m.Net?
  {
    hide Inv, H.Tiles, H.Kept, H.Carve, H.Taken, H.Need, H.FirstFit, PaySize, Quant, IsReply, G4;
    assert UseOf(x.s) == Working(x.s.r.work0.n);
    match x.stage
    case Fetch =>
      var n := LREP_HDR + cap;
      var take := x.s.r.work0.n >= 0 && !Quant(x.s.r.hdr0) && Fits1(x.F, n);
      if take {
        CutFits(x.F, x.L, n, lo, hi);
      }
      var rep0 := if x.s.r.work0.n < 0 then H.NULL else if Quant(x.s.r.hdr0) then x.in0 else if take then Cut(x.F, n).addr else H.NULL;
      m, y := Take(cap), x.(F := if take then After(x.F, n) else x.F, L := if take then [Cut(x.F, n)] + x.L else x.L,
                            rep0 := rep0, stage := Kernel(cap));
    case Kernel(c) =>
      var F := SweepExists(x.F, x.L, lo, hi);
      m, y := Sweep(F), x.(F := F, L := H.Kept(x.L), stage := Swept(c));
    case Swept(_) =>
      m, y := FinishExists(x, F0, L0, lo, hi, rep);
  }

  lemma FinishExists(x: Heaped, F0: seq<H.Ext>, L0: seq<H.Block>, lo: int, hi: int, rep: seq<byte>) returns (m: Move, y: Heaped)
    requires HeapInv(x, F0, L0, lo, hi) && x.s.r.work0.Run? && x.stage.Swept? && One(x.s)
    requires Enabled(x.s, Work0(rep)) && (x.rep0 == H.NULL ==> |rep| == LREP_HDR && rep[2] == ST_TOOBIG)
    ensures Moves(x, m, y, lo, hi) && !m.Net?
  {
    hide Inv, H.Tiles, H.Kept, H.Carve, H.Taken, H.Need, H.FirstFit, PaySize, Quant, IsReply, G4;
    assert UseOf(x.s) == Working(x.s.r.work0.n);
    if x.in0 == H.NULL || Quant(x.s.r.hdr0) {
      m, y := Finish(rep, x.F), x.(s := Step(x.s, Work0(rep)), in0 := H.NULL);
    } else {
      var k := if x.L[0].addr == x.in0 then 0 else 1;
      assert k < |x.L| && x.L[k].addr == x.in0;
      var F := FreeExists(x.F, x.L, k, lo, hi);
      m, y := Finish(rep, F), x.(s := Step(x.s, Work0(rep)), F := F, L := H.Drop(x.L, k), in0 := H.NULL);
    }
  }
}
