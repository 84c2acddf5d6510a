/** What the invariant buys: the promises of the transputer network, over every run. */
module DispatcherTheorems {
  import opened Wire
  import opened Dispatcher
  import opened DispatcherInv

  predicate Reaches(s: State, acts: seq<Action>, t: State)
    decreases |acts|
  {
    if acts == [] then s == t else Enabled(s, acts[0]) && Reaches(Step(s, acts[0]), acts[1..], t)
  }

  lemma {:induction false} RunInv(s: State, acts: seq<Action>, t: State)
    requires Inv(s) && Reaches(s, acts, t)
    ensures Inv(t)
    decreases |acts|
  {
    hide RootInv, TramInv, LedgerInv;
    if acts != [] {
      StepInv(s, acts[0]);
      RunInv(Step(s, acts[0]), acts[1..], t);
    }
  }

  // ---- one user at a time ----------------------------------------------------------------------

  predicate HostHas0(s: State) {
    s.r.host.HAlloc? || s.r.host.HDrain? || s.r.host.HGo? || (s.r.host.HPay? && |s.r.h| == JOB_HDR && s.r.h[3] == 0)
  }

  predicate Work0Has0(s: State) { s.r.work0.Run? || s.r.work0.Done? }

  predicate MuxHas0(s: State) { s.r.mux.MOut0? || s.r.mux.MRelease? }

  /** hdr0, in0, rep0 and the heap: host, work0 and mux never use them at the same time.  Only host's malloc, the
      kernel between jobheap_begin and jobheap_end, and mux's free touch the heap, so it has one user too. */
  lemma OneOwner(s0: State, acts: seq<Action>, s: State)
    requires Init(s0) && Reaches(s0, acts, s)
    ensures !(HostHas0(s) && Work0Has0(s)) && !(HostHas0(s) && MuxHas0(s)) && !(Work0Has0(s) && MuxHas0(s))
  {
    InitInv(s0);
    RunInv(s0, acts, s);
  }

  /** A reply is never overwritten before it has gone out: from the worker's last write to the last byte sent
      to the next node, the sending buffer holds the reply as it was made. */
  lemma RepliesIntact(s0: State, acts: seq<Action>, s: State)
    requires Init(s0) && Reaches(s0, acts, s)
    ensures s.l.p0.Made? || s.l.p0.Last? ==> s.r.rep0 == s.l.p0.rep
    ensures s.l.p1.Made? || s.l.p1.Up? ==> s.t.rep1 == s.l.p1.rep
    ensures s.l.p2.Made? ==> s.v.rep == s.l.p2.rep
    ensures s.l.p2.Up? ==> s.t.repm == s.l.p2.rep
    ensures s.l.p1.Last? ==> s.r.repm == s.l.p1.rep
    ensures s.l.p2.Last? ==> s.r.repm == s.l.p2.rep
  {
    InitInv(s0);
    RunInv(s0, acts, s);
  }

  /** Every kernel runs on the header and the payload of a request the daemon sent to that very node
      (node 0 is told -1 when the heap had no room for the payload). */
  lemma KernelsRunOnTheirOwnJob(s0: State, acts: seq<Action>, s: State)
    requires Init(s0) && Reaches(s0, acts, s)
    ensures s.r.work0.Run? ==> s.l.p0.Running? && s.r.hdr0 == s.l.p0.r.hdr && ValidReq(s.l.p0.r) && Node(s.l.p0.r) == 0
                               && (s.r.work0.n == -1 || s.r.in0 == s.l.p0.r.payload)
    ensures s.t.work1.Run? ==> s.l.p1.Running? && s.t.hdr1 == s.l.p1.r.hdr && ValidReq(s.l.p1.r) && Node(s.l.p1.r) == 1
                               && s.t.in1 == s.l.p1.r.payload
    ensures s.v.pc.VRun? ==> s.l.p2.Running? && s.v.hdr == s.l.p2.r.hdr && ValidReq(s.l.p2.r) && Node(s.l.p2.r) == 2
                             && s.v.inp == s.l.p2.r.payload
  {
    InitInv(s0);
    RunInv(s0, acts, s);
  }

  /** Exactly once: every request sent is open on its node or has been answered, never both and never twice; every
      answer carries its request's id and the node that ran it; and the bytes the daemon has read are those answers,
      whole and in order, followed by the start of at most one more. */
  lemma ExactlyOnce(s0: State, acts: seq<Action>, s: State)
    requires Init(s0) && Reaches(s0, acts, s)
    ensures multiset(s.l.asked) == Reqs(s.l.answers) + Open(s.l.p0) + Open(s.l.p1) + Open(s.l.p2)
    ensures forall i :: 0 <= i < |s.l.answers| ==> GoodAnswer(s.l.answers[i])
    ensures s.d.recv == Flat(s.l.answers) + Partial(s.r.mux, s.r.rep0, s.r.repm)
  {
    InitInv(s0);
    RunInv(s0, acts, s);
  }

  // ---- no deadlock -----------------------------------------------------------------------------

  /** Some job is being sent, run or answered, or a node is still to be reported free. */
  predicate Pending(s: State) {
    !s.l.p0.Free? || !s.l.p1.Free? || !s.l.p2.Free? || s.r.mux.MRelease? || s.r.mux.MFree?
  }

  predicate Internal(a: Action) { !a.Ask? }

  lemma SomeReply(hdr: seq<byte>, k: int) returns (rep: seq<byte>)
    requires |hdr| == JOB_HDR && 0 <= k < NODES
    ensures IsReply(rep, hdr, k, Cap(k))
  {
    rep := [hdr[0], hdr[1], ST_TOOBIG, 0, 0, 0, 0, 0, 0, 0, 0, 1, 0, 0, 0, k];
  }

  /** Host can always move once it has a request or the daemon offers one, unless it waits for mux's free message. */
  lemma HostMoves(s: State) returns (a: Action)
    requires Inv(s)
    requires !s.r.host.HAlt? || s.d.link.Writing?
    requires s.r.host.HWait? && |s.r.h| == JOB_HDR && s.r.h[3] in s.r.busy ==> s.r.mux.MFree?
    ensures Internal(a) && Enabled(s, a)
  {
    hide G4, Front, HoldBuf, BusyOk, Out0Ok, LinkUp, LinkUp2, Up1Ok, Up2Ok, LastOk, MOutOk, Stream, Books, AllGood,
         LedgerInv;
    match s.r.host
    case HAlt => a := HostPick;
    case HHdr(_) => a := HostHdr;
    case HWait => a := if s.r.h[3] in s.r.busy then FreeMsg else HostTake;
    case HAlloc => a := HostAlloc(true);
    case HPay(_) => a := HostPay;
    case HDrain(_) => a := HostDrain;
    case HGo(_) => a := HostGo;
    case HFwd(_) => a := if RouteIn(s.t.route) then HostFwd else if s.t.route.RGo? then RouteGo else RouteFwd;
  }

  /** A job is somewhere between route and mux. */
  predicate TramBusy(t: Tram1, v: Tram2) {
    !t.mux1.XAlt? || !t.work1.Ready? || v.pc.VOut? || v.pc.VRun? || t.route.RGo? || t.route.RFwd?
  }

  lemma TramMoves(s: State) returns (a: Action)
    requires Inv(s) && s.r.mux.MAlt? && TramBusy(s.t, s.v)
    ensures Internal(a) && Enabled(s, a)
  {
    hide G4, HoldBuf, LedgerInv, HostPos, LinkIn, Front, BusyOk, HdrOk, GoBuf, Work0Ok, Out0Ok, FwdOk, DownOk, LinkDown,
         LinkUp, MOutOk, LastOk, Route1Ok, Up1Ok, IsReply;
    WorkHeaders(s);
    if s.t.mux1.XOut1? || s.t.mux1.XOut? {
      a := MuxPick;
    } else if Mux1In(s.t.mux1) {
      a := Mux1Byte;
    } else if s.t.work1.Done? {
      a := Take1;
    } else if s.t.work1.Run? {
      var rep := SomeReply(s.t.hdr1, 1);
      a := Work1(rep);
    } else if s.v.pc.VOut? {
      a := Mux1Pick;
    } else if s.v.pc.VRun? {
      var rep := SomeReply(s.v.hdr, 2);
      a := Work2(rep);
    } else {
      a := if s.t.route.RGo? then RouteGo else RouteFwd;
    }
  }

  /** Mux waits in its ALT: somebody has, or is making, or is fetching work. */
  lemma MuxIdleMoves(s: State) returns (a: Action)
    requires Inv(s) && s.r.mux.MAlt? && Pending(s)
    ensures Internal(a) && Enabled(s, a)
  {
    hide G4, HoldBuf, LedgerInv, HostPos, LinkIn, LinkDown, LinkDown2, LinkUp, LinkUp2, IsReply, ValidReq;
    if s.r.work0.Done? {
      a := Take0;
    } else if s.r.work0.Run? {
      WorkHeaders(s);
      var rep := SomeReply(s.r.hdr0, 0);
      a := Work0(rep);
    } else if TramBusy(s.t, s.v) {
      a := TramMoves(s);
    } else {
      a := HostMoves(s);
    }
  }

  lemma WorkHeaders(s: State)
    requires Inv(s)
    ensures s.r.work0.Run? ==> |s.r.hdr0| == JOB_HDR
    ensures s.t.work1.Run? ==> |s.t.hdr1| == JOB_HDR
    ensures s.v.pc.VRun? ==> |s.v.hdr| == JOB_HDR
  {
    hide LedgerInv, G4, LinkIn, Front, HoldBuf, BusyOk, LinkDown, LinkDown2, LinkUp, LinkUp2;
  }

  /** Mux is sending to the daemon: if the daemon is itself writing, host can take what it writes. */
  lemma MuxOutMoves(s: State) returns (a: Action)
    requires Inv(s) && (s.r.mux.MOut0? || s.r.mux.MOut?)
    ensures Internal(a) && Enabled(s, a)
  {
    hide G4, HoldBuf, Stream, Books, AllGood, LedgerInv, ValidReq, HostPos, LinkIn, LinkDown, LinkDown2, LinkUp, LinkUp2,
         GoBuf, FwdOk, DownOk, Route1Ok, Route2Ok, Work1Ok, Work2Ok, Up1Ok, Up2Ok;
    if s.d.link.Quiet? {
      a := if s.r.mux.MOut0? then Out0 else MuxOut;
    } else {
      a := HostMoves(s);
    }
  }

  /** No deadlock: while anything is pending, some process can step without a new request from the daemon. */
  lemma NoDeadlock(s0: State, acts: seq<Action>, s: State) returns (a: Action)
    requires Init(s0) && Reaches(s0, acts, s) && Pending(s)
    ensures Internal(a) && Enabled(s, a)
  {
    InitInv(s0);
    RunInv(s0, acts, s);
    a := Moves(s);
  }

  lemma Moves(s: State) returns (a: Action)
    requires Inv(s) && Pending(s)
    ensures Internal(a) && Enabled(s, a)
  {
    hide G4, HoldBuf, Stream, Books, AllGood, LedgerInv, ValidReq, HostPos, LinkIn, LinkDown, LinkDown2, LinkUp2,
         GoBuf, FwdOk, DownOk, Route1Ok, Route2Ok, Work1Ok, Work2Ok;
    match s.r.mux
    case MAlt => a := MuxIdleMoves(s);
    case MOut0(_) => a := MuxOutMoves(s);
    case MOut(_) => a := MuxOutMoves(s);
    case MRelease => a := Release;
    case MFree(_) =>
      if s.r.host.HAlt? {
        a := FreeMsg;
      } else {
        a := HostMoves(s);
      }
    case MHdr(_) => a := MuxByte;
    case MBody(_) => a := MuxByte;
  }

  // ---- every job is answered -------------------------------------------------------------------

  function Weight(p: Phase): nat {
    match p
    case Free => 0
    case Last(_, _) => 1
    case Up(_, _) => 2
    case Made(_, _) => 3
    case Running(_) => 4
    case Routed(_) => 5
    case Down(_) => 6
    case Held(_) => 7
    case Asked(_) => 8
  }

  /** Stages still to go, over all nodes. */
  function Stages(l: Ledger, mux: MuxPC): nat {
    4 * (Weight(l.p0) + Weight(l.p1) + Weight(l.p2)) + (if mux.MRelease? then 2 else if mux.MFree? then 1 else 0)
  }

  function HostDone(p: HostPC): nat {
    match p
    case HAlt => 0
    case HHdr(got) => 1 + got
    case HWait => 14
    case HAlloc => 15
    case HPay(got) => 16 + got
    case HDrain(got) => 16 + got
    case HGo(_) => 17 + JOB_BIG
    case HFwd(sent) => sent
  }

  function MuxDone(p: MuxPC): nat {
    match p
    case MOut0(sent) => sent
    case MHdr(got) => 1 + got
    case MBody(got) => 17 + got
    case MOut(sent) => sent
    case _ => 0
  }

  /** Bytes and small steps done within the present stages. */
  function Progress(s: State): nat {
    HostDone(s.r.host) + MuxDone(s.r.mux)
    + (if s.t.route.RFwd? then s.t.route.sent else 0)
    + (if s.t.mux1.XHdr? || s.t.mux1.XBody? then 1 else 0)
    + (if s.v.pc.VOut? then s.v.pc.sent else 0)
  }

  const LIMIT := 6 * (JOB_BIG + 64)

  /** Never negative, and smaller after every step of the network. */
  function Rank(s: State): int { Stages(s.l, s.r.mux) * LIMIT + (LIMIT - 1 - Progress(s)) }

  lemma HostBound(s: State)
    requires Inv(s)
    ensures HostDone(s.r.host) < JOB_BIG + 32
  {
    hide G4, LedgerInv, HoldBuf, BusyOk, Work0Ok, Out0Ok, LinkDown, LinkDown2, LinkUp, LinkUp2, LastOk, MOutOk,
         Route1Ok, Route2Ok, Work1Ok, Work2Ok, Up1Ok, Up2Ok, Front;
  }

  lemma OtherBound(s: State)
    requires Inv(s)
    ensures MuxDone(s.r.mux) <= JOB_BIG + 32
    ensures s.t.route.RFwd? ==> s.t.route.sent <= JOB_BIG + 32
    ensures s.v.pc.VOut? ==> s.v.pc.sent <= JOB_BIG + 32
  {
    hide G4, LedgerInv, HoldBuf, BusyOk, LinkDown, LinkDown2, LinkIn, Front, LinkUp2, Route1Ok, Work1Ok;
  }

  lemma RankBound(s: State)
    requires Inv(s)
    ensures Rank(s) >= 0
  {
    hide G4, LedgerInv, RootInv, TramInv;
    HostBound(s);
    OtherBound(s);
  }

  /** Any step of the network either ends a stage or moves a byte. */
  predicate Better(s: State, t: State) {
    Stages(t.l, t.r.mux) < Stages(s.l, s.r.mux)
    || (Stages(t.l, t.r.mux) == Stages(s.l, s.r.mux) && Progress(t) > Progress(s))
  }

  lemma HostReads(s: State, a: Action)
    requires Inv(s) && Enabled(s, a) && (a.HostPick? || a.HostHdr? || a.HostAlloc? || a.HostDrain?)
    ensures Better(s, Step(s, a))
  {
    hide TramInv, G4, Front, HoldBuf, GoBuf, Work0Ok, Out0Ok, BusyOk, FreeOk, LedgerInv;
  }

  lemma HostTakes(s: State, a: Action)
    requires Inv(s) && Enabled(s, a) && (a.HostTake?)
    ensures Better(s, Step(s, a))
  {
    hide TramInv, G4, PhaseOk, LinkIn, HoldBuf, GoBuf, Work0Ok, Out0Ok, BusyOk, FreeOk, LedgerInv;
  }

  lemma HostPays(s: State, a: Action)
    requires Inv(s) && Enabled(s, a) && (a.HostPay?)
    ensures Better(s, Step(s, a))
  {
    hide TramInv, G4, HoldBuf, GoBuf, Work0Ok, Out0Ok, BusyOk, FreeOk, LedgerInv;
  }

  lemma HostSends(s: State, a: Action)
    requires Inv(s) && Enabled(s, a) && (a.HostGo? || a.HostFwd?)
    ensures Better(s, Step(s, a))
  {
    hide G4, PhaseOk, HdrOk, LinkIn, Front, HoldBuf, Work0Ok, Out0Ok, BusyOk, FreeOk, LinkDown, Route1Ok, Work1Ok,
         Up1Ok, Route2Ok, LinkDown2, Work2Ok, LinkUp2, Up2Ok, LinkUp, MOutOk, LastOk, LedgerInv;
  }

  lemma Node0Works(s: State, a: Action)
    requires Inv(s) && Enabled(s, a) && (a.Work0? || a.Take0? || a.Out0? || a.Release? || a.FreeMsg?)
    ensures Better(s, Step(s, a))
  {
    hide TramInv, G4, PhaseOk, HdrOk, LinkIn, Front, HoldBuf, GoBuf, BusyOk, FreeOk, LedgerInv;
  }

  lemma MuxMoves(s: State, a: Action)
    requires Inv(s) && Enabled(s, a) && (a.MuxPick? || a.MuxByte? || a.MuxOut?)
    ensures Better(s, Step(s, a))
  {
    hide RootInv, G4, FwdOk, DownOk, LinkDown, Route1Ok, Work1Ok, Route2Ok, LinkDown2, Work2Ok, LinkUp2, LedgerInv;
    if a.MuxByte? {
      MuxByteMoves(s);
    }
  }

  lemma MuxByteMoves(s: State)
    requires Inv(s) && Enabled(s, MuxByte)
    ensures Better(s, StepMuxByte(s))
  {
    hide RootInv, G4, FwdOk, DownOk, LinkDown, Route1Ok, Work1Ok, Route2Ok, LinkDown2, Work2Ok, LinkUp2, LedgerInv;
    MuxByteTrams(s);
  }

  lemma Node1Works(s: State, a: Action)
    requires Inv(s) && Enabled(s, a) && (a.RouteGo? || a.Work1? || a.Take1?)
    ensures Better(s, Step(s, a))
  {
    hide RootInv, G4, FwdOk, DownOk, LinkDown, Up1Ok, Route2Ok, LinkDown2, Work2Ok, LinkUp2, Up2Ok, LinkUp, MOutOk,
         LastOk, LedgerInv;
  }

  lemma Node2Works(s: State, a: Action)
    requires Inv(s) && Enabled(s, a) && (a.RouteFwd? || a.Work2? || a.Mux1Pick? || a.Mux1Byte?)
    ensures Better(s, Step(s, a))
  {
    hide RootInv, G4, FwdOk, DownOk, LinkDown, Route1Ok, Work1Ok, Up1Ok, Up2Ok, LinkUp, MOutOk, LastOk, LedgerInv;
    if a.Mux1Byte? {
      Mux1ByteTrams(s);
    }
  }

  lemma StepProgress(s: State, a: Action)
    requires Inv(s) && Enabled(s, a) && Internal(a)
    ensures Better(s, Step(s, a))
  {
    hide RootInv, TramInv, LedgerInv, Better, Step, Enabled;
    if a.HostPick? || a.HostHdr? || a.HostAlloc? || a.HostDrain? {
      HostReads(s, a);
    } else if a.HostTake? {
      HostTakes(s, a);
    } else if a.HostPay? {
      HostPays(s, a);
    } else if a.HostGo? || a.HostFwd? {
      HostSends(s, a);
    } else if a.Work0? || a.Take0? || a.Out0? || a.Release? || a.FreeMsg? {
      Node0Works(s, a);
    } else if a.MuxPick? || a.MuxByte? || a.MuxOut? {
      MuxMoves(s, a);
    } else if a.RouteGo? || a.Work1? || a.Take1? {
      Node1Works(s, a);
    } else {
      Node2Works(s, a);
    }
  }

  lemma ProgressBound(s: State)
    requires Inv(s)
    ensures Progress(s) < LIMIT
  {
    hide G4, LedgerInv, RootInv, TramInv, HostDone, MuxDone;
    HostBound(s);
    OtherBound(s);
  }

  lemma RankLess(s: State, t: State)
    requires Better(s, t) && Progress(s) < LIMIT && Progress(t) < LIMIT
    ensures Rank(t) < Rank(s)
  {
    hide Stages, Progress;
  }

  lemma StepRank(s: State, a: Action)
    requires Inv(s) && Enabled(s, a) && Internal(a)
    ensures Inv(Step(s, a)) && 0 <= Rank(Step(s, a)) < Rank(s)
  {
    hide RootInv, TramInv, LedgerInv, Step, Enabled, Rank, Stages, Progress, Better;
    StepInv(s, a);
    StepProgress(s, a);
    ProgressBound(s);
    ProgressBound(Step(s, a));
    RankLess(s, Step(s, a));
    RankBound(Step(s, a));
  }

  /** However the processes are scheduled, the network cannot run on for ever without a new request. */
  lemma {:induction false} Bounded(s: State, acts: seq<Action>, t: State)
    requires Inv(s) && Reaches(s, acts, t) && forall i :: 0 <= i < |acts| ==> Internal(acts[i])
    ensures |acts| <= Rank(s) - Rank(t) && 0 <= Rank(t)
    decreases |acts|
  {
    hide RootInv, TramInv, LedgerInv, Rank;
    if acts == [] {
      RankBound(s);
    } else {
      StepRank(s, acts[0]);
      Bounded(Step(s, acts[0]), acts[1..], t);
    }
  }

  /** Every request is answered: from any reachable state, in every schedule that runs until nothing can move, within
      Rank(s) steps every request ever sent has its one answer and the daemon has read all of them. */
  lemma EveryJobIsAnswered(s0: State, past: seq<Action>, s: State, acts: seq<Action>, t: State)
    requires Init(s0) && Reaches(s0, past, s) && Reaches(s, acts, t)
    requires forall i :: 0 <= i < |acts| ==> Internal(acts[i])
    requires forall a :: Internal(a) ==> !Enabled(t, a)
    ensures |acts| <= Rank(s)
    ensures t.l.p0.Free? && t.l.p1.Free? && t.l.p2.Free? && !t.r.mux.MFree? && !t.r.mux.MRelease?
    ensures multiset(t.l.asked) == Reqs(t.l.answers) && t.d.recv == Flat(t.l.answers)
  {
    hide RootInv, TramInv, LedgerInv, Rank, Enabled, Init, Flat, Reqs;
    InitInv(s0);
    RunInv(s0, past, s);
    RunInv(s, acts, t);
    Bounded(s, acts, t);
    Settled(t);
  }

  /** A network that can do nothing by itself has answered everything. */
  lemma Settled(t: State)
    requires Inv(t) && forall a :: Internal(a) ==> !Enabled(t, a)
    ensures t.l.p0.Free? && t.l.p1.Free? && t.l.p2.Free? && !t.r.mux.MFree? && !t.r.mux.MRelease?
    ensures multiset(t.l.asked) == Reqs(t.l.answers) && t.d.recv == Flat(t.l.answers)
  {
    hide RootInv, TramInv, Enabled, Flat, Reqs, Partial;
    if Pending(t) {
      var a := Moves(t);
    }
    NothingPartial(t);
  }

  lemma NothingPartial(t: State)
    requires Inv(t) && t.l.p0.Free? && t.l.p1.Free? && t.l.p2.Free?
    ensures Partial(t.r.mux, t.r.rep0, t.r.repm) == []
  {
    hide G4, LinkIn, Front, HoldBuf, LinkDown, LinkDown2, LinkUp, LinkUp2, LedgerInv;
  }
}
