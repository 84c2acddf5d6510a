/** What every reachable state of the transputer network looks like, and that every step keeps it so.
    Each clause takes only the fields it speaks of, so a step that leaves those alone leaves the clause alone. */
module DispatcherInv {
  import opened Wire
  import opened Dispatcher

  // ---- the invariant ---------------------------------------------------------------------------

  /** Host is in the middle of a request that the daemon is still writing. */
  predicate Mid(p: HostPC, h: seq<byte>) {
    p.HHdr? || p.HPay? || p.HDrain? || ((p.HWait? || p.HAlloc?) && Len(h) > 0)
  }

  /** How many bytes of the daemon's request host has taken. */
  function HostPos(p: HostPC): nat {
    match p
    case HHdr(got) => got
    case HPay(got) => JOB_HDR + got
    case HDrain(got) => JOB_HDR + got
    case _ => JOB_HDR
  }

  predicate HdrOk(p: HostPC, h: seq<byte>) {
    && (p.HHdr? ==> p.got < JOB_HDR && |h| == p.got)
    && (p.HWait? || p.HAlloc? || p.HPay? || p.HDrain? ==> |h| == JOB_HDR && 0 <= h[3] < NODES)
    && (p.HAlloc? || p.HDrain? ==> h[3] == 0)
  }

  predicate InNet(p: Phase) { !p.Free? && !p.Asked? }

  predicate PhaseOk(p: Phase, k: int) {
    && (!p.Free? ==> ValidReq(p.r) && Node(p.r) == k)
    && (p.Made? || p.Up? || p.Last? ==> IsReply(p.rep, p.r.hdr, k, Cap(k)))
    && (k == 0 ==> !p.Down? && !p.Routed? && !p.Up?)
  }

  /** The daemon's link: host has exactly the bytes the daemon has written. */
  predicate LinkIn(link: Sending, cur: Req, host: HostPC, h: seq<byte>) {
    && (link.Writing? ==> ValidReq(cur) && link.sent < |Frame(cur)|)
    && (if Mid(host, h) then
          && link == Writing(HostPos(host))
          && (if host.HHdr? then host.got < JOB_HDR && h == cur.hdr[..host.got] else h == cur.hdr)
        else link.Quiet? || link.sent == 0)
  }

  /** The request being written or read is the one its node's phase names. */
  predicate Front(link: Sending, cur: Req, host: HostPC, h: seq<byte>, p: Phase, k: int) {
    && (link.Writing? && ValidReq(cur) && Node(cur) == k ==>
          p == if Mid(host, h) && !host.HHdr? && !host.HWait? then Held(cur) else Asked(cur))
    && (host.HWait? && |h| == JOB_HDR && h[3] == k ==>
          p.Asked? && p.r.hdr == h && (Len(h) == 0 && link.Writing? && ValidReq(cur) ==> Node(cur) != k))
    && (host.HAlloc? && k == 0 ==> p.Held? && p.r.hdr == h)
    && (p.Asked? ==> (p.r == cur && link.Writing?) || (host.HWait? && h == p.r.hdr && Len(h) == 0))
    && (p.Held? ==> h == p.r.hdr && (host.HGo? || host.HAlloc? || (p.r == cur && (host.HPay? || host.HDrain?))))
    && (p.Held? && k != 0 ==> host.HPay?)
  }

  /** Host's buffers while it reads a payload. */
  predicate HoldBuf(host: HostPC, h: seq<byte>, cur: Req, hdr0: seq<byte>, in0: seq<byte>, hdrf: seq<byte>, fwd: seq<byte>) {
    && (host.HAlloc? || host.HDrain? ==> hdr0 == h)
    && (host.HPay? ==>
          |h| == JOB_HDR && host.got <= |cur.payload|
          && if h[3] == 0 then hdr0 == h && in0 == cur.payload[..host.got]
             else hdrf == h && fwd == cur.payload[..host.got])
  }

  /** ... and while it waits to hand node 0 its job. */
  predicate GoBuf(host: HostPC, h: seq<byte>, hdr0: seq<byte>, in0: seq<byte>, p0: Phase) {
    host.HGo? ==>
      p0.Held? && h == p0.r.hdr && hdr0 == h
      && (host.n == -1 || (host.n == |p0.r.payload| && in0 == p0.r.payload))
  }

  predicate Work0Ok(work0: Worker, hdr0: seq<byte>, in0: seq<byte>, rep0: seq<byte>, p: Phase) {
    && (work0.Run? <==> p.Running?)
    && (p.Running? ==> hdr0 == p.r.hdr && (work0.n == -1 || (work0.n == |p.r.payload| && in0 == p.r.payload)))
    && (work0.Done? <==> p.Made?)
    && (p.Made? ==> rep0 == p.rep)
  }

  predicate Out0Ok(mux: MuxPC, rep0: seq<byte>, p: Phase) {
    && (mux.MOut0? <==> p.Last?)
    && (p.Last? ==> rep0 == p.rep && mux.sent < |p.rep|)
    && (mux.MRelease? ==> !InNet(p))
  }

  /** A job on its way down from host. */
  predicate FwdOk(host: HostPC, hdrf: seq<byte>, fwd: seq<byte>) {
    host.HFwd? ==> |hdrf| == JOB_HDR && (hdrf[3] == 1 || hdrf[3] == 2) && host.sent < JOB_HDR + |fwd|
  }

  predicate DownOk(host: HostPC, hdrf: seq<byte>, fwd: seq<byte>, p: Phase, k: int) {
    && (p.Down? <==> host.HFwd? && |hdrf| == JOB_HDR && hdrf[3] == k)
    && (p.Down? ==> p.r == Req(hdrf, fwd))
  }

  predicate RouteIn(p: RoutePC) { p.RHdr? || p.RPay1? || p.RPayF? }

  function RoutePos(p: RoutePC): nat {
    match p
    case RHdr(got) => got
    case RPay1(got) => JOB_HDR + got
    case RPayF(got) => JOB_HDR + got
    case _ => 0
  }

  /** The link down to TRAM 1: route has exactly the bytes host has sent. */
  predicate LinkDown(host: HostPC, hdrf: seq<byte>, fwd: seq<byte>, route: RoutePC, h: seq<byte>,
                     hdr1: seq<byte>, in1: seq<byte>, hdr2: seq<byte>, fwd2: seq<byte>) {
    && (if RouteIn(route) then RoutePos(route) == (if host.HFwd? then host.sent else 0)
        else host.HFwd? ==> host.sent == 0)
    && (route.RHdr? ==> route.got < JOB_HDR && |h| == route.got
                        && (host.HFwd? && route.got <= |hdrf| ==> h == hdrf[..route.got]))
    && (route.RPay1? ==> |hdrf| == JOB_HDR && h == hdrf && hdr1 == hdrf && hdrf[3] == 1
                         && route.got < |fwd| && in1 == fwd[..route.got])
    && (route.RPayF? ==> |hdrf| == JOB_HDR && h == hdrf && hdr2 == hdrf && hdrf[3] == 2
                         && route.got < |fwd| && fwd2 == fwd[..route.got])
  }

  predicate Route1Ok(route: RoutePC, hdr1: seq<byte>, in1: seq<byte>, p: Phase) {
    && (route.RGo? <==> p.Routed?)
    && (p.Routed? ==> hdr1 == p.r.hdr && in1 == p.r.payload && route.n == |p.r.payload|)
  }

  predicate Work1Ok(work1: Worker, hdr1: seq<byte>, in1: seq<byte>, rep1: seq<byte>, p: Phase) {
    && (work1.Run? <==> p.Running?)
    && (p.Running? ==> hdr1 == p.r.hdr && in1 == p.r.payload && work1.n == |p.r.payload|)
    && (work1.Done? <==> p.Made?)
    && (p.Made? ==> rep1 == p.rep)
  }

  predicate Up1Ok(mux1: Mux1PC, rep1: seq<byte>, p: Phase) {
    && (mux1.XOut1? <==> p.Up?)
    && (p.Up? ==> rep1 == p.rep && mux1.sent < |p.rep|)
  }

  predicate Route2Ok(route: RoutePC, hdr2: seq<byte>, fwd2: seq<byte>, p: Phase) {
    && (route.RFwd? <==> p.Routed?)
    && (p.Routed? ==> hdr2 == p.r.hdr && fwd2 == p.r.payload && route.sent < JOB_HDR + |fwd2|)
  }

  /** The link down to TRAM 2: worker 2 has exactly the bytes route has sent. */
  predicate LinkDown2(route: RoutePC, hdr2: seq<byte>, fwd2: seq<byte>, pc: Worker2PC, hdr: seq<byte>, inp: seq<byte>) {
    && (route.RFwd? ==> pc.VHdr? || pc.VPay?)
    && (pc.VHdr? ==> pc.got == (if route.RFwd? then route.sent else 0) && pc.got < JOB_HDR && |hdr| == pc.got
                     && (route.RFwd? && pc.got <= |hdr2| ==> hdr == hdr2[..pc.got]))
    && (pc.VPay? ==> route == RFwd(JOB_HDR + pc.got) && hdr == hdr2 && pc.got < |fwd2| && inp == fwd2[..pc.got])
  }

  predicate Work2Ok(pc: Worker2PC, hdr: seq<byte>, inp: seq<byte>, rep: seq<byte>, p: Phase) {
    && (pc.VRun? <==> p.Running?)
    && (p.Running? ==> hdr == p.r.hdr && inp == p.r.payload)
    && (pc.VOut? <==> p.Made?)
    && (p.Made? ==> rep == p.rep && pc.sent < |p.rep|)
  }

  predicate Mux1In(x: Mux1PC) { x.XHdr? || x.XBody? }

  function Mux1Pos(x: Mux1PC): nat {
    match x
    case XHdr(got) => got
    case XBody(got) => LREP_HDR + got
    case _ => 0
  }

  /** The link up from TRAM 2: mux1 has exactly the bytes worker 2 has sent. */
  predicate LinkUp2(mux1: Mux1PC, repm: seq<byte>, pc: Worker2PC, rep: seq<byte>) {
    && (Mux1In(mux1) ==> pc == VOut(Mux1Pos(mux1)) && Mux1Pos(mux1) <= |rep| && repm == rep[..Mux1Pos(mux1)])
    && (mux1.XHdr? ==> mux1.got < LREP_HDR)
    && (pc.VOut? && !Mux1In(mux1) ==> pc.sent == 0)
  }

  predicate Up2Ok(mux1: Mux1PC, repm: seq<byte>, p: Phase) {
    && (mux1.XOut? <==> p.Up?)
    && (p.Up? ==> repm == p.rep && mux1.sent < |p.rep|)
  }

  predicate MuxIn(m: MuxPC) { m.MHdr? || m.MBody? }

  function MuxPos(m: MuxPC): nat {
    match m
    case MHdr(got) => got
    case MBody(got) => LREP_HDR + got
    case _ => 0
  }

  /** The link up from TRAM 1: mux has exactly the bytes mux1 has sent. */
  predicate LinkUp(mux: MuxPC, repm: seq<byte>, mux1: Mux1PC, rep1: seq<byte>, repm1: seq<byte>) {
    var up := if mux1.XOut1? then rep1 else repm1;
    && (MuxIn(mux) ==> (mux1.XOut1? || mux1.XOut?) && UpSent(mux1) == MuxPos(mux)
                       && MuxPos(mux) <= |up| && repm == up[..MuxPos(mux)])
    && (mux.MHdr? ==> mux.got < LREP_HDR)
    && (!MuxIn(mux) ==> UpSent(mux1) == 0)
  }

  predicate MOutOk(mux: MuxPC, repm: seq<byte>) {
    mux.MOut? ==> |repm| >= LREP_HDR && (repm[R_NODE] == 1 || repm[R_NODE] == 2) && mux.sent < |repm|
  }

  predicate LastOk(mux: MuxPC, repm: seq<byte>, p: Phase, k: int) {
    && (p.Last? <==> mux.MOut? && |repm| >= LREP_HDR && repm[R_NODE] == k)
    && (p.Last? ==> p.rep == repm)
  }

  predicate BusyOk(busy: set<int>, mux: MuxPC, p: Phase, k: int) {
    && (k in busy <==> InNet(p) || mux == MFree(k) || (k == 0 && mux.MRelease?))
    && (mux == MFree(k) ==> !InNet(p))
  }

  predicate FreeOk(mux: MuxPC) { mux.MFree? ==> 0 <= mux.node < NODES }

  function Flat(answers: seq<Answer>): seq<byte> {
    if answers == [] then [] else Flat(answers[..|answers| - 1]) + answers[|answers| - 1].rep
  }

  /** The part of the reply now going out that the daemon already has. */
  function Partial(mux: MuxPC, rep0: seq<byte>, repm: seq<byte>): seq<byte> {
    if mux.MOut0? && mux.sent <= |rep0| then rep0[..mux.sent]
    else if mux.MOut? && mux.sent <= |repm| then repm[..mux.sent]
    else []
  }

  /** What the daemon has read: every answer in order, then the part of the one going out. */
  predicate Stream(recv: seq<byte>, answers: seq<Answer>, part: seq<byte>) { recv == Flat(answers) + part }

  function Reqs(answers: seq<Answer>): multiset<Req> {
    if answers == [] then multiset{} else Reqs(answers[..|answers| - 1]) + multiset{answers[|answers| - 1].r}
  }

  function Open(p: Phase): multiset<Req> { if p.Free? then multiset{} else multiset{p.r} }

  /** Every request asked for is open on one node or answered, once. */
  predicate Books(asked: seq<Req>, answers: seq<Answer>, o0: multiset<Req>, o1: multiset<Req>, o2: multiset<Req>) {
    multiset(asked) == Reqs(answers) + o0 + o1 + o2
  }

  predicate GoodAnswer(a: Answer) {
    ValidReq(a.r) && IsReply(a.rep, a.r.hdr, Node(a.r), Cap(Node(a.r)))
  }

  /** Every answer is a reply to its request, with its id and made by its node. */
  predicate AllGood(answers: seq<Answer>) { forall i :: 0 <= i < |answers| ==> GoodAnswer(answers[i]) }

  predicate RootInv(s: State) {
    && PhaseOk(s.l.p0, 0) && PhaseOk(s.l.p1, 1) && PhaseOk(s.l.p2, 2)
    && HdrOk(s.r.host, s.r.h)
    && LinkIn(s.d.link, s.d.cur, s.r.host, s.r.h)
    && Front(s.d.link, s.d.cur, s.r.host, s.r.h, s.l.p0, 0)
    && Front(s.d.link, s.d.cur, s.r.host, s.r.h, s.l.p1, 1)
    && Front(s.d.link, s.d.cur, s.r.host, s.r.h, s.l.p2, 2)
    && HoldBuf(s.r.host, s.r.h, s.d.cur, s.r.hdr0, s.r.in0, s.r.hdrf, s.r.fwd)
    && GoBuf(s.r.host, s.r.h, s.r.hdr0, s.r.in0, s.l.p0)
    && Work0Ok(s.r.work0, s.r.hdr0, s.r.in0, s.r.rep0, s.l.p0)
    && Out0Ok(s.r.mux, s.r.rep0, s.l.p0)
    && BusyOk(s.r.busy, s.r.mux, s.l.p0, 0) && BusyOk(s.r.busy, s.r.mux, s.l.p1, 1) && BusyOk(s.r.busy, s.r.mux, s.l.p2, 2)
    && FreeOk(s.r.mux)
  }

  predicate TramInv(s: State) {
    && FwdOk(s.r.host, s.r.hdrf, s.r.fwd)
    && DownOk(s.r.host, s.r.hdrf, s.r.fwd, s.l.p1, 1) && DownOk(s.r.host, s.r.hdrf, s.r.fwd, s.l.p2, 2)
    && LinkDown(s.r.host, s.r.hdrf, s.r.fwd, s.t.route, s.t.h, s.t.hdr1, s.t.in1, s.t.hdrf, s.t.fwd)
    && Route1Ok(s.t.route, s.t.hdr1, s.t.in1, s.l.p1)
    && Work1Ok(s.t.work1, s.t.hdr1, s.t.in1, s.t.rep1, s.l.p1)
    && Up1Ok(s.t.mux1, s.t.rep1, s.l.p1)
    && Route2Ok(s.t.route, s.t.hdrf, s.t.fwd, s.l.p2)
    && LinkDown2(s.t.route, s.t.hdrf, s.t.fwd, s.v.pc, s.v.hdr, s.v.inp)
    && Work2Ok(s.v.pc, s.v.hdr, s.v.inp, s.v.rep, s.l.p2)
    && LinkUp2(s.t.mux1, s.t.repm, s.v.pc, s.v.rep)
    && Up2Ok(s.t.mux1, s.t.repm, s.l.p2)
    && LinkUp(s.r.mux, s.r.repm, s.t.mux1, s.t.rep1, s.t.repm)
    && MOutOk(s.r.mux, s.r.repm)
    && LastOk(s.r.mux, s.r.repm, s.l.p1, 1) && LastOk(s.r.mux, s.r.repm, s.l.p2, 2)
  }

  predicate LedgerInv(s: State) {
    && Stream(s.d.recv, s.l.answers, Partial(s.r.mux, s.r.rep0, s.r.repm))
    && Books(s.l.asked, s.l.answers, Open(s.l.p0), Open(s.l.p1), Open(s.l.p2))
    && AllGood(s.l.answers)
  }

  predicate Inv(s: State) { RootInv(s) && TramInv(s) && LedgerInv(s) }

  lemma InitInv(s: State)
    requires Init(s)
    ensures Inv(s)
  {
  }

  // ---- every step keeps it ---------------------------------------------------------------------

  lemma Grow(x: seq<byte>, i: nat)
    requires i < |x|
    ensures x[..i] + [x[i]] == x[..i + 1]
    ensures i + 1 == |x| ==> x[..i + 1] == x
  {
  }

  lemma OutLenPrefix(rep: seq<byte>, pos: nat)
    requires LREP_HDR <= pos <= |rep|
    ensures OutLen(rep[..pos]) == OutLen(rep)
  {
  }

  lemma AskFront(link: Sending, cur: Req, host: HostPC, h: seq<byte>, p: Phase, k: int, r: Req)
    requires LinkIn(link, cur, host, h) && Front(link, cur, host, h, p, k) && link.Quiet? && ValidReq(r)
    requires Node(r) == k ==> p.Free?
    ensures Front(Writing(0), r, host, h, if Node(r) == k then Asked(r) else p, k)
  {
    hide G4, Frame;
  }

  lemma AskRoot(s: State, r: Req)
    requires Inv(s) && Enabled(s, Ask(r))
    ensures RootInv(StepAsk(s, r))
  {
    hide TramInv, LedgerInv, G4, FreeOk, Flat, Reqs, Front;
    AskFront(s.d.link, s.d.cur, s.r.host, s.r.h, s.l.p0, 0, r);
    AskFront(s.d.link, s.d.cur, s.r.host, s.r.h, s.l.p1, 1, r);
    AskFront(s.d.link, s.d.cur, s.r.host, s.r.h, s.l.p2, 2, r);
  }

  lemma AskTrams(s: State, r: Req)
    requires Inv(s) && Enabled(s, Ask(r))
    ensures TramInv(StepAsk(s, r))
  {
    hide RootInv, LedgerInv, G4, FwdOk, LinkDown, LinkDown2, LinkUp2, LinkUp, MOutOk, Flat, Reqs;
  }

  lemma AskLedger(s: State, r: Req)
    requires Inv(s) && Enabled(s, Ask(r))
    ensures LedgerInv(StepAsk(s, r))
  {
    hide RootInv, TramInv, G4, Stream, AllGood, Flat, Reqs;
  }

  lemma HostHdrRoot(s: State)
    requires Inv(s) && Enabled(s, HostHdr)
    ensures RootInv(StepHostHdr(s))
  {
    hide TramInv, LedgerInv, G4, PhaseOk, Work0Ok, Out0Ok, BusyOk, FreeOk, Flat, Reqs;
    Grow(s.d.cur.hdr, s.r.host.got);
  }

  lemma HostHdrTrams(s: State)
    requires Inv(s) && Enabled(s, HostHdr)
    ensures TramInv(StepHostHdr(s))
  {
    hide RootInv, LedgerInv, G4, Route1Ok, Work1Ok, Up1Ok, Route2Ok, LinkDown2, Work2Ok, LinkUp2, Up2Ok, LinkUp,
         MOutOk, LastOk, Flat, Reqs;
  }

  lemma HostHdrLedger(s: State)
    requires Inv(s) && Enabled(s, HostHdr)
    ensures LedgerInv(StepHostHdr(s))
  {
    hide RootInv, TramInv, G4, Stream, Books, AllGood, Flat, Reqs;
  }

  lemma HostTakeRoot0(s: State)
    requires Inv(s) && Enabled(s, HostTake) && s.r.h[3] == 0
    ensures RootInv(StepHostTake(s))
  {
    hide TramInv, LedgerInv, G4, FreeOk, Flat, Reqs;
  }

  lemma HostTakeRoot1(s: State)
    requires Inv(s) && Enabled(s, HostTake) && s.r.h[3] == 1
    ensures RootInv(StepHostTake(s))
  {
    hide TramInv, LedgerInv, G4, FreeOk, Flat, Reqs;
  }

  lemma HostTakeRoot2(s: State)
    requires Inv(s) && Enabled(s, HostTake) && s.r.h[3] == 2
    ensures RootInv(StepHostTake(s))
  {
    hide TramInv, LedgerInv, G4, FreeOk, Flat, Reqs;
  }

  lemma HostTakeRoot(s: State)
    requires Inv(s) && Enabled(s, HostTake)
    ensures RootInv(StepHostTake(s))
  {
    hide TramInv, LedgerInv, G4, PhaseOk, LinkIn, Front, HoldBuf, GoBuf, Work0Ok, Out0Ok, BusyOk, FreeOk, Flat, Reqs;
    if s.r.h[3] == 0 {
      HostTakeRoot0(s);
    } else if s.r.h[3] == 1 {
      HostTakeRoot1(s);
    } else {
      HostTakeRoot2(s);
    }
  }

  lemma HostTakeTrams0(s: State)
    requires Inv(s) && Enabled(s, HostTake) && s.r.h[3] == 0
    ensures TramInv(StepHostTake(s))
  {
    hide RootInv, LedgerInv, G4, Route1Ok, Work1Ok, Up1Ok, Route2Ok, LinkDown2, Work2Ok, LinkUp2, Up2Ok, LinkUp,
         MOutOk, LastOk, Flat, Reqs;
  }

  lemma HostTakeTrams1(s: State)
    requires Inv(s) && Enabled(s, HostTake) && s.r.h[3] == 1
    ensures TramInv(StepHostTake(s))
  {
    hide LedgerInv, G4, HoldBuf, GoBuf, Work0Ok, Out0Ok, BusyOk, FreeOk, LinkDown2, LinkUp2, LinkUp, MOutOk, Flat,
         Reqs;
  }

  lemma HostTakeTrams2(s: State)
    requires Inv(s) && Enabled(s, HostTake) && s.r.h[3] == 2
    ensures TramInv(StepHostTake(s))
  {
    hide LedgerInv, G4, HoldBuf, GoBuf, Work0Ok, Out0Ok, BusyOk, FreeOk, LinkDown2, LinkUp2, LinkUp, MOutOk, Flat,
         Reqs;
  }

  lemma HostTakeTrams(s: State)
    requires Inv(s) && Enabled(s, HostTake)
    ensures TramInv(StepHostTake(s))
  {
    hide LedgerInv, G4, PhaseOk, LinkIn, Front, HoldBuf, GoBuf, Work0Ok, Out0Ok, BusyOk, FreeOk, FwdOk, DownOk,
         LinkDown, Route1Ok, Work1Ok, Up1Ok, Route2Ok, LinkDown2, Work2Ok, LinkUp2, Up2Ok, LinkUp, MOutOk, LastOk,
         Flat, Reqs;
    if s.r.h[3] == 0 {
      HostTakeTrams0(s);
    } else if s.r.h[3] == 1 {
      HostTakeTrams1(s);
    } else {
      HostTakeTrams2(s);
    }
  }

  lemma HostTakeLedger(s: State)
    requires Inv(s) && Enabled(s, HostTake)
    ensures LedgerInv(StepHostTake(s))
  {
    hide TramInv, G4, PhaseOk, HdrOk, HoldBuf, GoBuf, Work0Ok, Out0Ok, BusyOk, FreeOk, Stream, Books, AllGood, Flat,
         Reqs;
  }

  lemma HostAllocRoot(s: State, ok: bool)
    requires Inv(s) && Enabled(s, HostAlloc(ok))
    ensures RootInv(StepHostAlloc(s, ok))
  {
    hide TramInv, LedgerInv, G4, Out0Ok, BusyOk, FreeOk, Flat, Reqs;
  }

  lemma HostAllocTrams(s: State, ok: bool)
    requires Inv(s) && Enabled(s, HostAlloc(ok))
    ensures TramInv(StepHostAlloc(s, ok))
  {
    hide RootInv, LedgerInv, G4, Route1Ok, Work1Ok, Up1Ok, Route2Ok, LinkDown2, Work2Ok, LinkUp2, Up2Ok, LinkUp,
         MOutOk, LastOk, Flat, Reqs;
  }

  lemma HostAllocLedger(s: State, ok: bool)
    requires Inv(s) && Enabled(s, HostAlloc(ok))
    ensures LedgerInv(StepHostAlloc(s, ok))
  {
    hide RootInv, TramInv, G4, Stream, Books, AllGood, Flat, Reqs;
  }

  lemma HostPayRoot0(s: State)
    requires Inv(s) && Enabled(s, HostPay) && s.r.h[3] == 0
    ensures RootInv(StepHostPay(s))
  {
    hide TramInv, LedgerInv, G4, FreeOk, Flat, Reqs;
    Grow(s.d.cur.payload, s.r.host.got);
  }

  lemma HostPayRoot1(s: State)
    requires Inv(s) && Enabled(s, HostPay) && s.r.h[3] == 1
    ensures RootInv(StepHostPay(s))
  {
    hide TramInv, LedgerInv, G4, FreeOk, Flat, Reqs;
    Grow(s.d.cur.payload, s.r.host.got);
  }

  lemma HostPayRoot2(s: State)
    requires Inv(s) && Enabled(s, HostPay) && s.r.h[3] == 2
    ensures RootInv(StepHostPay(s))
  {
    hide TramInv, LedgerInv, G4, FreeOk, Flat, Reqs;
    Grow(s.d.cur.payload, s.r.host.got);
  }

  lemma HostPayRoot(s: State)
    requires Inv(s) && Enabled(s, HostPay)
    ensures RootInv(StepHostPay(s))
  {
    hide TramInv, LedgerInv, G4, PhaseOk, LinkIn, Front, HoldBuf, GoBuf, Work0Ok, Out0Ok, BusyOk, FreeOk, Flat, Reqs;
    if s.r.h[3] == 0 {
      HostPayRoot0(s);
    } else if s.r.h[3] == 1 {
      HostPayRoot1(s);
    } else {
      HostPayRoot2(s);
    }
  }

  lemma HostPayTrams0(s: State)
    requires Inv(s) && Enabled(s, HostPay) && s.r.h[3] == 0
    ensures TramInv(StepHostPay(s))
  {
    hide LedgerInv, G4, PhaseOk, HdrOk, Front, HoldBuf, GoBuf, Work0Ok, Out0Ok, BusyOk, FreeOk, Route1Ok, Work1Ok,
         Up1Ok, Route2Ok, LinkDown2, Work2Ok, LinkUp2, Up2Ok, LinkUp, MOutOk, LastOk, Flat, Reqs;
    Grow(s.d.cur.payload, s.r.host.got);
  }

  lemma HostPayTrams1(s: State)
    requires Inv(s) && Enabled(s, HostPay) && s.r.h[3] == 1
    ensures TramInv(StepHostPay(s))
  {
    hide LedgerInv, G4, GoBuf, Work0Ok, Out0Ok, BusyOk, FreeOk, LinkDown2, LinkUp2, LinkUp, MOutOk, Flat, Reqs;
    Grow(s.d.cur.payload, s.r.host.got);
  }

  lemma HostPayTrams2(s: State)
    requires Inv(s) && Enabled(s, HostPay) && s.r.h[3] == 2
    ensures TramInv(StepHostPay(s))
  {
    hide LedgerInv, G4, GoBuf, Work0Ok, Out0Ok, BusyOk, FreeOk, LinkDown2, LinkUp2, LinkUp, MOutOk, Flat, Reqs;
    Grow(s.d.cur.payload, s.r.host.got);
  }

  lemma HostPayTrams(s: State)
    requires Inv(s) && Enabled(s, HostPay)
    ensures TramInv(StepHostPay(s))
  {
    hide LedgerInv, G4, PhaseOk, LinkIn, Front, HoldBuf, GoBuf, Work0Ok, Out0Ok, BusyOk, FreeOk, FwdOk, DownOk,
         LinkDown, Route1Ok, Work1Ok, Up1Ok, Route2Ok, LinkDown2, Work2Ok, LinkUp2, Up2Ok, LinkUp, MOutOk, LastOk,
         Flat, Reqs;
    if s.r.h[3] == 0 {
      HostPayTrams0(s);
    } else if s.r.h[3] == 1 {
      HostPayTrams1(s);
    } else {
      HostPayTrams2(s);
    }
  }

  lemma HostPayLedger(s: State)
    requires Inv(s) && Enabled(s, HostPay)
    ensures LedgerInv(StepHostPay(s))
  {
    hide RootInv, TramInv, Stream, Books, AllGood, Partial, Frame, Len;
    var k := if |s.r.h| == JOB_HDR then s.r.h[3] else 0;
    if Ph(s.l, k).Held? {
      SameOpen(s.l, k);
    }
  }

  /** A job that moves on is still the same job. */
  lemma SameOpen(l: Ledger, k: int)
    requires Ph(l, k).Held?
    ensures var m := SetPh(l, k, Down(Ph(l, k).r));
      Open(m.p0) == Open(l.p0) && Open(m.p1) == Open(l.p1) && Open(m.p2) == Open(l.p2)
      && m.answers == l.answers && m.asked == l.asked
  {
  }

  lemma HostDrainRoot(s: State)
    requires Inv(s) && Enabled(s, HostDrain)
    ensures RootInv(StepHostDrain(s))
  {
    hide TramInv, LedgerInv, G4, Work0Ok, Out0Ok, BusyOk, FreeOk, Flat, Reqs;
  }

  lemma HostDrainTrams(s: State)
    requires Inv(s) && Enabled(s, HostDrain)
    ensures TramInv(StepHostDrain(s))
  {
    hide RootInv, LedgerInv, G4, Route1Ok, Work1Ok, Up1Ok, Route2Ok, LinkDown2, Work2Ok, LinkUp2, Up2Ok, LinkUp,
         MOutOk, LastOk, Flat, Reqs;
  }

  lemma HostDrainLedger(s: State)
    requires Inv(s) && Enabled(s, HostDrain)
    ensures LedgerInv(StepHostDrain(s))
  {
    hide RootInv, TramInv, G4, Stream, Books, AllGood, Flat, Reqs;
  }

  lemma HostGoRoot(s: State)
    requires Inv(s) && Enabled(s, HostGo)
    ensures RootInv(StepHostGo(s))
  {
    hide TramInv, LedgerInv, G4, FreeOk, Flat, Reqs;
  }

  lemma HostGoTrams(s: State)
    requires Inv(s) && Enabled(s, HostGo)
    ensures TramInv(StepHostGo(s))
  {
    hide RootInv, LedgerInv, G4, Route1Ok, Work1Ok, Up1Ok, Route2Ok, LinkDown2, Work2Ok, LinkUp2, Up2Ok, LinkUp,
         MOutOk, LastOk, Flat, Reqs;
  }

  lemma HostGoLedger(s: State)
    requires Inv(s) && Enabled(s, HostGo)
    ensures LedgerInv(StepHostGo(s))
  {
    hide TramInv, G4, PhaseOk, HdrOk, LinkIn, Front, HoldBuf, Work0Ok, Out0Ok, BusyOk, FreeOk, Stream, Books, AllGood,
         Flat, Reqs;
  }

  lemma HostFwdRoot1(s: State)
    requires Inv(s) && Enabled(s, HostFwd) && s.r.hdrf[3] == 1
    ensures RootInv(StepHostFwd(s))
  {
    hide LedgerInv, G4, Work0Ok, Out0Ok, FreeOk, LinkDown, Route1Ok, Work1Ok, Up1Ok, Route2Ok, LinkDown2, Work2Ok,
         LinkUp2, Up2Ok, LinkUp, MOutOk, LastOk, Flat, Reqs;
  }

  lemma HostFwdRoot2(s: State)
    requires Inv(s) && Enabled(s, HostFwd) && s.r.hdrf[3] == 2
    ensures RootInv(StepHostFwd(s))
  {
    hide LedgerInv, G4, Work0Ok, Out0Ok, FreeOk, LinkDown, Route1Ok, Work1Ok, Up1Ok, Route2Ok, LinkDown2, Work2Ok,
         LinkUp2, Up2Ok, LinkUp, MOutOk, LastOk, Flat, Reqs;
  }

  lemma HostFwdRoot(s: State)
    requires Inv(s) && Enabled(s, HostFwd)
    ensures RootInv(StepHostFwd(s))
  {
    hide LedgerInv, G4, PhaseOk, HdrOk, LinkIn, Front, HoldBuf, GoBuf, Work0Ok, Out0Ok, BusyOk, FreeOk, DownOk,
         LinkDown, Route1Ok, Work1Ok, Up1Ok, Route2Ok, LinkDown2, Work2Ok, LinkUp2, Up2Ok, LinkUp, MOutOk, LastOk,
         Flat, Reqs;
    if s.r.hdrf[3] == 1 {
      HostFwdRoot1(s);
    } else {
      HostFwdRoot2(s);
    }
  }

  lemma HostFwdTrams1(s: State)
    requires Inv(s) && Enabled(s, HostFwd) && s.r.hdrf[3] == 1
    ensures TramInv(StepHostFwd(s))
  {
    hide LedgerInv, G4, HdrOk, LinkIn, Front, HoldBuf, GoBuf, Work0Ok, Out0Ok, BusyOk, FreeOk, LinkUp2, LinkUp,
         MOutOk, Flat, Reqs;
    if s.t.route.RHdr? {
      Grow(s.r.hdrf, s.t.route.got);
    } else {
      Grow(s.r.fwd, s.t.route.got);
    }
  }

  lemma HostFwdTrams2(s: State)
    requires Inv(s) && Enabled(s, HostFwd) && s.r.hdrf[3] == 2
    ensures TramInv(StepHostFwd(s))
  {
    hide LedgerInv, G4, HdrOk, LinkIn, Front, HoldBuf, GoBuf, Work0Ok, Out0Ok, BusyOk, FreeOk, LinkUp2, LinkUp,
         MOutOk, Flat, Reqs;
    if s.t.route.RHdr? {
      Grow(s.r.hdrf, s.t.route.got);
    } else {
      Grow(s.r.fwd, s.t.route.got);
    }
  }

  lemma HostFwdTrams(s: State)
    requires Inv(s) && Enabled(s, HostFwd)
    ensures TramInv(StepHostFwd(s))
  {
    hide RootInv, LedgerInv, G4, DownOk, LinkDown, Route1Ok, Work1Ok, Up1Ok, Route2Ok, LinkDown2, Work2Ok, LinkUp2,
         Up2Ok, LinkUp, MOutOk, LastOk, Flat, Reqs;
    if s.r.hdrf[3] == 1 {
      HostFwdTrams1(s);
    } else {
      HostFwdTrams2(s);
    }
  }

  lemma HostFwdLedger(s: State)
    requires Inv(s) && Enabled(s, HostFwd)
    ensures LedgerInv(StepHostFwd(s))
  {
    hide RootInv, G4, LinkDown, Route1Ok, Work1Ok, Up1Ok, Route2Ok, LinkDown2, Work2Ok, LinkUp2, Up2Ok, LinkUp,
         MOutOk, LastOk, Stream, Books, AllGood, Flat, Reqs;
  }

  lemma Work0Root(s: State, rep: seq<byte>)
    requires Inv(s) && Enabled(s, Work0(rep))
    ensures RootInv(StepWork0(s, rep))
  {
    hide TramInv, LedgerInv, G4, HdrOk, FreeOk, Flat, Reqs;
  }

  lemma Work0Trams(s: State, rep: seq<byte>)
    requires Inv(s) && Enabled(s, Work0(rep))
    ensures TramInv(StepWork0(s, rep))
  {
    hide RootInv, LedgerInv, G4, FwdOk, DownOk, LinkDown, Route1Ok, Work1Ok, Up1Ok, Route2Ok, LinkDown2, Work2Ok,
         LinkUp2, Up2Ok, LinkUp, MOutOk, LastOk, Flat, Reqs;
  }

  lemma Work0Ledger(s: State, rep: seq<byte>)
    requires Inv(s) && Enabled(s, Work0(rep))
    ensures LedgerInv(StepWork0(s, rep))
  {
    hide TramInv, G4, PhaseOk, HdrOk, LinkIn, Front, HoldBuf, GoBuf, BusyOk, FreeOk, Stream, Books, AllGood, Flat,
         Reqs;
  }

  lemma Take0Root(s: State)
    requires Inv(s) && Enabled(s, Take0)
    ensures RootInv(StepTake0(s))
  {
    hide TramInv, LedgerInv, G4, HdrOk, LinkIn, HoldBuf, Flat, Reqs;
  }

  lemma Take0Trams(s: State)
    requires Inv(s) && Enabled(s, Take0)
    ensures TramInv(StepTake0(s))
  {
    hide RootInv, LedgerInv, G4, FwdOk, DownOk, LinkDown, Route1Ok, Work1Ok, Up1Ok, Route2Ok, LinkDown2, Work2Ok,
         LinkUp2, Up2Ok, Flat, Reqs;
  }

  lemma Take0Ledger(s: State)
    requires Inv(s) && Enabled(s, Take0)
    ensures LedgerInv(StepTake0(s))
  {
    hide TramInv, G4, PhaseOk, HdrOk, LinkIn, Front, HoldBuf, GoBuf, Out0Ok, BusyOk, FreeOk, Stream, Books, AllGood,
         Flat, Reqs;
  }

  lemma MuxByteRoot1(s: State)
    requires Inv(s) && Enabled(s, MuxByte) && s.t.mux1.XOut1?
    ensures RootInv(StepMuxByte(s))
  {
    hide LedgerInv, G4, HdrOk, LinkIn, HoldBuf, GoBuf, Work0Ok, FwdOk, DownOk, LinkDown, Route1Ok, Work1Ok, Route2Ok,
         LinkDown2, Work2Ok, LinkUp2, LinkUp, MOutOk, LastOk, Flat, Reqs;
  }

  lemma MuxByteRoot2(s: State)
    requires Inv(s) && Enabled(s, MuxByte) && s.t.mux1.XOut?
    ensures RootInv(StepMuxByte(s))
  {
    hide LedgerInv, G4, HdrOk, LinkIn, HoldBuf, GoBuf, Work0Ok, FwdOk, DownOk, LinkDown, Route1Ok, Work1Ok, Route2Ok,
         LinkDown2, Work2Ok, LinkUp2, LinkUp, MOutOk, LastOk, Flat, Reqs;
  }

  lemma MuxByteRoot(s: State)
    requires Inv(s) && Enabled(s, MuxByte)
    ensures RootInv(StepMuxByte(s))
  {
    hide TramInv, LedgerInv, G4, PhaseOk, HdrOk, LinkIn, Front, HoldBuf, GoBuf, Work0Ok, Out0Ok, BusyOk, FreeOk, Flat,
         Reqs;
    if s.t.mux1.XOut1? {
      MuxByteRoot1(s);
    } else {
      MuxByteRoot2(s);
    }
  }

  lemma MuxByteTrams1(s: State)
    requires Inv(s) && Enabled(s, MuxByte) && s.t.mux1.XOut1?
    ensures TramInv(StepMuxByte(s))
  {
    hide LedgerInv, G4, HdrOk, LinkIn, Front, HoldBuf, GoBuf, Work0Ok, Out0Ok, BusyOk, FreeOk, FwdOk, LinkDown,
         LinkDown2, Flat, Reqs;
    Grow(UpByte(s.t), UpSent(s.t.mux1));
    if UpSent(s.t.mux1) + 1 >= LREP_HDR {
      OutLenPrefix(UpByte(s.t), UpSent(s.t.mux1) + 1);
    }
    if UpSent(s.t.mux1) >= LREP_HDR {
      OutLenPrefix(UpByte(s.t), UpSent(s.t.mux1));
    }
  }

  lemma MuxByteTrams2(s: State)
    requires Inv(s) && Enabled(s, MuxByte) && s.t.mux1.XOut?
    ensures TramInv(StepMuxByte(s))
  {
    hide LedgerInv, G4, HdrOk, LinkIn, Front, HoldBuf, GoBuf, Work0Ok, Out0Ok, BusyOk, FreeOk, FwdOk, LinkDown,
         LinkDown2, Flat, Reqs;
    Grow(UpByte(s.t), UpSent(s.t.mux1));
    if UpSent(s.t.mux1) + 1 >= LREP_HDR {
      OutLenPrefix(UpByte(s.t), UpSent(s.t.mux1) + 1);
    }
    if UpSent(s.t.mux1) >= LREP_HDR {
      OutLenPrefix(UpByte(s.t), UpSent(s.t.mux1));
    }
  }

  lemma MuxByteTrams(s: State)
    requires Inv(s) && Enabled(s, MuxByte)
    ensures TramInv(StepMuxByte(s))
  {
    hide RootInv, LedgerInv, G4, FwdOk, DownOk, LinkDown, Route1Ok, Work1Ok, Up1Ok, Route2Ok, LinkDown2, Work2Ok,
         LinkUp2, Up2Ok, LinkUp, MOutOk, LastOk, Flat, Reqs;
    if s.t.mux1.XOut1? {
      MuxByteTrams1(s);
    } else {
      MuxByteTrams2(s);
    }
  }

  lemma MuxByteLedger(s: State)
    requires Inv(s) && Enabled(s, MuxByte)
    ensures LedgerInv(StepMuxByte(s))
  {
    hide RootInv, G4, FwdOk, DownOk, LinkDown, Route1Ok, Work1Ok, Route2Ok, LinkDown2, Work2Ok, LinkUp2, LinkUp,
         MOutOk, LastOk, Stream, Books, AllGood, Flat, Reqs;
  }

  lemma RouteGoRoot(s: State)
    requires Inv(s) && Enabled(s, RouteGo)
    ensures RootInv(StepRouteGo(s))
  {
    hide TramInv, LedgerInv, G4, HdrOk, LinkIn, HoldBuf, GoBuf, Work0Ok, Out0Ok, FreeOk, Flat, Reqs;
  }

  lemma RouteGoTrams(s: State)
    requires Inv(s) && Enabled(s, RouteGo)
    ensures TramInv(StepRouteGo(s))
  {
    hide RootInv, LedgerInv, G4, Work2Ok, LinkUp2, Up2Ok, LinkUp, MOutOk, Flat, Reqs;
  }

  lemma RouteGoLedger(s: State)
    requires Inv(s) && Enabled(s, RouteGo)
    ensures LedgerInv(StepRouteGo(s))
  {
    hide RootInv, G4, FwdOk, DownOk, LinkDown, Work1Ok, Up1Ok, Route2Ok, LinkDown2, Work2Ok, LinkUp2, Up2Ok, LinkUp,
         MOutOk, LastOk, Stream, Books, AllGood, Flat, Reqs;
  }

  lemma RouteFwdRoot(s: State)
    requires Inv(s) && Enabled(s, RouteFwd)
    ensures RootInv(StepRouteFwd(s))
  {
    hide TramInv, LedgerInv, G4, HdrOk, LinkIn, HoldBuf, GoBuf, Work0Ok, Out0Ok, FreeOk, Flat, Reqs;
  }

  lemma RouteFwdTrams(s: State)
    requires Inv(s) && Enabled(s, RouteFwd)
    ensures TramInv(StepRouteFwd(s))
  {
    hide LedgerInv, G4, HdrOk, LinkIn, Front, HoldBuf, GoBuf, Work0Ok, Out0Ok, BusyOk, FreeOk, Work1Ok, Up1Ok, LinkUp,
         MOutOk, Flat, Reqs;
    if s.v.pc.VHdr? {
      Grow(s.t.hdrf, s.v.pc.got);
    } else {
      Grow(s.t.fwd, s.v.pc.got);
    }
  }

  lemma RouteFwdLedger(s: State)
    requires Inv(s) && Enabled(s, RouteFwd)
    ensures LedgerInv(StepRouteFwd(s))
  {
    hide RootInv, G4, FwdOk, DownOk, LinkDown, Route1Ok, Work1Ok, Up1Ok, LinkDown2, Work2Ok, LinkUp2, Up2Ok, LinkUp,
         MOutOk, LastOk, Stream, Books, AllGood, Flat, Reqs;
  }

  lemma Work1Root(s: State, rep: seq<byte>)
    requires Inv(s) && Enabled(s, Work1(rep))
    ensures RootInv(StepWork1(s, rep))
  {
    hide LedgerInv, G4, HdrOk, LinkIn, HoldBuf, GoBuf, Work0Ok, Out0Ok, FreeOk, FwdOk, DownOk, LinkDown, Route1Ok,
         Up1Ok, Route2Ok, LinkDown2, Work2Ok, LinkUp2, Up2Ok, LinkUp, MOutOk, LastOk, Flat, Reqs;
  }

  lemma Work1Trams(s: State, rep: seq<byte>)
    requires Inv(s) && Enabled(s, Work1(rep))
    ensures TramInv(StepWork1(s, rep))
  {
    hide RootInv, LedgerInv, G4, FwdOk, LinkDown, Route2Ok, LinkDown2, Work2Ok, LinkUp2, Up2Ok, MOutOk, Flat, Reqs;
  }

  lemma Work1Ledger(s: State, rep: seq<byte>)
    requires Inv(s) && Enabled(s, Work1(rep))
    ensures LedgerInv(StepWork1(s, rep))
  {
    hide RootInv, G4, FwdOk, DownOk, LinkDown, Route1Ok, Up1Ok, Route2Ok, LinkDown2, Work2Ok, LinkUp2, Up2Ok, LinkUp,
         MOutOk, LastOk, Stream, Books, AllGood, Flat, Reqs;
  }

  lemma Take1Root(s: State)
    requires Inv(s) && Enabled(s, Take1)
    ensures RootInv(StepTake1(s))
  {
    hide LedgerInv, G4, HdrOk, LinkIn, HoldBuf, GoBuf, Work0Ok, Out0Ok, FreeOk, FwdOk, DownOk, LinkDown, Route1Ok,
         Up1Ok, Route2Ok, LinkDown2, Work2Ok, LinkUp2, Up2Ok, LinkUp, MOutOk, LastOk, Flat, Reqs;
  }

  lemma Take1Trams(s: State)
    requires Inv(s) && Enabled(s, Take1)
    ensures TramInv(StepTake1(s))
  {
    hide LedgerInv, G4, HdrOk, LinkIn, Front, HoldBuf, GoBuf, Work0Ok, Out0Ok, BusyOk, FreeOk, FwdOk, LinkDown,
         Route2Ok, LinkDown2, Work2Ok, MOutOk, Flat, Reqs;
  }

  lemma Take1Ledger(s: State)
    requires Inv(s) && Enabled(s, Take1)
    ensures LedgerInv(StepTake1(s))
  {
    hide RootInv, G4, FwdOk, DownOk, LinkDown, Route1Ok, Up1Ok, Route2Ok, LinkDown2, Work2Ok, LinkUp2, Up2Ok, LinkUp,
         MOutOk, LastOk, Stream, Books, AllGood, Flat, Reqs;
  }

  lemma Mux1ByteRoot(s: State)
    requires Inv(s) && Enabled(s, Mux1Byte)
    ensures RootInv(StepMux1Byte(s))
  {
    hide LedgerInv, G4, HdrOk, LinkIn, HoldBuf, GoBuf, Work0Ok, Out0Ok, FreeOk, FwdOk, DownOk, LinkDown, Route1Ok,
         Work1Ok, Up1Ok, Route2Ok, LinkDown2, LinkUp2, Up2Ok, LinkUp, MOutOk, LastOk, Flat, Reqs;
  }

  lemma Mux1ByteTrams(s: State)
    requires Inv(s) && Enabled(s, Mux1Byte)
    ensures TramInv(StepMux1Byte(s))
  {
    hide LedgerInv, G4, HdrOk, LinkIn, Front, HoldBuf, GoBuf, Work0Ok, Out0Ok, BusyOk, FreeOk, FwdOk, LinkDown,
         Route1Ok, Work1Ok, MOutOk, Flat, Reqs;
    Grow(s.v.rep, s.v.pc.sent);
    if s.v.pc.sent + 1 >= LREP_HDR {
      OutLenPrefix(s.v.rep, s.v.pc.sent + 1);
    }
    if s.v.pc.sent >= LREP_HDR {
      OutLenPrefix(s.v.rep, s.v.pc.sent);
    }
  }

  lemma Mux1ByteLedger(s: State)
    requires Inv(s) && Enabled(s, Mux1Byte)
    ensures LedgerInv(StepMux1Byte(s))
  {
    hide RootInv, G4, FwdOk, DownOk, LinkDown, Route1Ok, Work1Ok, Up1Ok, Route2Ok, LinkDown2, LinkUp2, Up2Ok, LinkUp,
         MOutOk, LastOk, Stream, Books, AllGood, Flat, Reqs;
  }

  lemma Work2Root(s: State, rep: seq<byte>)
    requires Inv(s) && Enabled(s, Work2(rep))
    ensures RootInv(StepWork2(s, rep))
  {
    hide LedgerInv, G4, HdrOk, LinkIn, HoldBuf, GoBuf, Work0Ok, Out0Ok, FreeOk, FwdOk, DownOk, LinkDown, Route1Ok,
         Work1Ok, Up1Ok, Route2Ok, LinkDown2, LinkUp2, Up2Ok, LinkUp, MOutOk, LastOk, Flat, Reqs;
  }

  lemma Work2Trams(s: State, rep: seq<byte>)
    requires Inv(s) && Enabled(s, Work2(rep))
    ensures TramInv(StepWork2(s, rep))
  {
    hide RootInv, LedgerInv, G4, FwdOk, LinkDown, Route1Ok, Work1Ok, Up1Ok, LinkUp, MOutOk, Flat, Reqs;
  }

  lemma Work2Ledger(s: State, rep: seq<byte>)
    requires Inv(s) && Enabled(s, Work2(rep))
    ensures LedgerInv(StepWork2(s, rep))
  {
    hide RootInv, G4, FwdOk, DownOk, LinkDown, Route1Ok, Work1Ok, Up1Ok, Route2Ok, LinkDown2, LinkUp2, Up2Ok, LinkUp,
         MOutOk, LastOk, Stream, Books, AllGood, Flat, Reqs;
  }

  lemma HostPickRoot(s: State)
    requires Inv(s) && Enabled(s, HostPick)
    ensures RootInv(Step(s, HostPick))
  {
    hide TramInv, LedgerInv, G4, PhaseOk, Work0Ok, Out0Ok, BusyOk, FreeOk, Flat, Reqs;
  }

  lemma HostPickTrams(s: State)
    requires Inv(s) && Enabled(s, HostPick)
    ensures TramInv(Step(s, HostPick))
  {
    hide RootInv, LedgerInv, G4, Route1Ok, Work1Ok, Up1Ok, Route2Ok, LinkDown2, Work2Ok, LinkUp2, Up2Ok, LinkUp,
         MOutOk, LastOk, Flat, Reqs;
  }

  lemma HostPickLedger(s: State)
    requires Inv(s) && Enabled(s, HostPick)
    ensures LedgerInv(Step(s, HostPick))
  {
    hide RootInv, TramInv, G4, Stream, Books, AllGood, Flat, Reqs;
  }

  lemma MuxPickRoot(s: State)
    requires Inv(s) && Enabled(s, MuxPick)
    ensures RootInv(Step(s, MuxPick))
  {
    hide TramInv, LedgerInv, G4, PhaseOk, HdrOk, LinkIn, Front, HoldBuf, GoBuf, Work0Ok, Flat, Reqs;
  }

  lemma MuxPickTrams(s: State)
    requires Inv(s) && Enabled(s, MuxPick)
    ensures TramInv(Step(s, MuxPick))
  {
    hide RootInv, LedgerInv, G4, FwdOk, DownOk, LinkDown, Route1Ok, Work1Ok, Up1Ok, Route2Ok, LinkDown2, Work2Ok,
         LinkUp2, Up2Ok, Flat, Reqs;
  }

  lemma MuxPickLedger(s: State)
    requires Inv(s) && Enabled(s, MuxPick)
    ensures LedgerInv(Step(s, MuxPick))
  {
    hide RootInv, TramInv, G4, Stream, Books, AllGood, Flat, Reqs;
  }

  lemma Mux1PickRoot(s: State)
    requires Inv(s) && Enabled(s, Mux1Pick)
    ensures RootInv(Step(s, Mux1Pick))
  {
    hide TramInv, LedgerInv, G4, PhaseOk, HdrOk, LinkIn, Front, HoldBuf, GoBuf, Work0Ok, Out0Ok, BusyOk, FreeOk, Flat,
         Reqs;
  }

  lemma Mux1PickTrams(s: State)
    requires Inv(s) && Enabled(s, Mux1Pick)
    ensures TramInv(Step(s, Mux1Pick))
  {
    hide RootInv, LedgerInv, G4, FwdOk, DownOk, LinkDown, Route1Ok, Work1Ok, Route2Ok, LinkDown2, Work2Ok, MOutOk,
         LastOk, Flat, Reqs;
  }

  lemma Mux1PickLedger(s: State)
    requires Inv(s) && Enabled(s, Mux1Pick)
    ensures LedgerInv(Step(s, Mux1Pick))
  {
    hide RootInv, TramInv, G4, Stream, Books, AllGood, Flat, Reqs;
  }

  lemma ReleaseRoot(s: State)
    requires Inv(s) && Enabled(s, Release)
    ensures RootInv(Step(s, Release))
  {
    hide TramInv, LedgerInv, G4, HdrOk, LinkIn, Front, HoldBuf, GoBuf, Flat, Reqs;
  }

  lemma ReleaseTrams(s: State)
    requires Inv(s) && Enabled(s, Release)
    ensures TramInv(Step(s, Release))
  {
    hide RootInv, LedgerInv, G4, FwdOk, DownOk, LinkDown, Route1Ok, Work1Ok, Up1Ok, Route2Ok, LinkDown2, Work2Ok,
         LinkUp2, Up2Ok, Flat, Reqs;
  }

  lemma ReleaseLedger(s: State)
    requires Inv(s) && Enabled(s, Release)
    ensures LedgerInv(Step(s, Release))
  {
    hide RootInv, TramInv, G4, Stream, Books, AllGood, Flat, Reqs;
  }

  lemma FreeMsgRoot(s: State)
    requires Inv(s) && Enabled(s, FreeMsg)
    ensures RootInv(Step(s, FreeMsg))
  {
    hide TramInv, LedgerInv, G4, PhaseOk, HdrOk, LinkIn, Front, HoldBuf, GoBuf, Work0Ok, Flat, Reqs;
  }

  lemma FreeMsgTrams(s: State)
    requires Inv(s) && Enabled(s, FreeMsg)
    ensures TramInv(Step(s, FreeMsg))
  {
    hide RootInv, LedgerInv, G4, FwdOk, DownOk, LinkDown, Route1Ok, Work1Ok, Up1Ok, Route2Ok, LinkDown2, Work2Ok,
         LinkUp2, Up2Ok, Flat, Reqs;
  }

  lemma FreeMsgLedger(s: State)
    requires Inv(s) && Enabled(s, FreeMsg)
    ensures LedgerInv(Step(s, FreeMsg))
  {
    hide RootInv, TramInv, G4, Stream, Books, AllGood, Flat, Reqs;
  }

  lemma Out0Root(s: State)
    requires Inv(s) && Enabled(s, Out0)
    ensures RootInv(StepOut0(s))
  {
    hide TramInv, LedgerInv, G4, HdrOk, LinkIn, Front, HoldBuf, Flat, Reqs;
    LastFront(s.d.link, s.d.cur, s.r.host, s.r.h, s.l.p0, 0);
  }

  /** No request for a node whose reply is going out is being written or read. */
  lemma LastFront(link: Sending, cur: Req, host: HostPC, h: seq<byte>, p: Phase, k: int)
    requires Front(link, cur, host, h, p, k) && p.Last?
    ensures Front(link, cur, host, h, Free, k)
  {
  }

  lemma Out0Trams(s: State)
    requires Inv(s) && Enabled(s, Out0)
    ensures TramInv(StepOut0(s))
  {
    hide RootInv, LedgerInv, G4, FwdOk, DownOk, LinkDown, Route1Ok, Work1Ok, Up1Ok, Route2Ok, LinkDown2, Work2Ok,
         LinkUp2, Up2Ok, Flat, Reqs;
  }

  lemma MuxOutRoot1(s: State)
    requires Inv(s) && Enabled(s, MuxOut) && s.r.repm[R_NODE] == 1
    ensures RootInv(StepMuxOut(s))
  {
    hide LedgerInv, G4, HdrOk, LinkIn, HoldBuf, GoBuf, Work0Ok, FwdOk, DownOk, LinkDown, Route1Ok, Work1Ok, Up1Ok,
         Route2Ok, LinkDown2, Work2Ok, LinkUp2, Up2Ok, LinkUp, Flat, Reqs;
  }

  lemma MuxOutRoot2(s: State)
    requires Inv(s) && Enabled(s, MuxOut) && s.r.repm[R_NODE] == 2
    ensures RootInv(StepMuxOut(s))
  {
    hide LedgerInv, G4, HdrOk, LinkIn, HoldBuf, GoBuf, Work0Ok, FwdOk, DownOk, LinkDown, Route1Ok, Work1Ok, Up1Ok,
         Route2Ok, LinkDown2, Work2Ok, LinkUp2, Up2Ok, LinkUp, Flat, Reqs;
  }

  lemma MuxOutRoot(s: State)
    requires Inv(s) && Enabled(s, MuxOut)
    ensures RootInv(StepMuxOut(s))
  {
    hide LedgerInv, G4, PhaseOk, HdrOk, LinkIn, Front, HoldBuf, GoBuf, Work0Ok, Out0Ok, BusyOk, FreeOk, FwdOk, DownOk,
         LinkDown, Route1Ok, Work1Ok, Up1Ok, Route2Ok, LinkDown2, Work2Ok, LinkUp2, Up2Ok, LinkUp, LastOk, Flat, Reqs;
    if s.r.repm[R_NODE] == 1 {
      MuxOutRoot1(s);
    } else {
      MuxOutRoot2(s);
    }
  }

  lemma MuxOutTrams1(s: State)
    requires Inv(s) && Enabled(s, MuxOut) && s.r.repm[R_NODE] == 1
    ensures TramInv(StepMuxOut(s))
  {
    hide LedgerInv, G4, HdrOk, LinkIn, Front, HoldBuf, GoBuf, Work0Ok, Out0Ok, BusyOk, FreeOk, FwdOk, LinkDown,
         LinkDown2, LinkUp2, Flat, Reqs;
  }

  lemma MuxOutTrams2(s: State)
    requires Inv(s) && Enabled(s, MuxOut) && s.r.repm[R_NODE] == 2
    ensures TramInv(StepMuxOut(s))
  {
    hide LedgerInv, G4, HdrOk, LinkIn, Front, HoldBuf, GoBuf, Work0Ok, Out0Ok, BusyOk, FreeOk, FwdOk, LinkDown,
         LinkDown2, LinkUp2, Flat, Reqs;
  }

  lemma MuxOutTrams(s: State)
    requires Inv(s) && Enabled(s, MuxOut)
    ensures TramInv(StepMuxOut(s))
  {
    hide RootInv, LedgerInv, G4, FwdOk, DownOk, LinkDown, Route1Ok, Work1Ok, Up1Ok, Route2Ok, LinkDown2, Work2Ok,
         LinkUp2, Up2Ok, LinkUp, LastOk, Flat, Reqs;
    if s.r.repm[R_NODE] == 1 {
      MuxOutTrams1(s);
    } else {
      MuxOutTrams2(s);
    }
  }

  lemma FlatSnoc(answers: seq<Answer>, a: Answer)
    ensures Flat(answers + [a]) == Flat(answers) + a.rep
    ensures Reqs(answers + [a]) == Reqs(answers) + multiset{a.r}
  {
  }

  /** One more byte of a reply has reached the daemon; after the last the answer is entered. */
  lemma StreamByte(recv: seq<byte>, answers: seq<Answer>, rep: seq<byte>, sent: nat, a: Answer)
    requires sent < |rep| && Stream(recv, answers, rep[..sent]) && a.rep == rep
    ensures if sent + 1 == |rep| then Stream(recv + [rep[sent]], answers + [a], [])
            else Stream(recv + [rep[sent]], answers, rep[..sent + 1])
  {
    Grow(rep, sent);
    FlatSnoc(answers, a);
    assert recv + [rep[sent]] == Flat(answers) + (rep[..sent] + [rep[sent]]);
  }

  lemma BooksAnswer(asked: seq<Req>, answers: seq<Answer>, o0: multiset<Req>, o1: multiset<Req>, o2: multiset<Req>, a: Answer)
    requires Books(asked, answers, o0, o1, o2)
    ensures o0 == multiset{a.r} ==> Books(asked, answers + [a], multiset{}, o1, o2)
    ensures o1 == multiset{a.r} ==> Books(asked, answers + [a], o0, multiset{}, o2)
    ensures o2 == multiset{a.r} ==> Books(asked, answers + [a], o0, o1, multiset{})
  {
    hide Reqs;
    FlatSnoc(answers, a);
  }

  lemma GoodSnoc(answers: seq<Answer>, a: Answer)
    requires AllGood(answers) && GoodAnswer(a)
    ensures AllGood(answers + [a])
  {
  }

  lemma Out0Ledger(s: State)
    requires Inv(s) && Enabled(s, Out0)
    ensures LedgerInv(StepOut0(s))
  {
    hide G4, LinkIn, Front, HoldBuf, GoBuf, BusyOk, DownOk, LinkDown, Route1Ok, Work1Ok, Up1Ok, Route2Ok,
         LinkDown2, Work2Ok, LinkUp2, Up2Ok, LinkUp, LastOk, Flat, Reqs, Stream, Books, AllGood, IsReply, ValidReq;
    var a := Answer(s.l.p0.r, s.l.p0.rep);
    StreamByte(s.d.recv, s.l.answers, s.r.rep0, s.r.mux.sent, a);
    BooksAnswer(s.l.asked, s.l.answers, Open(s.l.p0), Open(s.l.p1), Open(s.l.p2), a);
    GoodSnoc(s.l.answers, a);
  }

  lemma MuxOutLedger(s: State)
    requires Inv(s) && Enabled(s, MuxOut)
    ensures LedgerInv(StepMuxOut(s))
  {
    hide G4, LinkIn, Front, HoldBuf, GoBuf, BusyOk, DownOk, LinkDown, Route1Ok, Work1Ok, Up1Ok, Route2Ok,
         LinkDown2, Work2Ok, LinkUp2, Up2Ok, LinkUp, Flat, Reqs, Stream, Books, AllGood, IsReply, ValidReq;
    var p := Ph(s.l, s.r.repm[R_NODE]);
    var a := Answer(p.r, p.rep);
    StreamByte(s.d.recv, s.l.answers, s.r.repm, s.r.mux.sent, a);
    BooksAnswer(s.l.asked, s.l.answers, Open(s.l.p0), Open(s.l.p1), Open(s.l.p2), a);
    GoodSnoc(s.l.answers, a);
  }

  /** The invariant is inductive: any process may move next. */
  lemma StepInv(s: State, a: Action)
    requires Inv(s) && Enabled(s, a)
    ensures Inv(Step(s, a))
  {
    hide RootInv, TramInv, LedgerInv;
    match a
    case Ask(r) =>
      AskRoot(s, r);
      AskTrams(s, r);
      AskLedger(s, r);
    case HostPick =>
      HostPickRoot(s);
      HostPickTrams(s);
      HostPickLedger(s);
    case HostHdr =>
      HostHdrRoot(s);
      HostHdrTrams(s);
      HostHdrLedger(s);
    case HostTake =>
      HostTakeRoot(s);
      HostTakeTrams(s);
      HostTakeLedger(s);
    case HostAlloc(ok) =>
      HostAllocRoot(s, ok);
      HostAllocTrams(s, ok);
      HostAllocLedger(s, ok);
    case HostPay =>
      HostPayRoot(s);
      HostPayTrams(s);
      HostPayLedger(s);
    case HostDrain =>
      HostDrainRoot(s);
      HostDrainTrams(s);
      HostDrainLedger(s);
    case HostGo =>
      HostGoRoot(s);
      HostGoTrams(s);
      HostGoLedger(s);
    case HostFwd =>
      HostFwdRoot(s);
      HostFwdTrams(s);
      HostFwdLedger(s);
    case Work0(rep) =>
      Work0Root(s, rep);
      Work0Trams(s, rep);
      Work0Ledger(s, rep);
    case Take0 =>
      Take0Root(s);
      Take0Trams(s);
      Take0Ledger(s);
    case Out0 =>
      Out0Root(s);
      Out0Trams(s);
      Out0Ledger(s);
    case Release =>
      ReleaseRoot(s);
      ReleaseTrams(s);
      ReleaseLedger(s);
    case FreeMsg =>
      FreeMsgRoot(s);
      FreeMsgTrams(s);
      FreeMsgLedger(s);
    case MuxPick =>
      MuxPickRoot(s);
      MuxPickTrams(s);
      MuxPickLedger(s);
    case MuxByte =>
      MuxByteRoot(s);
      MuxByteTrams(s);
      MuxByteLedger(s);
    case MuxOut =>
      MuxOutRoot(s);
      MuxOutTrams(s);
      MuxOutLedger(s);
    case RouteGo =>
      RouteGoRoot(s);
      RouteGoTrams(s);
      RouteGoLedger(s);
    case RouteFwd =>
      RouteFwdRoot(s);
      RouteFwdTrams(s);
      RouteFwdLedger(s);
    case Work1(rep) =>
      Work1Root(s, rep);
      Work1Trams(s, rep);
      Work1Ledger(s, rep);
    case Take1 =>
      Take1Root(s);
      Take1Trams(s);
      Take1Ledger(s);
    case Mux1Pick =>
      Mux1PickRoot(s);
      Mux1PickTrams(s);
      Mux1PickLedger(s);
    case Mux1Byte =>
      Mux1ByteRoot(s);
      Mux1ByteTrams(s);
      Mux1ByteLedger(s);
    case Work2(rep) =>
      Work2Root(s, rep);
      Work2Trams(s, rep);
      Work2Ledger(s, rep);
  }
}
