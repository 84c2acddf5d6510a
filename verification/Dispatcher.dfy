/** The transputer network (sam-job-tt/llvm/root.c, worker1.c, worker2.c, jobnode.c) together with the daemon's
    side of the link, as a transition system.  Seven processes and the daemon run in any interleaving; links and
    channels are rendezvous, and a link moves one byte per step, read from the sender's buffer as it is at that
    moment.  A buffer being filled holds the bytes received so far, so starting to fill it destroys what it held. */
module Dispatcher {
  import opened Wire

  // ---- processes -------------------------------------------------------------------------------

  datatype Sending = Quiet | Writing(sent: nat)       // the daemon: in link_write, or polling the link

  datatype HostPC =
    | HAlt                   // ProcAlt(freec, hin)
    | HHdr(got: nat)         // ChanIn(hin, h, JOB_HDR)
    | HWait                  // while (busy[node])
    | HAlloc                 // malloc of in0
    | HPay(got: nat)         // ChanIn(hin, in0 or fwd, n)
    | HDrain(got: nat)       // no room for in0
    | HGo(n: int)            // ChanOutInt(go0, n)
    | HFwd(sent: nat)        // ChanOut(t1o, hdrf), ChanOut(t1o, fwd)

  datatype Worker = Ready | Run(n: int) | Done        // work0, work1: ChanInInt(go), job_reply, ChanOutInt(done)

  datatype MuxPC =
    | MAlt                   // ProcAlt(done0, t1i)
    | MOut0(sent: nat)       // ChanOut(hout, rep0)
    | MRelease               // free(rep0)
    | MHdr(got: nat)         // rep_read(t1i, repm): header
    | MBody(got: nat)        //                      body
    | MOut(sent: nat)        // ChanOut(hout, repm)
    | MFree(node: int)       // ChanOutInt(freec, node)

  datatype RoutePC =
    | RHdr(got: nat)         // ChanIn(ri, h, JOB_HDR)
    | RPay1(got: nat)        // ChanIn(ri, in1, n)
    | RGo(n: int)            // ChanOutInt(go1, n)
    | RPayF(got: nat)        // ChanIn(ri, fwd, n)
    | RFwd(sent: nat)        // ChanOut(t2o, hdrf), ChanOut(t2o, fwd)

  datatype Mux1PC =
    | XAlt                   // ProcAlt(done1, t2i)
    | XOut1(sent: nat)       // ChanOut(ro, rep1)
    | XHdr(got: nat)         // rep_read(t2i, repm)
    | XBody(got: nat)
    | XOut(sent: nat)        // ChanOut(ro, repm)

  datatype Worker2PC =
    | VHdr(got: nat)         // job_read
    | VPay(got: nat)
    | VRun                   // job_reply
    | VOut(sent: nat)        // ChanOut(ro, rep)

  datatype Root = Root(
    host: HostPC, h: seq<byte>, busy: set<int>, work0: Worker, mux: MuxPC,
    hdr0: seq<byte>, in0: seq<byte>, rep0: seq<byte>, hdrf: seq<byte>, fwd: seq<byte>, repm: seq<byte>)

  datatype Tram1 = Tram1(
    route: RoutePC, h: seq<byte>, work1: Worker, mux1: Mux1PC,
    hdr1: seq<byte>, in1: seq<byte>, rep1: seq<byte>, hdrf: seq<byte>, fwd: seq<byte>, repm: seq<byte>)

  datatype Tram2 = Tram2(pc: Worker2PC, hdr: seq<byte>, inp: seq<byte>, rep: seq<byte>)

  /** The daemon: the request it last started to write, and every byte it has read. */
  datatype Daemon = Daemon(link: Sending, cur: Req, recv: seq<byte>)

  /** History only, never read by a process: how far each node's job has come. */
  datatype Phase =
    | Free
    | Asked(r: Req)                       // being written by the daemon, not yet accepted by host
    | Held(r: Req)                        // host is reading or handing over the payload
    | Down(r: Req)                        // host is sending it to TRAM 1
    | Routed(r: Req)                      // route has all of it
    | Running(r: Req)
    | Made(r: Req, rep: seq<byte>)        // the worker has finished
    | Up(r: Req, rep: seq<byte>)          // mux1 has all of the reply
    | Last(r: Req, rep: seq<byte>)        // mux has all of the reply

  datatype Answer = Answer(r: Req, rep: seq<byte>)

  datatype Ledger = Ledger(p0: Phase, p1: Phase, p2: Phase, asked: seq<Req>, answers: seq<Answer>)

  datatype State = State(d: Daemon, r: Root, t: Tram1, v: Tram2, l: Ledger)

  function Ph(l: Ledger, k: int): Phase {
    if k == 0 then l.p0 else if k == 1 then l.p1 else l.p2
  }

  function SetPh(l: Ledger, k: int, p: Phase): Ledger {
    if k == 0 then l.(p0 := p) else if k == 1 then l.(p1 := p) else l.(p2 := p)
  }

  function Cap(k: int): int { if k == 0 then JOB_BIG else JOB_MAX }

  /** The length field of a header. */
  function Len(h: seq<byte>): int {
    if |h| == JOB_HDR then G4(h, H_LEN) else 0
  }

  function OutLen(h: seq<byte>): int {
    if |h| >= LREP_HDR then G4(h, 3) else 0
  }

  predicate Init(s: State) {
    && s.d.link.Quiet? && s.d.recv == []
    && s.r.host.HAlt? && s.r.busy == {} && s.r.work0.Ready? && s.r.mux.MAlt?
    && s.t.route == RHdr(0) && s.t.h == [] && s.t.work1.Ready? && s.t.mux1.XAlt?
    && s.v.pc == VHdr(0) && s.v.hdr == []
    && s.l == Ledger(Free, Free, Free, [], [])
  }

  // ---- steps -----------------------------------------------------------------------------------

  datatype Action =
    | Ask(r: Req)                              // the daemon starts writing a request to an idle node
    | HostPick | HostHdr | HostTake | HostAlloc(ok: bool) | HostPay | HostDrain | HostGo | HostFwd
    | Work0(rep: seq<byte>) | Take0 | Out0 | Release | FreeMsg
    | MuxPick | MuxByte | MuxOut
    | RouteGo | RouteFwd
    | Work1(rep: seq<byte>) | Take1
    | Mux1Pick | Mux1Byte
    | Work2(rep: seq<byte>)

  /** The next byte each sender would put on its link. */
  function HostByte(r: Root): seq<byte> { r.hdrf + r.fwd }
  function RouteByte(t: Tram1): seq<byte> { t.hdrf + t.fwd }
  function UpByte(t: Tram1): seq<byte> { if t.mux1.XOut1? then t.rep1 else t.repm }
  function UpSent(x: Mux1PC): nat { if x.XOut1? then x.sent else if x.XOut? then x.sent else 0 }

  predicate Enabled(s: State, a: Action) {
    match a
    case Ask(r) => s.d.link.Quiet? && ValidReq(r) && Ph(s.l, Node(r)).Free?
    case HostPick => s.r.host.HAlt? && s.d.link.Writing?
    case HostHdr => s.r.host.HHdr? && s.d.link.Writing? && s.d.link.sent < |Frame(s.d.cur)|
    case HostTake => s.r.host.HWait? && |s.r.h| == JOB_HDR && s.r.h[3] !in s.r.busy
    case HostAlloc(ok) => s.r.host.HAlloc?
    case HostPay => s.r.host.HPay? && s.d.link.Writing? && s.d.link.sent < |Frame(s.d.cur)|
    case HostDrain => s.r.host.HDrain? && s.d.link.Writing? && s.d.link.sent < |Frame(s.d.cur)|
    case HostGo => s.r.host.HGo? && s.r.work0.Ready?
    case HostFwd => s.r.host.HFwd? && s.r.host.sent < |HostByte(s.r)|
                    && (s.t.route.RHdr? || s.t.route.RPay1? || s.t.route.RPayF?)
    case Work0(rep) => s.r.work0.Run? && IsReply(rep, s.r.hdr0, 0, JOB_BIG)
    case Take0 => s.r.mux.MAlt? && s.r.work0.Done?
    case Out0 => s.r.mux.MOut0? && s.r.mux.sent < |s.r.rep0| && s.d.link.Quiet?
    case Release => s.r.mux.MRelease?
    case FreeMsg => s.r.mux.MFree? && (s.r.host.HAlt? || (s.r.host.HWait? && |s.r.h| == JOB_HDR && s.r.h[3] in s.r.busy))
    case MuxPick => s.r.mux.MAlt? && (s.t.mux1.XOut1? || s.t.mux1.XOut?)
    case MuxByte => (s.r.mux.MHdr? || s.r.mux.MBody?) && (s.t.mux1.XOut1? || s.t.mux1.XOut?)
                    && UpSent(s.t.mux1) < |UpByte(s.t)|
    case MuxOut => s.r.mux.MOut? && s.r.mux.sent < |s.r.repm| && |s.r.repm| >= LREP_HDR && s.d.link.Quiet?
    case RouteGo => s.t.route.RGo? && s.t.work1.Ready?
    case RouteFwd => s.t.route.RFwd? && s.t.route.sent < |RouteByte(s.t)| && (s.v.pc.VHdr? || s.v.pc.VPay?)
    case Work1(rep) => s.t.work1.Run? && IsReply(rep, s.t.hdr1, 1, JOB_MAX)
    case Take1 => s.t.mux1.XAlt? && s.t.work1.Done?
    case Mux1Pick => s.t.mux1.XAlt? && s.v.pc.VOut?
    case Mux1Byte => (s.t.mux1.XHdr? || s.t.mux1.XBody?) && s.v.pc.VOut? && s.v.pc.sent < |s.v.rep|
    case Work2(rep) => s.v.pc.VRun? && IsReply(rep, s.v.hdr, 2, JOB_MAX)
  }

  /** One more byte of the daemon's request has gone; link_write returns after the last. */
  function Sent(d: Daemon): Daemon
    requires d.link.Writing?
  {
    d.(link := if d.link.sent + 1 == |Frame(d.cur)| then Quiet else Writing(d.link.sent + 1))
  }

  function StepAsk(s: State, r: Req): State
    requires Enabled(s, Ask(r))
  {
    s.(d := s.d.(link := Writing(0), cur := r), l := SetPh(s.l, Node(r), Asked(r)).(asked := s.l.asked + [r]))
  }

  function StepHostHdr(s: State): State
    requires Enabled(s, HostHdr)
  {
    var got := s.r.host.got;
    s.(d := Sent(s.d),
       r := s.r.(h := s.r.h + [Frame(s.d.cur)[s.d.link.sent]],
                 host := if got + 1 == JOB_HDR then HWait else HHdr(got + 1)))
  }

  /** The node is idle: mark it busy, copy the header where the job goes. */
  function StepHostTake(s: State): State
    requires Enabled(s, HostTake)
  {
    var k := s.r.h[3];
    var p := Ph(s.l, k);
    var l := if p.Asked? then SetPh(s.l, k, Held(p.r)) else s.l;
    if k == 0 then
      s.(r := s.r.(busy := s.r.busy + {k}, hdr0 := s.r.h, host := HAlloc), l := l)
    else if Len(s.r.h) > 0 then
      s.(r := s.r.(busy := s.r.busy + {k}, hdrf := s.r.h, fwd := [], host := HPay(0)), l := l)
    else
      s.(r := s.r.(busy := s.r.busy + {k}, hdrf := s.r.h, fwd := [], host := HFwd(0)),
         l := if p.Asked? then SetPh(s.l, k, Down(p.r)) else s.l)
  }

  function StepHostAlloc(s: State, ok: bool): State
    requires Enabled(s, HostAlloc(ok))
  {
    var n := Len(s.r.h);
    s.(r := s.r.(in0 := [], host := if !ok then (if n > 0 then HDrain(0) else HGo(-1))
                                    else (if n > 0 then HPay(0) else HGo(n))))
  }

  function StepHostPay(s: State): State
    requires Enabled(s, HostPay)
  {
    var b, got := Frame(s.d.cur)[s.d.link.sent], s.r.host.got;
    var k := if |s.r.h| == JOB_HDR then s.r.h[3] else 0;
    var last := got + 1 == Len(s.r.h);
    if k == 0 then
      s.(d := Sent(s.d),
         r := s.r.(in0 := s.r.in0 + [b], host := if last then HGo(Len(s.r.h)) else HPay(got + 1)))
    else
      s.(d := Sent(s.d),
         r := s.r.(fwd := s.r.fwd + [b], host := if last then HFwd(0) else HPay(got + 1)),
         l := if last && Ph(s.l, k).Held? then SetPh(s.l, k, Down(Ph(s.l, k).r)) else s.l)
  }

  function StepHostDrain(s: State): State
    requires Enabled(s, HostDrain)
  {
    s.(d := Sent(s.d),
       r := s.r.(host := if s.r.host.got + 1 == Len(s.r.h) then HGo(-1) else HDrain(s.r.host.got + 1)))
  }

  function StepHostGo(s: State): State
    requires Enabled(s, HostGo)
  {
    s.(r := s.r.(host := HAlt, work0 := Run(s.r.host.n)),
       l := if s.l.p0.Held? then s.l.(p0 := Running(s.l.p0.r)) else s.l)
  }

  /** One byte from host to route. */
  function StepHostFwd(s: State): State
    requires Enabled(s, HostFwd)
  {
    var b := HostByte(s.r)[s.r.host.sent];
    var last := s.r.host.sent + 1 == |HostByte(s.r)|;
    var r := s.r.(host := if last then HAlt else HFwd(s.r.host.sent + 1));
    var t := RouteTakes(s.t, b);
    var k := if |s.r.hdrf| == JOB_HDR then s.r.hdrf[3] else 0;
    State(s.d, r, t, s.v, if last && Ph(s.l, k).Down? then SetPh(s.l, k, Routed(Ph(s.l, k).r)) else s.l)
  }

  function RouteTakes(t: Tram1, b: byte): Tram1
    requires t.route.RHdr? || t.route.RPay1? || t.route.RPayF?
  {
    match t.route
    case RHdr(got) =>
      var h := t.h + [b];
      if got + 1 < JOB_HDR || |h| != JOB_HDR then t.(h := h, route := RHdr(got + 1))
      else if h[3] == 1 then
        t.(h := h, hdr1 := h, in1 := [], route := if Len(h) > 0 then RPay1(0) else RGo(Len(h)))
      else
        t.(h := h, hdrf := h, fwd := [], route := if Len(h) > 0 then RPayF(0) else RFwd(0))
    case RPay1(got) =>
      t.(in1 := t.in1 + [b], route := if got + 1 == Len(t.h) then RGo(Len(t.h)) else RPay1(got + 1))
    case RPayF(got) =>
      t.(fwd := t.fwd + [b], route := if got + 1 == Len(t.h) then RFwd(0) else RPayF(got + 1))
  }

  function StepWork0(s: State, rep: seq<byte>): State
    requires Enabled(s, Work0(rep))
  {
    s.(r := s.r.(work0 := Done, in0 := [], rep0 := rep),
       l := if s.l.p0.Running? then s.l.(p0 := Made(s.l.p0.r, rep)) else s.l)
  }

  function StepTake0(s: State): State
    requires Enabled(s, Take0)
  {
    s.(r := s.r.(work0 := Ready, mux := MOut0(0)),
       l := if s.l.p0.Made? then s.l.(p0 := Last(s.l.p0.r, s.l.p0.rep)) else s.l)
  }

  /** The last byte of a reply has reached the daemon. */
  function Answered(l: Ledger, k: int): Ledger {
    if Ph(l, k).Last? then SetPh(l, k, Free).(answers := l.answers + [Answer(Ph(l, k).r, Ph(l, k).rep)]) else l
  }

  function StepOut0(s: State): State
    requires Enabled(s, Out0)
  {
    var last := s.r.mux.sent + 1 == |s.r.rep0|;
    s.(d := s.d.(recv := s.d.recv + [s.r.rep0[s.r.mux.sent]]),
       r := s.r.(mux := if last then MRelease else MOut0(s.r.mux.sent + 1)),
       l := if last then Answered(s.l, 0) else s.l)
  }

  function StepMuxPick(s: State): State
    requires Enabled(s, MuxPick)
  {
    s.(r := s.r.(mux := MHdr(0), repm := []))
  }

  /** One byte from mux1 to mux. */
  function StepMuxByte(s: State): State
    requires Enabled(s, MuxByte)
  {
    var b := UpByte(s.t)[UpSent(s.t.mux1)];
    var last := UpSent(s.t.mux1) + 1 == |UpByte(s.t)|;
    var rep := s.r.repm + [b];
    var mux := if s.r.mux.MHdr?
               then (if s.r.mux.got + 1 < LREP_HDR then MHdr(s.r.mux.got + 1)
                     else if OutLen(rep) > 0 then MBody(0) else MOut(0))
               else (if s.r.mux.got + 1 == OutLen(s.r.repm) then MOut(0) else MBody(s.r.mux.got + 1));
    var k := if s.t.mux1.XOut1? then 1 else 2;
    var mux1 := if last then XAlt
                else if s.t.mux1.XOut1? then XOut1(s.t.mux1.sent + 1) else XOut(s.t.mux1.sent + 1);
    s.(r := s.r.(repm := rep, mux := mux), t := s.t.(mux1 := mux1),
       l := if last && Ph(s.l, k).Up? then SetPh(s.l, k, Last(Ph(s.l, k).r, Ph(s.l, k).rep)) else s.l)
  }

  function StepMuxOut(s: State): State
    requires Enabled(s, MuxOut)
  {
    var last := s.r.mux.sent + 1 == |s.r.repm|;
    var k := s.r.repm[R_NODE];
    s.(d := s.d.(recv := s.d.recv + [s.r.repm[s.r.mux.sent]]),
       r := s.r.(mux := if last then MFree(k) else MOut(s.r.mux.sent + 1)),
       l := if last then Answered(s.l, k) else s.l)
  }

  function StepRouteGo(s: State): State
    requires Enabled(s, RouteGo)
  {
    s.(t := s.t.(route := RHdr(0), h := [], work1 := Run(s.t.route.n)),
       l := if s.l.p1.Routed? then s.l.(p1 := Running(s.l.p1.r)) else s.l)
  }

  /** One byte from route to TRAM 2. */
  function StepRouteFwd(s: State): State
    requires Enabled(s, RouteFwd)
  {
    var b := RouteByte(s.t)[s.t.route.sent];
    var last := s.t.route.sent + 1 == |RouteByte(s.t)|;
    State(s.d, s.r, s.t.(route := if last then RHdr(0) else RFwd(s.t.route.sent + 1), h := if last then [] else s.t.h),
          Tram2Takes(s.v, b),
          if last && s.l.p2.Routed? then s.l.(p2 := Running(s.l.p2.r)) else s.l)
  }

  function Tram2Takes(v: Tram2, b: byte): Tram2
    requires v.pc.VHdr? || v.pc.VPay?
  {
    match v.pc
    case VHdr(got) =>
      var h := v.hdr + [b];
      v.(hdr := h, inp := [],
         pc := if got + 1 < JOB_HDR then VHdr(got + 1) else if Len(h) > 0 then VPay(0) else VRun)
    case VPay(got) =>
      v.(inp := v.inp + [b], pc := if got + 1 == Len(v.hdr) then VRun else VPay(got + 1))
  }

  function StepWork1(s: State, rep: seq<byte>): State
    requires Enabled(s, Work1(rep))
  {
    s.(t := s.t.(work1 := Done, rep1 := rep),
       l := if s.l.p1.Running? then s.l.(p1 := Made(s.l.p1.r, rep)) else s.l)
  }

  function StepTake1(s: State): State
    requires Enabled(s, Take1)
  {
    s.(t := s.t.(work1 := Ready, mux1 := XOut1(0)),
       l := if s.l.p1.Made? then s.l.(p1 := Up(s.l.p1.r, s.l.p1.rep)) else s.l)
  }

  function StepMux1Pick(s: State): State
    requires Enabled(s, Mux1Pick)
  {
    s.(t := s.t.(mux1 := XHdr(0), repm := []))
  }

  /** One byte from TRAM 2 to mux1. */
  function StepMux1Byte(s: State): State
    requires Enabled(s, Mux1Byte)
  {
    var b := s.v.rep[s.v.pc.sent];
    var last := s.v.pc.sent + 1 == |s.v.rep|;
    var rep := s.t.repm + [b];
    var mux1 := if s.t.mux1.XHdr?
                then (if s.t.mux1.got + 1 < LREP_HDR then XHdr(s.t.mux1.got + 1)
                      else if OutLen(rep) > 0 then XBody(0) else XOut(0))
                else (if s.t.mux1.got + 1 == OutLen(s.t.repm) then XOut(0) else XBody(s.t.mux1.got + 1));
    s.(t := s.t.(repm := rep, mux1 := mux1),
       v := s.v.(pc := if last then VHdr(0) else VOut(s.v.pc.sent + 1), hdr := if last then [] else s.v.hdr),
       l := if last && s.l.p2.Made? then s.l.(p2 := Up(s.l.p2.r, s.l.p2.rep)) else s.l)
  }

  function StepWork2(s: State, rep: seq<byte>): State
    requires Enabled(s, Work2(rep))
  {
    s.(v := s.v.(pc := VOut(0), rep := rep),
       l := if s.l.p2.Running? then s.l.(p2 := Made(s.l.p2.r, rep)) else s.l)
  }

  function Step(s: State, a: Action): State
    requires Enabled(s, a)
  {
    match a
    case Ask(r) => StepAsk(s, r)
    case HostPick => s.(r := s.r.(host := HHdr(0), h := []))
    case HostHdr => StepHostHdr(s)
    case HostTake => StepHostTake(s)
    case HostAlloc(ok) => StepHostAlloc(s, ok)
    case HostPay => StepHostPay(s)
    case HostDrain => StepHostDrain(s)
    case HostGo => StepHostGo(s)
    case HostFwd => StepHostFwd(s)
    case Work0(rep) => StepWork0(s, rep)
    case Take0 => StepTake0(s)
    case Out0 => StepOut0(s)
    case Release => s.(r := s.r.(mux := MFree(0), rep0 := []))
    case FreeMsg => s.(r := s.r.(busy := s.r.busy - {s.r.mux.node}, mux := MAlt))
    case MuxPick => StepMuxPick(s)
    case MuxByte => StepMuxByte(s)
    case MuxOut => StepMuxOut(s)
    case RouteGo => StepRouteGo(s)
    case RouteFwd => StepRouteFwd(s)
    case Work1(rep) => StepWork1(s, rep)
    case Take1 => StepTake1(s)
    case Mux1Pick => StepMux1Pick(s)
    case Mux1Byte => StepMux1Byte(s)
    case Work2(rep) => StepWork2(s, rep)
  }
}
