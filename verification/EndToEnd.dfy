/** The network and the daemon together: what the transputers send is what the daemon hands to its clients. */
module EndToEnd {
  import opened Wire
  import opened Dispatcher
  import opened DispatcherInv
  import opened DispatcherTheorems
  import opened LinkParser
  import opened DaemonBooks
  import JobDaemon

  function Replies(answers: seq<Answer>): (r: seq<seq<byte>>)
    ensures |r| == |answers|
    ensures forall i :: 0 <= i < |answers| ==> r[i] == answers[i].rep
  {
    seq(|answers|, i requires 0 <= i < |answers| => answers[i].rep)
  }

  lemma {:induction false} FlatIsJoined(answers: seq<Answer>)
    ensures Flat(answers) == Joined(Replies(answers))
  {
    if answers != [] {
      FlatIsJoined(answers[..|answers| - 1]);
      assert Replies(answers)[..|answers| - 1] == Replies(answers[..|answers| - 1]);
    }
  }

  /** The reply now going out, and how much of it is out. */
  lemma PartialIsPrefix(s: State) returns (f: seq<byte>, cut: nat)
    requires Inv(s)
    ensures Whole(f) && cut < |f| && Partial(s.r.mux, s.r.rep0, s.r.repm) == f[..cut]
  {
    hide G4, LinkIn, Front, HoldBuf, GoBuf, LinkDown, LinkDown2, LinkUp, LinkUp2, Route1Ok, Route2Ok, Work1Ok, Work2Ok,
         Up1Ok, Up2Ok, BusyOk, DownOk, LedgerInv;
    if s.r.mux.MOut0? {
      f, cut := s.r.rep0, s.r.mux.sent;
    } else if s.r.mux.MOut? {
      f, cut := s.r.repm, s.r.mux.sent;
    } else {
      f, cut := EmptyReply(), 0;
    }
  }

  /** A whole reply under its request's id. */
  predicate Headed(a: Answer) { Whole(a.rep) && |a.r.hdr| == JOB_HDR && a.rep[..2] == a.r.hdr[..2] }

  function EmptyReply(): (f: seq<byte>)
    ensures Whole(f)
  {
    [0, 0, 0, 0, 0, 0, 0, 0, 0, 0, 0, 0, 0, 0, 0, 0]
  }

  /** In every run, splitting what the daemon has read gives exactly the answers so far, one whole reply each and in order,
      and no length in it is ever bad; each carries the id of its own request in its first two bytes. */
  lemma DaemonReadsTheAnswers(s0: State, acts: seq<Action>, s: State)
    requires Init(s0) && Reaches(s0, acts, s)
    ensures Parse(s.d.recv).frames == Replies(s.l.answers) && !Parse(s.d.recv).bad
    ensures forall i :: 0 <= i < |s.l.answers| ==>
              |s.l.answers[i].rep| >= LREP_HDR && |s.l.answers[i].r.hdr| == JOB_HDR
              && s.l.answers[i].rep[..2] == s.l.answers[i].r.hdr[..2]
  {
    hide RootInv, TramInv, Parse, G4;
    InitInv(s0);
    RunInv(s0, acts, s);
    StateReadsTheAnswers(s);
  }

  // ---- which request each answer is for ---------------------------------------------------------

  /** The requests at places not in used. */
  function Unused(asked: seq<Req>, used: set<nat>): multiset<Req> {
    if asked == [] then multiset{}
    else
      var n := |asked| - 1;
      Unused(asked[..n], used) + (if n in used then multiset{} else multiset{asked[n]})
  }

  lemma {:induction false} UnusedNone(asked: seq<Req>)
    ensures Unused(asked, {}) == multiset(asked)
  {
    if asked != [] {
      var n := |asked| - 1;
      UnusedNone(asked[..n]);
      assert asked == asked[..n] + [asked[n]];
    }
  }

  lemma {:induction false} UnusedTake(asked: seq<Req>, used: set<nat>, i: nat)
    requires i !in used
    ensures Unused(asked, used) == Unused(asked, used + {i}) + (if i < |asked| then multiset{asked[i]} else multiset{})
  {
    if asked != [] {
      var n := |asked| - 1;
      UnusedTake(asked[..n], used, i);
      var rest := Unused(asked[..n], used + {i});
      if i < n {
        assert n in used + {i} <==> n in used;
      }
    }
  }

  lemma {:induction false} UnusedFind(asked: seq<Req>, used: set<nat>, r: Req) returns (i: nat)
    requires r in Unused(asked, used)
    ensures i < |asked| && i !in used && asked[i] == r
  {
    var n := |asked| - 1;
    if n !in used && asked[n] == r {
      i := n;
    } else {
      i := UnusedFind(asked[..n], used, r);
    }
  }

  function Places(idx: seq<nat>): set<nat> { set k | 0 <= k < |idx| :: idx[k] }

  /** idx names a place of its own for the request of each of the first |idx| answers. */
  predicate Assigned(idx: seq<nat>, asked: seq<Req>, answers: seq<Answer>) {
    && |idx| <= |answers|
    && (forall k :: 0 <= k < |idx| ==> idx[k] < |asked| && asked[idx[k]] == answers[k].r)
    && (forall j, k :: 0 <= j < k < |idx| ==> idx[j] != idx[k])
  }

  lemma {:induction false} Cover(idx: seq<nat>, asked: seq<Req>, answers: seq<Answer>, a: nat)
    requires Assigned(idx, asked, answers) && a <= |asked|
    ensures multiset(asked[..a]) <= Unused(asked[..a], Places(idx)) + Reqs(answers[..|idx|])
  {
    hide Unused;
    if idx == [] {
      assert Places(idx) == {};
      UnusedNone(asked[..a]);
    } else {
      var n := |idx| - 1;
      var init := idx[..n];
      Cover(init, asked, answers, a);
      PlacesSnoc(idx);
      UnusedTake(asked[..a], Places(init), idx[n]);
      assert answers[..|idx|][..n] == answers[..n];
    }
  }

  lemma PlacesSnoc(idx: seq<nat>)
    requires idx != [] && forall j :: 0 <= j < |idx| - 1 ==> idx[j] != idx[|idx| - 1]
    ensures Places(idx) == Places(idx[..|idx| - 1]) + {idx[|idx| - 1]} && idx[|idx| - 1] !in Places(idx[..|idx| - 1])
  {
    var n := |idx| - 1;
    forall x | x in Places(idx) ensures x in Places(idx[..n]) + {idx[n]} {
      var k :| 0 <= k < |idx| && idx[k] == x;
      assert k < n ==> idx[..n][k] == x;
    }
    forall x | x in Places(idx[..n]) ensures x in Places(idx) {
      var k :| 0 <= k < n && idx[..n][k] == x;
      assert idx[k] == x;
    }
    assert idx[n] in Places(idx);
  }

  lemma ReqsSnoc(answers: seq<Answer>, k: nat)
    requires k < |answers|
    ensures Reqs(answers[..k + 1]) == Reqs(answers[..k]) + multiset{answers[k].r}
  {
    assert answers[..k + 1][..k] == answers[..k];
  }

  /** A place for the next answer. */
  lemma NextPlace(idx: seq<nat>, asked: seq<Req>, answers: seq<Answer>, a: nat) returns (i: nat)
    requires Assigned(idx, asked, answers) && |idx| < |answers| && a <= |asked|
    requires Reqs(answers[..|idx| + 1]) <= multiset(asked[..a])
    ensures i < a && asked[i] == answers[|idx|].r && Assigned(idx + [i], asked, answers)
  {
    hide Unused, Reqs;
    Cover(idx, asked, answers, a);
    ReqsSnoc(answers, |idx|);
    InRest(multiset(asked[..a]), Unused(asked[..a], Places(idx)), Reqs(answers[..|idx|]), answers[|idx|].r);
    i := UnusedFind(asked[..a], Places(idx), answers[|idx|].r);
    forall j | 0 <= j < |idx| ensures idx[j] != i {
      assert idx[j] in Places(idx);
    }
  }

  /** Each answer can be given a place of its own among the requests that had been asked when it was read. */
  lemma {:induction false} Assign(asked: seq<Req>, answers: seq<Answer>, bounds: seq<nat>, n: nat) returns (idx: seq<nat>)
    requires n <= |bounds| && n <= |answers|
    requires forall k :: 0 <= k < n ==> bounds[k] <= |asked| && Reqs(answers[..k + 1]) <= multiset(asked[..bounds[k]])
    ensures |idx| == n && Assigned(idx, asked, answers) && forall k :: 0 <= k < n ==> idx[k] < bounds[k]
    decreases n
  {
    hide Reqs, Assigned;
    if n == 0 {
      idx := [];
      NothingAssigned(asked, answers);
    } else {
      var init := Assign(asked, answers, bounds, n - 1);
      assert Reqs(answers[..(n - 1) + 1]) <= multiset(asked[..bounds[n - 1]]);
      var i := NextPlace(init, asked, answers, bounds[n - 1]);
      idx := init + [i];
    }
  }

  lemma NothingAssigned(asked: seq<Req>, answers: seq<Answer>)
    ensures Assigned([], asked, answers)
  {
  }

  lemma InRest(all: multiset<Req>, rest: multiset<Req>, done: multiset<Req>, r: Req)
    requires all <= rest + done && done + multiset{r} <= all
    ensures r in rest
  {
    assert (done + multiset{r})[r] <= all[r] <= (rest + done)[r];
  }

  // ---- answers only accumulate -------------------------------------------------------------------

  lemma StepAnswers(s: State, a: Action)
    requires Enabled(s, a)
    ensures s.l.answers <= Step(s, a).l.answers
  {
  }

  lemma {:induction false} RunAnswers(s: State, acts: seq<Action>, t: State)
    requires Reaches(s, acts, t)
    ensures s.l.answers <= t.l.answers
    decreases |acts|
  {
    if acts != [] {
      StepAnswers(s, acts[0]);
      RunAnswers(Step(s, acts[0]), acts[1..], t);
    }
  }

  // ---- what the clients get ----------------------------------------------------------------------

  /** The network's state when the daemon took reply k of this boot, or at the start. */
  function Before(s0: State, net: seq<State>, k: int): State
    requires k <= |net|
  {
    if k <= 0 then s0 else net[k - 1]
  }

  /** One run of the network fed the daemon: net[k] is its state when the daemon took its k-th reply since the boot; by then
      it had been asked just what the daemon had written, and s is its state now. */
  predicate Fed(h: JobDaemon.History, s0: State, segs: seq<seq<Action>>, net: seq<State>, s: State) {
    && Init(s0) && h.since <= |h.replies| && |net| == |h.replies| - h.since && |segs| == |net| + 1
    && (forall k :: 0 <= k < |net| ==> Reaches(Before(s0, net, k), segs[k], net[k]))
    && Reaches(Before(s0, net, |net|), segs[|net|], s)
    && (forall k :: 0 <= k < |net| ==> FedAt(h, net[k], k))
    && h.link <= s.d.recv
  }

  /** How much the daemon had written when it took reply k. */
  function Bound(h: JobDaemon.History, k: nat): int {
    if h.since + k < |h.replies| then h.replies[h.since + k].when - h.start else 0
  }

  predicate FedAt(h: JobDaemon.History, u: State, k: nat) {
    && h.since + k < |h.replies| && 0 <= Bound(h, k) <= |h.wrote|
    && u.l.asked == h.wrote[..Bound(h, k)] && |u.l.answers| > k
  }

  lemma {:induction false} NetStates(h: JobDaemon.History, s0: State, segs: seq<seq<Action>>, net: seq<State>, s: State, k: nat)
    requires Fed(h, s0, segs, net, s) && k <= |net|
    ensures Inv(Before(s0, net, k))
    decreases k
  {
    hide Inv, Init, FedAt, Reaches;
    InitInv(s0);
    if k > 0 {
      NetStates(h, s0, segs, net, s, k - 1);
      RunInv(Before(s0, net, k - 1), segs[k - 1], net[k - 1]);
    }
  }

  lemma {:induction false} NetAnswers(h: JobDaemon.History, s0: State, segs: seq<seq<Action>>, net: seq<State>, s: State, k: nat)
    requires Fed(h, s0, segs, net, s) && k <= |net|
    ensures Before(s0, net, k).l.answers <= s.l.answers
    decreases |net| - k
  {
    hide Init, FedAt, Reaches;
    if k == |net| {
      RunAnswers(Before(s0, net, k), segs[k], s);
    } else {
      RunAnswers(Before(s0, net, k), segs[k], net[k]);
      NetAnswers(h, s0, segs, net, s, k + 1);
    }
  }

  /** The requests of the first k + 1 answers had been asked when the daemon took reply k. */
  lemma AskedBefore(h: JobDaemon.History, s0: State, segs: seq<seq<Action>>, net: seq<State>, s: State, k: nat)
    requires Fed(h, s0, segs, net, s) && k < |net|
    ensures |s.l.answers| > k && h.since + k < |h.replies| && 0 <= Bound(h, k) <= |h.wrote|
    ensures Reqs(s.l.answers[..k + 1]) <= multiset(h.wrote[..Bound(h, k)])
  {
    hide Inv, Init, Reaches, Reqs, Bound;
    NetStates(h, s0, segs, net, s, k + 1);
    NetAnswers(h, s0, segs, net, s, k + 1);
    assert FedAt(h, net[k], k);
    assert Before(s0, net, k + 1) == net[k];
    AskedAt(net[k], s.l.answers, k);
  }

  lemma AskedAt(u: State, answers: seq<Answer>, k: nat)
    requires Inv(u) && k < |u.l.answers| && u.l.answers <= answers
    ensures k < |answers| && Reqs(answers[..k + 1]) <= multiset(u.l.asked)
  {
    hide Inv, Reqs;
    AnswersAsked(u);
    assert u.l.answers[..k + 1] == answers[..k + 1];
    ReqsPrefix(u.l.answers, k + 1);
  }

  lemma AnswersAsked(s: State)
    requires Inv(s)
    ensures Reqs(s.l.answers) <= multiset(s.l.asked)
  {
    hide RootInv, TramInv, Stream, AllGood, Reqs;
  }

  lemma {:induction false} ReqsPrefix(answers: seq<Answer>, k: nat)
    requires k <= |answers|
    ensures Reqs(answers[..k]) <= Reqs(answers)
    decreases |answers|
  {
    if k < |answers| {
      var n := |answers| - 1;
      ReqsPrefix(answers[..n], k);
      assert answers[..n][..k] == answers[..k];
    } else {
      assert answers[..k] == answers;
    }
  }

  /** The replies the daemon took are the network's first answers. */
  lemma TakenAreAnswers(h: JobDaemon.History, got: seq<byte>, s0: State, segs: seq<seq<Action>>, net: seq<State>, s: State)
    requires Fed(h, s0, segs, net, s) && h.stale == [] && JobDaemon.Received(got, h.stale, h.link, h.replies, h.since)
    ensures |net| <= |s.l.answers|
    ensures forall k :: 0 <= k < |net| ==> h.replies[h.since + k].frame == s.l.answers[k].rep
    ensures forall k :: 0 <= k < |s.l.answers| ==> Headed(s.l.answers[k])
  {
    hide Parse, Inv, Init, G4, FedAt, Headed;
    NetStates(h, s0, segs, net, s, |net|);
    RunInv(Before(s0, net, |net|), segs[|net|], s);
    StateReadsTheAnswers(s);
    assert [] + h.link == h.link;
    SameStart(h.link, s.d.recv, JobDaemon.Frames(h.replies, h.since), Replies(s.l.answers));
    forall k | 0 <= k < |net| ensures h.replies[h.since + k].frame == s.l.answers[k].rep {
      assert JobDaemon.Frames(h.replies, h.since)[k] == h.replies[h.since + k].frame;
    }
  }

  /** What was read first is what comes first. */
  lemma SameStart(link: seq<byte>, recv: seq<byte>, fs: seq<seq<byte>>, all: seq<seq<byte>>)
    requires link <= recv && !Parse(link).bad && Parse(link).frames == fs && Parse(recv).frames == all
    ensures fs <= all
  {
    hide Parse;
    assert recv == link + recv[|link|..];
    ParseMore(link, recv[|link|..]);
  }

  /** Every answer that the network has made and the daemon has taken is for a request that the daemon wrote from a job's
      own submission, and it went to the connection that submitted that job: its output holds the answer once, under the
      client's id and without the node byte, unless the connection was gone. */
  lemma ClientsGetTheirAnswers(t: JobDaemon.Tables, h: JobDaemon.History, got: seq<byte>,
                               s0: State, segs: seq<seq<Action>>, net: seq<State>, s: State) returns (meant: seq<nat>)
    requires JobDaemon.Sound(t, h) && t.up && JobDaemon.Received(got, h.stale, h.link, h.replies, h.since) && h.stale == []
    requires Fed(h, s0, segs, net, s) && JobDaemon.Prompt(h.replies, h.since)
    ensures |meant| == |net| <= |s.l.answers|
    ensures forall k :: 0 <= k < |net| ==> Served(t, h, s.l.answers[k], meant[k], h.since + k)
  {
    hide JobDaemon.Sound, JobDaemon.Received, JobDaemon.Prompt, Parse, G4, Fed, Reqs;
    TakenAreAnswers(h, got, s0, segs, net, s);
    var bounds := Bounds(h, s0, segs, net, s);
    var idx := Assign(h.wrote, s.l.answers, bounds, |net|);
    meant := seq(|net|, k requires 0 <= k < |net| => h.start + idx[k] + 1);
    MeantOk(t, h, s0, segs, net, s, idx, meant);
    forall k | 0 <= k < |net| ensures Served(t, h, s.l.answers[k], meant[k], h.since + k) {
      JobDaemon.ReplyReachesItsJob(t, h, meant, k);
      WroteIs(t, h, idx[k]);
    }
  }

  /** Answer a is for the n-th send, and what came of it. */
  predicate Served(t: JobDaemon.Tables, h: JobDaemon.History, a: Answer, n: nat, from: nat) {
    && h.start < n <= |h.order| && n - h.start - 1 < |h.wrote| && a.r == h.wrote[n - h.start - 1]
    && var id := h.order[n - 1];
       && id < |h.owner| == |h.cids| && id < |h.subs| && StampOf(a.r, h.subs[id], n % WIDS)
       && (|| (id in h.dropped && NotOpen(t.cl, h.conn, h.owner[id]))
           || GivenTo(h.log, h.owner[id], h.cids[id], a.rep, from))
       && (forall m :: 0 <= m < |h.log| && h.log[m].from == from ==> h.log[m].conn == h.owner[id])
  }

  predicate GivenTo(log: seq<Entry>, conn: int, cid: int, rep: seq<byte>, from: nat) {
    && 0 <= cid < 65536 && |rep| >= LREP_HDR
    && exists m :: 0 <= m < |log| && log[m].from == from && log[m].conn == conn && log[m].frame == ClientFrame(rep, cid)
  }

  lemma Bounds(h: JobDaemon.History, s0: State, segs: seq<seq<Action>>, net: seq<State>, s: State) returns (bounds: seq<nat>)
    requires Fed(h, s0, segs, net, s)
    ensures |bounds| == |net| <= |s.l.answers| && h.since + |net| == |h.replies|
    ensures forall k :: 0 <= k < |net| ==> bounds[k] == Bound(h, k) && bounds[k] <= |h.wrote|
    ensures forall k :: 0 <= k < |net| ==> Reqs(s.l.answers[..k + 1]) <= multiset(h.wrote[..bounds[k]])
  {
    hide Inv, Init, Reqs, Reaches, Bound;
    forall k | 0 <= k < |net| ensures 0 <= Bound(h, k) <= |h.wrote| {
      assert FedAt(h, net[k], k);
    }
    bounds := seq(|net|, k requires 0 <= k < |net| => Bound(h, k));
    forall k | 0 <= k < |net|
      ensures |s.l.answers| > k && Reqs(s.l.answers[..k + 1]) <= multiset(h.wrote[..bounds[k]])
    {
      AskedBefore(h, s0, segs, net, s, k);
    }
    if |net| > 0 {
      AskedBefore(h, s0, segs, net, s, |net| - 1);
    }
  }

  lemma WroteIs(t: JobDaemon.Tables, h: JobDaemon.History, m: nat)
    requires JobDaemon.Sound(t, h) && t.up && m < |h.wrote|
    ensures h.start + |h.wrote| == |h.order| && WroteAt(h.wrote[m], h.order, h.subs, h.start + m)
  {
    hide JobDaemon.Clients, JobDaemon.Work, JobDaemon.Balanced, Chronicle, Told, OpenOk, StampOf;
  }

  lemma MeantOk(t: JobDaemon.Tables, h: JobDaemon.History, s0: State, segs: seq<seq<Action>>, net: seq<State>, s: State,
                idx: seq<nat>, meant: seq<nat>)
    requires JobDaemon.Sound(t, h) && t.up && Fed(h, s0, segs, net, s) && |idx| == |meant| == |net| <= |s.l.answers|
    requires Assigned(idx, h.wrote, s.l.answers)
    requires forall k :: 0 <= k < |net| ==> idx[k] < Bound(h, k) && meant[k] == h.start + idx[k] + 1
    requires forall k :: 0 <= k < |net| ==> h.replies[h.since + k].frame == s.l.answers[k].rep
    requires forall k :: 0 <= k < |s.l.answers| ==> Headed(s.l.answers[k])
    ensures JobDaemon.Meant(meant, h.replies, h.since, h.start)
  {
    hide JobDaemon.Sound, Init, G4, Inv, Reaches, JobDaemon.MeantAt, FedAt, Headed, Bound;
    forall k | 0 <= k < |meant| ensures JobDaemon.MeantAt(meant[k], h.replies[h.since + k], h.start) {
      WroteIs(t, h, idx[k]);
      MeantOne(h, idx[k], s.l.answers[k], k);
    }
  }

  lemma MeantOne(h: JobDaemon.History, m: nat, a: Answer, k: nat)
    requires h.since + k < |h.replies| && m < Bound(h, k) && m < |h.wrote| && h.wrote[m] == a.r && Headed(a)
    requires h.replies[h.since + k].frame == a.rep && WroteAt(h.wrote[m], h.order, h.subs, h.start + m)
    ensures JobDaemon.MeantAt(h.start + m + 1, h.replies[h.since + k], h.start)
  {
    hide G4;
    assert a.rep[..2][0] == a.r.hdr[..2][0] && a.rep[..2][1] == a.r.hdr[..2][1];
  }

  lemma StateReadsTheAnswers(s: State)
    requires Inv(s)
    ensures Parse(s.d.recv).frames == Replies(s.l.answers) && !Parse(s.d.recv).bad
    ensures forall i :: 0 <= i < |s.l.answers| ==> Headed(s.l.answers[i])
  {
    hide RootInv, TramInv, Parse, G4;
    var f, cut := PartialIsPrefix(s);
    FlatIsJoined(s.l.answers);
    forall i | 0 <= i < |s.l.answers|
      ensures Headed(s.l.answers[i])
    {
      assert GoodAnswer(s.l.answers[i]);
    }
    ParseJoined(Replies(s.l.answers), f, cut);
  }
}
