/** The job daemon (sam-job-tt/ttjobd.c).  Socket writes, allocation, booting and the link may go any way they can: a World
    says how each of them goes.  The functions named After... say what each step makes of the daemon's variables, whatever
    the World; the methods are the steps. */
module JobDaemon {
  import opened Wire
  import opened DaemonBooks
  import opened LinkParser
  import Adler
  import Scheduler

  const OP_LEASE := 76      // 'L'
  const OP_CAPS := 75       // 'K'
  const REBOOT_RETRY_S := 60

  // ---- small facts about the clauses -----------------------------------------------------------

  lemma OwnedOrphan(js: seq<Job>, cl: seq<int>, conn: seq<int>, owner: seq<int>, cids: seq<int>, i: nat)
    requires Owned(js, cl, conn, owner, cids) && i < |cl|
    requires forall k :: 0 <= k < |cl| && k != i && cl[i] >= 0 ==> cl[k] != cl[i]
    ensures Owned(Orphan(js, cl[i]), cl[i := -1], conn, owner, cids)
  {
    var r := Orphan(js, cl[i]);
    forall q | 0 <= q < |r| ensures OwnedJob(r[q], cl[i := -1], owner, cids) {
      assert OwnedJob(js[q], cl, owner, cids);
      if r[q].fd >= 0 {
        var k :| 0 <= k < |cl| && cl[k] == r[q].fd;
        assert cl[i := -1][k] == r[q].fd;
      }
    }
  }

  lemma QuotaOrphan(cl: seq<int>, queue: seq<Job>, inflight: seq<Job>, i: nat)
    requires i < |cl| && Quota(cl, queue, inflight) && (cl[i] >= 0 || cl[i] == -1)
    ensures Quota(cl[i := -1], Orphan(queue, cl[i]), Orphan(inflight, cl[i]))
  {
    if cl[i] >= 0 {
      forall k | 0 <= k < |cl| && cl[i := -1][k] >= 0
        ensures Count(Orphan(queue, cl[i]), cl[k]) + Count(Orphan(inflight, cl[i]), cl[k]) <= CLIENT_MAX_JOBS
      {
        OrphanCount(queue, cl[i], cl[k]);
        OrphanCount(inflight, cl[i], cl[k]);
      }
    } else {
      OrphanSame(queue);
      OrphanSame(inflight);
    }
  }

  lemma OrphanSame(js: seq<Job>)
    ensures Orphan(js, -1) == js
  {
  }

  lemma OutputClose(log: seq<Entry>, cl: seq<int>, conn: seq<int>, broken: set<int>, sent: seq<seq<byte>>, oq: seq<seq<Chunk>>, i: nat)
    requires Output(log, cl, conn, broken, sent, oq) && i < |cl|
    ensures Output(log, cl[i := -1], conn, broken, sent, oq[i := []])
  {
  }

  lemma GoneClose(dropped: multiset<nat>, cl: seq<int>, conn: seq<int>, owner: seq<int>, i: nat)
    requires Gone(dropped, cl, conn, owner) && i < |cl|
    ensures Gone(dropped, cl[i := -1], conn, owner)
  {
  }

  lemma GoneMore(dropped: multiset<nat>, cl: seq<int>, conn: seq<int>, owner: seq<int>, o: int)
    requires Gone(dropped, cl, conn, owner)
    ensures Gone(dropped, cl, conn, owner + [o])
  {
  }

  lemma SlotsClose(cl: seq<int>, conn: seq<int>, nextConn: nat, i: nat)
    requires Slots(cl, conn, nextConn) && i < |cl|
    ensures Slots(cl[i := -1], conn, nextConn)
  {
  }

  lemma NodesOrphan(inflight: seq<Job>, busy: seq<bool>, fd: int)
    requires Nodes(inflight, busy)
    ensures Nodes(Orphan(inflight, fd), busy)
  {
    var r := Orphan(inflight, fd);
    forall k | 0 <= k < NODES && busy[k] ensures On(r, k) {
      assert On(inflight, k);
      var i :| 0 <= i < |inflight| && inflight[i].node == k;
      assert r[i].node == k;
    }
  }

  lemma WidsOrphan(inflight: seq<Job>, sends: nat, nextwid: int, fd: int)
    requires Wids(inflight, sends, nextwid)
    ensures Wids(Orphan(inflight, fd), sends, nextwid)
  {
  }

  // A new job number, with its owner and the client's id.

  lemma OwnedMore(js: seq<Job>, cl: seq<int>, conn: seq<int>, owner: seq<int>, cids: seq<int>, o: int, c: int)
    requires Owned(js, cl, conn, owner, cids)
    ensures Owned(js, cl, conn, owner + [o], cids + [c])
  {
  }

  lemma OwnedSnoc(js: seq<Job>, j: Job, cl: seq<int>, conn: seq<int>, owner: seq<int>, cids: seq<int>)
    requires Owned(js, cl, conn, owner, cids) && OwnedJob(j, cl, owner, cids)
    requires forall i :: 0 <= i < |cl| && cl[i] >= 0 ==> (cl[i] == j.fd <==> conn[i] == owner[j.id])
    ensures Owned(js + [j], cl, conn, owner, cids)
  {
  }

  lemma LogMore(log: seq<Entry>, owner: seq<int>, cids: seq<int>, nextConn: nat, order: seq<nat>, replies: seq<Reply>, o: int, c: int)
    requires LogOk(log, owner, cids, nextConn, order, replies) && |owner| == |cids|
    ensures LogOk(log, owner + [o], cids + [c], nextConn, order, replies)
  {
    hide StatusFrame, ClientFrame, Wid;
  }

  /** Later sends and replies do not change what was answered before. */
  lemma LogGrows(log: seq<Entry>, owner: seq<int>, cids: seq<int>, nextConn: nat, order: seq<nat>, replies: seq<Reply>,
                 order': seq<nat>, replies': seq<Reply>)
    requires LogOk(log, owner, cids, nextConn, order, replies) && order <= order' && replies <= replies'
    ensures LogOk(log, owner, cids, nextConn, order', replies')
  {
    hide StatusFrame, ClientFrame, Wid;
    forall i | 0 <= i < |log| ensures EntryOk(log[i], owner, cids, nextConn, order', replies') {
      assert EntryOk(log[i], owner, cids, nextConn, order, replies);
    }
  }

  lemma QuotaSnoc(cl: seq<int>, queue: seq<Job>, inflight: seq<Job>, j: Job)
    requires Quota(cl, queue, inflight)
    requires j.fd >= 0 ==> Count(queue, j.fd) + Count(inflight, j.fd) < CLIENT_MAX_JOBS
    ensures Quota(cl, queue + [j], inflight)
  {
  }

  lemma BooksAdmit(n: nat, queue: seq<Job>, j: Job, i: multiset<nat>, a: multiset<nat>, d: multiset<nat>, l: multiset<nat>)
    requires Books(n, Ids(queue), i, a, d, l) && j.id == n
    ensures Books(n + 1, Ids(queue + [j]), i, a, d, l)
  {
    hide Ids;
    IdsSnoc(queue, j);
  }

  // A socket takes r more bytes of the first reply queued for slot i.

  function Written(q: seq<Chunk>, r: nat): seq<Chunk>
    requires |q| > 0
  {
    if q[0].off + r == |q[0].d| then q[1..] else [q[0].(off := q[0].off + r)] + q[1..]
  }

  lemma PendingFirst(c: Chunk, q: seq<Chunk>)
    requires c.off <= |c.d|
    ensures Pending([c] + q) == c.d[c.off..] + Pending(q)
  {
    assert ([c] + q)[1..] == q;
  }

  lemma WrittenFresh(q: seq<Chunk>, r: nat)
    requires |q| > 0 && Fresh(q) && 1 <= r <= |q[0].d| - q[0].off
    ensures Fresh(Written(q, r))
  {
  }

  lemma PendingHead(q: seq<Chunk>)
    requires |q| > 0 && q[0].off <= |q[0].d|
    ensures Pending(q) == q[0].d[q[0].off..] + Pending(q[1..])
  {
  }

  lemma WrittenPending(q: seq<Chunk>, r: nat)
    requires |q| > 0 && 1 <= r <= |q[0].d| - q[0].off
    ensures Pending(q) == q[0].d[q[0].off..q[0].off + r] + Pending(Written(q, r))
  {
    hide Pending;
    PendingHead(q);
    if q[0].off + r < |q[0].d| {
      PendingFirst(q[0].(off := q[0].off + r), q[1..]);
      SplitAt(q[0].d, q[0].off, q[0].off + r, Pending(q[1..]));
    }
  }

  lemma SplitAt(d: seq<byte>, a: nat, b: nat, rest: seq<byte>)
    requires a <= b <= |d|
    ensures d[a..] + rest == d[a..b] + (d[b..] + rest)
  {
    assert d[a..] == d[a..b] + d[b..];
  }

  lemma OutputWritten(log: seq<Entry>, cl: seq<int>, conn: seq<int>, broken: set<int>, sent: seq<seq<byte>>, oq: seq<seq<Chunk>>, i: nat, r: nat)
    requires Output(log, cl, conn, broken, sent, oq) && i < |cl|
    requires |oq[i]| > 0 && oq[i][0].off <= |oq[i][0].d| && 1 <= r <= |oq[i][0].d| - oq[i][0].off
    ensures var c := oq[i][0];
            Output(log, cl, conn, broken, sent[i := sent[i] + c.d[c.off..c.off + r]], oq[i := Written(oq[i], r)])
  {
    hide Given, Pending, Written;
    var c, q := oq[i][0], oq[i];
    WrittenFresh(q, r);
    WrittenPending(q, r);
    assert sent[i] + (c.d[c.off..c.off + r] + Pending(Written(q, r)))
        == (sent[i] + c.d[c.off..c.off + r]) + Pending(Written(q, r));
  }

  lemma OutputBroken(log: seq<Entry>, cl: seq<int>, conn: seq<int>, broken: set<int>, sent: seq<seq<byte>>, oq: seq<seq<Chunk>>, i: nat)
    requires Output(log, cl, conn, broken, sent, oq) && i < |cl|
    ensures Output(log, cl, conn, broken + {conn[i]}, sent, oq[i := []])
  {
  }

  function Size(q: seq<Chunk>): nat {
    if q == [] then 0 else (if q[0].off <= |q[0].d| then |q[0].d| - q[0].off else 0) + Size(q[1..])
  }

  lemma WrittenSize(q: seq<Chunk>, r: nat)
    requires |q| > 0 && q[0].off < |q[0].d| && 1 <= r <= |q[0].d| - q[0].off
    ensures Size(Written(q, r)) < Size(q)
  {
  }

  // A frame is queued for slot i.

  lemma OutputGive(log: seq<Entry>, cl: seq<int>, conn: seq<int>, broken: set<int>, sent: seq<seq<byte>>, oq: seq<seq<Chunk>>,
                   nextConn: nat, i: nat, e: Entry)
    requires Output(log, cl, conn, broken, sent, oq) && Slots(cl, conn, nextConn) && i < |cl| && cl[i] >= 0 && e.conn == conn[i] && |e.frame| > 0
    ensures Output(log + [e], cl, conn, broken, sent, oq[i := oq[i] + [Chunk(e.frame, 0)]])
  {
    hide Given, Pending;
    var b := e.frame;
    var log', oq' := log + [e], oq[i := oq[i] + [Chunk(b, 0)]];
    forall k | 0 <= k < |cl| && cl[k] >= 0 && conn[k] !in broken ensures Given(log', conn[k]) == sent[k] + Pending(oq'[k]) {
      LogSnoc(log, e, conn[k]);
      if k == i {
        PendingSnoc(oq[i], b);
        assert sent[i] + (Pending(oq[i]) + b) == (sent[i] + Pending(oq[i])) + b;
      } else {
        assert conn[k] != conn[i];
      }
    }
    forall k | 0 <= k < |oq'| ensures Fresh(oq'[k]) {
      assert Fresh(oq[k]);
    }
  }

  lemma LogGive(log: seq<Entry>, owner: seq<int>, cids: seq<int>, nextConn: nat, order: seq<nat>, replies: seq<Reply>, e: Entry)
    requires LogOk(log, owner, cids, nextConn, order, replies) && EntryOk(e, owner, cids, nextConn, order, replies)
    ensures LogOk(log + [e], owner, cids, nextConn, order, replies)
  {
    hide EntryOk;
  }

  /** No job belongs to a descriptor that no slot has. */
  lemma NobodyThere(js: seq<Job>, cl: seq<int>, conn: seq<int>, owner: seq<int>, cids: seq<int>, fd: int)
    requires Owned(js, cl, conn, owner, cids) && (fd < 0 || fd !in cl)
    ensures Orphan(js, fd) == js
  {
  }

  /** A boot begins a new stream behind whatever was left in the buffer; rgot = 0 begins one behind nothing. */
  lemma ReceivedBoot(got: seq<byte>, stale: seq<byte>, link: seq<byte>, replies: seq<Reply>, since: nat)
    requires Received(got, stale, link, replies, since)
    ensures Received(got, got, [], replies, |replies|) && Received([], [], [], replies, |replies|)
  {
    assert got + [] == got;
    assert Parse(got) == Parsed([], got, false);
  }

  type Flags = s: seq<bool> | |s| == NODES witness [false, false, false]                          // per node
  type Descriptors = s: seq<int> | |s| == MAXCL witness [-1, -1, -1, -1, -1, -1, -1, -1]          // per client
  type Outputs = s: seq<seq<Chunk>> | |s| == MAXCL witness [[], [], [], [], [], [], [], []]       // per client

  /** The daemon's static variables, and what its two clocks read. */
  datatype Tables = Tables(
    queue: seq<Job>, inflight: seq<Job>, busy: Flags, absent: Flags, up: bool, leased: int, downSince: int,
    nextwid: int, bigMax: int, end0: int, cl: Descriptors, oq: Outputs,
    clock: int, secs: int,                     // clock() and time()
    admitted: nat, sends: nat, allocs: nat, writes: nat, boots: nat)   // these only number what the World is asked

  /** What has happened, never read by the daemon. */
  datatype History = History(
    conn: seq<int>, nextConn: nat,             // per slot: its connection's number
    broken: set<int>,                          // connections whose socket failed
    sent: seq<seq<byte>>,                      // per slot: the bytes its socket has taken
    owner: seq<int>, cids: seq<int>,           // per job: the connection that submitted it (-1: the daemon), the client's id
    subs: seq<seq<byte>>,                      // per job: header and payload as submitted
    answered: multiset<nat>,
    dropped: multiset<nat>,                    // finished with no client left to tell
    lost: multiset<nat>,                       // freed by a failed link write
    log: seq<Entry>,
    order: seq<nat>,                           // the jobs in order of sending
    start: nat, wrote: seq<Req>,               // sends before the last boot, and the requests written since
    stale: seq<byte>, link: seq<byte>,         // what that boot found half-read, and what has been read since
    replies: seq<Reply>, since: nat)           // every whole reply taken, and how many were before that boot

  predicate Clients(t: Tables, h: History) {
    && Slots(t.cl, h.conn, h.nextConn) && |h.owner| == |h.cids| == t.admitted
    && Owned(t.queue, t.cl, h.conn, h.owner, h.cids)
    && Owned(t.inflight, t.cl, h.conn, h.owner, h.cids)
    && Quota(t.cl, t.queue, t.inflight)
    && LogOk(h.log, h.owner, h.cids, h.nextConn, h.order, h.replies)
    && Output(h.log, t.cl, h.conn, h.broken, h.sent, t.oq)
    && Gone(h.dropped, t.cl, h.conn, h.owner)
    && Known(h.owner, h.nextConn)
  }

  predicate Work(t: Tables) {
    && Nodes(t.inflight, t.busy)
    && Wids(t.inflight, t.sends, t.nextwid)
    && |t.queue| <= QMAX
    && !t.absent[0]
    && JOB_MAX <= t.bigMax <= JOB_BIG
  }

  predicate Mode(t: Tables) {
    && -1 <= t.leased < MAXCL
    && (t.leased >= 0 ==> !t.up && t.downSince == 0)
    && (!t.up ==> t.queue == [] && t.inflight == [])
  }

  predicate Balanced(t: Tables, h: History) {
    Books(|h.owner|, Ids(t.queue), Ids(t.inflight), h.answered, h.dropped, h.lost) && LogIds(h.log) == h.answered
  }

  /** Sends, replies and answers fit together. */
  predicate Traced(t: Tables, h: History) {
    && OrderOk(h.order, t.sends, t.inflight)
    && Chronicle(h.replies, h.since, h.start, t.sends)
    && (t.up ==> OpenOk(t.inflight, h.start, t.sends, h.replies, h.since) && WroteOk(h.wrote, h.start, h.order, h.subs))
    && Told(h.log, h.dropped, h.order, h.replies)
    && |h.subs| == |h.owner| && Unsent(t.queue, h.subs)
  }

  /** Everything but the reply buffer. */
  predicate Sound(t: Tables, h: History) { Clients(t, h) && Work(t) && Mode(t) && Balanced(t, h) && Traced(t, h) }

  function Frames(replies: seq<Reply>, since: nat): (fs: seq<seq<byte>>)
    requires since <= |replies|
    ensures |fs| == |replies| - since
  {
    seq(|replies| - since, k requires 0 <= k < |replies| - since => replies[since + k].frame)
  }

  /** Parsing all that was read since the last boot, behind what that boot found half-read, gives the replies taken since
      then; the buffer holds the unfinished rest, never a whole frame or one of impossible length. */
  predicate Received(got: seq<byte>, stale: seq<byte>, link: seq<byte>, replies: seq<Reply>, since: nat) {
    && !BadLength(got) && |got| < FrameLen(got) && since <= |replies|
    && Parse(stale + link) == Parsed(Frames(replies, since), got, false)
  }

  /** The reply buffer: rbuf and rgot. */
  class Receiver {
    const rbuf: array<byte>
    var rgot: nat
    ghost var Got: seq<byte>

    ghost predicate Valid()
      reads this, rbuf
    {
      rbuf.Length == LREP_HDR + JOB_BIG && rgot <= rbuf.Length && rbuf[..rgot] == Got
    }

    constructor ()
      ensures Valid() && fresh(rbuf) && Got == []
    {
      rbuf := new byte[LREP_HDR + JOB_BIG];
      rgot := 0;
      Got := [];
    }

    method Reset()
      requires Valid()
      modifies `rgot, `Got
      ensures Valid() && Got == []
    {
      rgot := 0;
      Got := [];
    }

    /** How many bytes the current frame still lacks; negative lengths have been refused before. */
    method Want() returns (want: int)
      requires Valid() && !BadLength(Got)
      ensures want == FrameLen(Got) - |Got|
    {
      if rgot < LREP_HDR {
        want := LREP_HDR - rgot;
      } else {
        Field(3);
        want := LREP_HDR + G4(rbuf[..rgot], 3) - rgot;
      }
    }

    lemma Field(o: nat)
      requires Valid() && o + 4 <= rgot
      ensures G4(rbuf[..rgot], o) == G4(Got, o)
    {
    }

    /** link_read_some put the bytes x behind the ones already there; they must fit. */
    method Append(x: seq<byte>)
      requires Valid() && |Got| + |x| <= LREP_HDR + JOB_BIG
      modifies this, rbuf
      ensures Valid() && Got == old(Got) + x
    {
      var k := 0;
      ghost var g := Got;
      while k < |x|
        invariant 0 <= k <= |x| && rgot == |g| && rbuf.Length == LREP_HDR + JOB_BIG && Got == g
        invariant rgot + k <= rbuf.Length && rbuf[..rgot + k] == g + x[..k]
      {
        rbuf[rgot + k] := x[k];
        assert rbuf[..rgot + k + 1] == rbuf[..rgot + k] + [x[k]];
        assert x[..k + 1] == x[..k] + [x[k]];
        k := k + 1;
      }
      assert x[..k] == x;
      rgot := rgot + k;
      Got := g + x;
    }
  }

  /** drop_client's first half: client i is gone, its jobs answer to nobody, its unsent replies are wiped. */
  function Closed(t: Tables, i: nat): Tables
    requires i < MAXCL
  {
    t.(queue := Orphan(t.queue, t.cl[i]), inflight := Orphan(t.inflight, t.cl[i]), cl := t.cl[i := -1], oq := t.oq[i := []])
  }

  lemma ClosedOk(t: Tables, h: History, i: nat)
    requires Clients(t, h) && Work(t) && i < MAXCL
    ensures Clients(Closed(t, i), h) && Work(Closed(t, i))
    ensures Ids(Closed(t, i).queue) == Ids(t.queue) && Ids(Closed(t, i).inflight) == Ids(t.inflight)
  {
    hide Slots, Owned, Quota, LogOk, Output, Gone, Nodes, Wids, Ids;
    SlotShape(t, h);
    OwnedOrphan(t.queue, t.cl, h.conn, h.owner, h.cids, i);
    OwnedOrphan(t.inflight, t.cl, h.conn, h.owner, h.cids, i);
    QuotaOrphan(t.cl, t.queue, t.inflight, i);
    OutputClose(h.log, t.cl, h.conn, h.broken, h.sent, t.oq, i);
    SlotsClose(t.cl, h.conn, h.nextConn, i);
    GoneClose(h.dropped, t.cl, h.conn, h.owner, i);
    NodesOrphan(t.inflight, t.busy, t.cl[i]);
    WidsOrphan(t.inflight, t.sends, t.nextwid, t.cl[i]);
    OrphanIds(t.queue, t.cl[i]);
    OrphanIds(t.inflight, t.cl[i]);
  }

  // ---- sends and replies keep their history ----------------------------------------------------

  predicate SameTags(js: seq<Job>, js': seq<Job>) {
    |js| == |js'| && forall i :: 0 <= i < |js| ==> js'[i].id == js[i].id && js'[i].serial == js[i].serial
  }

  predicate SameBufs(js: seq<Job>, js': seq<Job>) {
    |js| == |js'| && forall i :: 0 <= i < |js| ==> js'[i].id == js[i].id && js'[i].buf == js[i].buf
  }

  lemma SerialsSame(js: seq<Job>, js': seq<Job>)
    requires SameTags(js, js')
    ensures Serials(js') == Serials(js)
  {
    forall n | n in Serials(js) ensures n in Serials(js') {
      var i :| 0 <= i < |js| && js[i].serial == n;
      assert js'[i].serial == n;
    }
    forall n | n in Serials(js') ensures n in Serials(js) {
      var i :| 0 <= i < |js'| && js'[i].serial == n;
      assert js[i].serial == n;
    }
  }

  /** The part of the history that only sending, reading and booting change. */
  predicate SameTrace(h: History, h': History) {
    && h'.order == h.order && h'.replies == h.replies && h'.since == h.since && h'.start == h.start
    && h'.wrote == h.wrote && h'.subs == h.subs && |h'.owner| == |h.owner|
  }

  lemma ToldMore(log: seq<Entry>, dropped: multiset<nat>, order: seq<nat>, replies: seq<Reply>,
                 log': seq<Entry>, dropped': multiset<nat>, order': seq<nat>)
    requires Told(log, dropped, order, replies) && log <= log' && dropped <= dropped' && order <= order'
    ensures Told(log', dropped', order', replies)
  {
    forall k | 0 <= k < |replies| && replies[k].hit != 0 ensures ReplyTold(log', dropped', order', replies[k].hit, k) {
      assert ReplyTold(log, dropped, order, replies[k].hit, k);
      var id := order[replies[k].hit - 1];
      if id !in dropped {
        var m :| 0 <= m < |log| && log[m].from == k && log[m].id == id;
        assert log'[m] == log[m];
      }
    }
  }

  lemma TracedKeeps(t: Tables, h: History, t': Tables, h': History)
    requires Traced(t, h) && SameTrace(h, h') && h.log <= h'.log && h.dropped <= h'.dropped
    requires t'.sends == t.sends && (t'.up ==> t.up) && SameTags(t.inflight, t'.inflight) && SameBufs(t.queue, t'.queue)
    ensures Traced(t', h')
  {
    hide Chronicle, Told, WroteOk;
    SerialsSame(t.inflight, t'.inflight);
    ToldMore(h.log, h.dropped, h.order, h.replies, h'.log, h'.dropped, h'.order);
  }

  lemma OrphanTags(js: seq<Job>, fd: int)
    ensures SameTags(js, Orphan(js, fd)) && SameBufs(js, Orphan(js, fd))
  {
  }

  /** A job joins the queue as it was submitted. */
  lemma TracedAdmit(t: Tables, h: History, t': Tables, h': History, j: Job)
    requires Traced(t, h) && j.id == |h.owner| == |h.subs|
    requires t'.queue == t.queue + [j] && t'.inflight == t.inflight && t'.sends == t.sends && t'.up == t.up
    requires h'.subs == h.subs + [j.buf] && |h'.owner| == |h.owner| + 1 && h'.order == h.order && h'.replies == h.replies
    requires h'.since == h.since && h'.start == h.start && h'.wrote == h.wrote && h'.log == h.log && h'.dropped == h.dropped
    ensures Traced(t', h')
  {
    hide Chronicle, Told, OpenOk, StampOf;
    if t.up {
      WroteMore(h.wrote, h.start, h.order, h.subs, j.buf);
    }
  }

  lemma WroteMore(wrote: seq<Req>, start: nat, order: seq<nat>, subs: seq<seq<byte>>, b: seq<byte>)
    requires WroteOk(wrote, start, order, subs)
    ensures WroteOk(wrote, start, order, subs + [b])
  {
    hide StampOf;
    forall m | 0 <= m < |wrote| ensures WroteAt(wrote[m], order, subs + [b], start + m) {
      assert WroteAt(wrote[m], order, subs, start + m);
    }
  }

  lemma WroteSnoc(wrote: seq<Req>, start: nat, order: seq<nat>, subs: seq<seq<byte>>, r: Req, id: nat)
    requires WroteOk(wrote, start, order, subs) && id < |subs| && StampOf(r, subs[id], (|order| + 1) % WIDS)
    ensures WroteOk(wrote + [r], start, order + [id], subs)
  {
    hide StampOf;
    var w, o := wrote + [r], order + [id];
    forall m | 0 <= m < |w| ensures WroteAt(w[m], o, subs, start + m) {
      assert m < |wrote| ==> WroteAt(wrote[m], order, subs, start + m);
    }
  }

  lemma HitsBound(replies: seq<Reply>, since: nat, start: nat, sends: nat, n: nat)
    requires Chronicle(replies, since, start, sends) && n in Hits(replies, since, |replies|)
    ensures n <= sends
  {
    var k :| since <= k < |replies| && replies[k].hit == n;
    assert ReplyOk(replies, since, start, sends, k);
  }

  lemma SerialsSnoc(js: seq<Job>, j: Job)
    ensures Serials(js + [j]) == Serials(js) + {j.serial}
  {
    var r := js + [j];
    forall n | n in Serials(js) ensures n in Serials(r) {
      var i :| 0 <= i < |js| && js[i].serial == n;
      assert r[i].serial == n;
    }
    assert r[|js|].serial == j.serial;
  }

  lemma ChronicleLater(replies: seq<Reply>, since: nat, start: nat, sends: nat)
    requires Chronicle(replies, since, start, sends)
    ensures Chronicle(replies, since, start, sends + 1)
  {
    var later := sends + 1;
    forall k | since <= k < |replies| ensures ReplyOk(replies, since, start, later, k) {
      assert ReplyOk(replies, since, start, sends, k);
    }
  }

  lemma OpenSnoc(inflight: seq<Job>, start: nat, sends: nat, replies: seq<Reply>, since: nat, j: Job)
    requires OpenOk(inflight, start, sends, replies, since) && Chronicle(replies, since, start, sends) && j.serial == sends + 1
    ensures OpenOk(inflight + [j], start, sends + 1, replies, since)
  {
    hide Chronicle;
    SerialsSnoc(inflight, j);
    if sends + 1 in Hits(replies, since, |replies|) {
      HitsBound(replies, since, start, sends, sends + 1);
    }
    assert start <= sends by { ChronicleShape(replies, since, start, sends); }
    assert Range(start, sends + 1) == Range(start, sends) + {sends + 1};
  }

  lemma ChronicleShape(replies: seq<Reply>, since: nat, start: nat, sends: nat)
    requires Chronicle(replies, since, start, sends)
    ensures since <= |replies| && start <= sends
  {
  }

  /** A job is sent: its request is the next one written. */
  lemma TracedSend(t: Tables, h: History, t': Tables, h': History, q: nat, j: Job, r: Req)
    requires Traced(t, h) && t.up && q < |t.queue| && j.id == t.queue[q].id && j.serial == t.sends + 1
    requires StampOf(r, t.queue[q].buf, (t.sends + 1) % WIDS)
    requires t'.queue == t.queue[..q] + t.queue[q + 1..] && t'.inflight == t.inflight + [j] && t'.sends == t.sends + 1
    requires h' == h.(order := h.order + [j.id], wrote := h.wrote + [r])
    ensures Traced(t', h')
  {
    hide Chronicle, Told, StampOf, OpenOk, WroteOk;
    WroteSnoc(h.wrote, h.start, h.order, h.subs, r, j.id);
    ChronicleLater(h.replies, h.since, h.start, t.sends);
    OpenSnoc(t.inflight, h.start, t.sends, h.replies, h.since, j);
    ToldMore(h.log, h.dropped, h.order, h.replies, h.log, h.dropped, h'.order);
  }

  /** A job is lost: everything in flight is about to be failed. */
  lemma TracedLost(t: Tables, h: History, t': Tables, h': History, q: nat)
    requires Traced(t, h) && q < |t.queue|
    requires t'.queue == t.queue[..q] + t.queue[q + 1..] && t'.inflight == t.inflight && t'.sends == t.sends + 1 && !t'.up
    requires SameTrace(h, h'.(order := h.order)) && h'.order == h.order + [t.queue[q].id] && h'.log == h.log && h'.dropped == h.dropped
    ensures Traced(t', h')
  {
    hide Chronicle, Told;
    ChronicleLater(h.replies, h.since, h.start, t.sends);
    ToldMore(h.log, h.dropped, h.order, h.replies, h.log, h.dropped, h'.order);
  }

  lemma SerialsSwapOut(js: seq<Job>, i: nat)
    requires i < |js| && forall a, b :: 0 <= a < b < |js| ==> js[a].serial != js[b].serial
    ensures Serials(SwapOut(js, i)) == Serials(js) - {js[i].serial}
  {
    var r, l := SwapOut(js, i), |js| - 1;
    assert forall k :: 0 <= k < |r| ==> r[k] == js[if k == i then l else k];
    forall n | n in Serials(js) - {js[i].serial} ensures n in Serials(r) {
      var k :| 0 <= k < |js| && js[k].serial == n;
      assert r[if k == l then i else k].serial == n;
    }
    forall n | n in Serials(r) ensures n in Serials(js) && n != js[i].serial {
      var k :| 0 <= k < |r| && r[k].serial == n;
      var m := if k == i then l else k;
      assert js[m].serial == n;
      assert m != i;
      assert js[if m < i then m else i].serial != js[if m < i then i else m].serial;
    }
  }

  lemma HitsSnoc(replies: seq<Reply>, since: nat, r: Reply)
    requires since <= |replies|
    ensures Hits(replies + [r], since, |replies| + 1) == Hits(replies, since, |replies|) + {r.hit}
    ensures Hits(replies + [r], since, |replies|) == Hits(replies, since, |replies|)
  {
    HitsPrefix(replies, replies + [r], since, |replies|);
    var rs := replies + [r];
    forall n | n in Hits(rs, since, |replies| + 1) ensures n in Hits(rs, since, |replies|) + {r.hit} {
      var k :| since <= k < |replies| + 1 && rs[k].hit == n;
    }
    forall n | n in Hits(rs, since, |replies|) ensures n in Hits(rs, since, |replies| + 1) {
      var k :| since <= k < |replies| && rs[k].hit == n;
    }
    assert rs[|replies|].hit == r.hit;
  }

  lemma HitsPrefix(rs: seq<Reply>, rs': seq<Reply>, since: nat, b: nat)
    requires rs <= rs' && b <= |rs|
    ensures Hits(rs', since, b) == Hits(rs, since, b)
  {
    forall n | n in Hits(rs, since, b) ensures n in Hits(rs', since, b) {
      var k :| since <= k < b && rs[k].hit == n;
      assert rs'[k].hit == n;
    }
    forall n | n in Hits(rs', since, b) ensures n in Hits(rs, since, b) {
      var k :| since <= k < b && rs'[k].hit == n;
      assert rs[k].hit == n;
    }
  }

  /** The next reply of the chronicle. */
  lemma ChronicleSnoc(replies: seq<Reply>, since: nat, start: nat, sends: nat, r: Reply)
    requires Chronicle(replies, since, start, sends) && Matched(r) && r.when == sends
    requires r.open == Range(start, sends) - Hits(replies, since, |replies|)
    ensures Chronicle(replies + [r], since, start, sends)
  {
    hide Matched, Hits;
    var rs := replies + [r];
    forall k | since <= k < |rs| ensures ReplyOk(rs, since, start, sends, k) {
      HitsPrefix(replies, rs, since, if k < |replies| then k else |replies|);
      if k < |replies| {
        assert ReplyOk(replies, since, start, sends, k);
      }
    }
  }

  /** A reply for nobody. */
  lemma TracedMiss(t: Tables, h: History, frame: seq<byte>)
    requires Traced(t, h) && t.up && |frame| >= LREP_HDR && Wids(t.inflight, t.sends, t.nextwid)
    requires forall i :: 0 <= i < |t.inflight| ==> t.inflight[i].wid != Wid(frame)
    ensures Traced(t, h.(replies := h.replies + [Reply(frame, 0, Serials(t.inflight), t.sends)]))
  {
    hide Chronicle, WroteOk, Hits;
    var r := Reply(frame, 0, Serials(t.inflight), t.sends);
    ChronicleShape(h.replies, h.since, h.start, t.sends);
    HitsSnoc(h.replies, h.since, r);
    ChronicleSnoc(h.replies, h.since, h.start, t.sends, r);
    var rs := h.replies + [r];
    forall k | 0 <= k < |rs| && rs[k].hit != 0 ensures ReplyTold(h.log, h.dropped, h.order, rs[k].hit, k) {
      assert rs[k] == h.replies[k];
    }
  }

  /** A reply for in-flight job i, which leaves the table told or with its client gone. */
  lemma TracedHit(t: Tables, h: History, t': Tables, h': History, i: nat, frame: seq<byte>)
    requires Traced(t, h) && t.up && i < |t.inflight| && |frame| >= LREP_HDR && Wids(t.inflight, t.sends, t.nextwid)
    requires Wid(frame) == t.inflight[i].wid
    requires SameTrace(h, h'.(replies := h.replies)) && h.log <= h'.log && h.dropped <= h'.dropped
    requires h'.replies == h.replies + [Reply(frame, t.inflight[i].serial, Serials(t.inflight), t.sends)]
    requires t.inflight[i].id in h'.dropped || AnsweredBy(h'.log, |h.replies|, t.inflight[i].id)
    requires t'.sends == t.sends && t'.up == t.up && SameTags(SwapOut(t.inflight, i), t'.inflight) && SameBufs(t.queue, t'.queue)
    ensures Traced(t', h')
  {
    hide Chronicle, WroteOk, Hits, AnsweredBy;
    var r := Reply(frame, t.inflight[i].serial, Serials(t.inflight), t.sends);
    ChronicleShape(h.replies, h.since, h.start, t.sends);
    HitsSnoc(h.replies, h.since, r);
    ChronicleSnoc(h.replies, h.since, h.start, t.sends, r);
    SerialsSwapOut(t.inflight, i);
    SerialsSame(SwapOut(t.inflight, i), t'.inflight);
    SwapOutOrder(t.inflight, i, h.order, t.sends);
    ToldMore(h.log, h.dropped, h.order, h.replies, h'.log, h'.dropped, h'.order);
    forall k | 0 <= k < |h'.replies| && h'.replies[k].hit != 0 ensures ReplyTold(h'.log, h'.dropped, h'.order, h'.replies[k].hit, k) {
      assert k < |h.replies| ==> h'.replies[k] == h.replies[k];
    }
  }

  lemma SwapOutOrder(js: seq<Job>, i: nat, order: seq<nat>, sends: nat)
    requires OrderOk(order, sends, js) && i < |js|
    ensures OrderOk(order, sends, SwapOut(js, i))
  {
    var r := SwapOut(js, i);
    assert forall k :: 0 <= k < |r| ==> r[k] == js[if k == i then |js| - 1 else k];
  }

  /** The tables are empty and the network is down: nothing is owed. */
  lemma TracedBoot(t: Tables, h: History, t': Tables, h': History)
    requires Traced(t, h) && t.inflight == t'.inflight == [] && t'.queue == t.queue && t'.sends == t.sends
    requires h'.order == h.order && h'.replies == h.replies && h'.subs == h.subs && h'.owner == h.owner && h'.log == h.log && h'.dropped == h.dropped
    requires h'.since == |h.replies| && h'.start == t.sends && h'.wrote == []
    ensures Traced(t', h')
  {
    hide Told, Hits;
  }

  lemma SlotShape(t: Tables, h: History)
    requires Clients(t, h)
    ensures |t.cl| == |h.conn| == |t.oq| == |h.sent| == MAXCL
    ensures forall i :: 0 <= i < MAXCL ==> t.cl[i] >= -1
    ensures forall i, k :: 0 <= i < MAXCL && 0 <= k < MAXCL && k != i && t.cl[i] >= 0 ==> t.cl[k] != t.cl[i]
  {
  }

  lemma TracedShape(t: Tables, h: History)
    requires Traced(t, h)
    ensures |h.subs| == |h.owner| && |h.order| == t.sends && h.since <= |h.replies|
    ensures forall i :: 0 <= i < |t.inflight| ==> 1 <= t.inflight[i].serial <= t.sends && h.order[t.inflight[i].serial - 1] == t.inflight[i].id
  {
  }

  /** A job the daemon queues for itself. */
  lemma CapsOk(t: Tables, h: History, j: Job)
    requires Clients(t, h) && Work(t) && Balanced(t, h) && Traced(t, h) && |t.queue| < QMAX
    requires j.fd == -1 && j.cid == 0 && |j.buf| == JOB_HDR && G4(j.buf, H_LEN) == 0 && j.id == t.admitted
    ensures var t' := t.(queue := t.queue + [j], admitted := t.admitted + 1);
            var h' := h.(owner := h.owner + [-1], cids := h.cids + [0], subs := h.subs + [j.buf]);
            Clients(t', h') && Work(t') && Balanced(t', h') && Traced(t', h')
  {
    hide Quota, LogOk, Output, Gone, Ids, Books, LogIds, Nodes, Wids, Traced;
    TracedShape(t, h);
    TracedAdmit(t, h, t.(queue := t.queue + [j], admitted := t.admitted + 1),
      h.(owner := h.owner + [-1], cids := h.cids + [0], subs := h.subs + [j.buf]), j);
    GoneMore(h.dropped, t.cl, h.conn, h.owner, -1);
    OwnedMore(t.queue, t.cl, h.conn, h.owner, h.cids, -1, 0);
    OwnedMore(t.inflight, t.cl, h.conn, h.owner, h.cids, -1, 0);
    LogMore(h.log, h.owner, h.cids, h.nextConn, h.order, h.replies, -1, 0);
    OwnedSnoc(t.queue, j, t.cl, h.conn, h.owner + [-1], h.cids + [0]);
    QuotaSnoc(t.cl, t.queue, t.inflight, j);
    BooksAdmit(|h.owner|, t.queue, j, Ids(t.inflight), h.answered, h.dropped, h.lost);
  }

  /** What wr did when it could not queue the frame: nothing, or the client on fd is closed. */
  predicate Refused(t: Tables, t': Tables, fd: int) {
    && (fd >= 0 ==> fd !in t'.cl)
    && t'.queue == Orphan(t.queue, fd) && t'.inflight == Orphan(t.inflight, fd)
    && Ids(t'.queue) == Ids(t.queue) && Ids(t'.inflight) == Ids(t.inflight)
    && t' == t.(queue := t'.queue, inflight := t'.inflight, cl := t'.cl, oq := t'.oq, allocs := t'.allocs)
  }

  /** What wr did when it queued the frame of entry e. */
  predicate Queued(t: Tables, h: History, t': Tables, h': History, e: Entry) {
    && t' == t.(oq := t'.oq, allocs := t.allocs + 1, writes := t'.writes)
    && h' == h.(log := h.log + [e], sent := h'.sent, broken := h'.broken)
  }

  /** Fields the clients' clauses do not mention may change freely. */
  lemma SameClients(t: Tables, t': Tables, h: History, h': History)
    requires Clients(t, h)
    requires t'.cl == t.cl && t'.oq == t.oq && t'.queue == t.queue && t'.inflight == t.inflight && t'.admitted == t.admitted
    requires h'.conn == h.conn && h'.nextConn == h.nextConn && h'.owner == h.owner && h'.cids == h.cids && h'.log == h.log
    requires h'.broken == h.broken && h'.sent == h.sent && h'.dropped == h.dropped
    requires h'.order == h.order && h'.replies == h.replies
    ensures Clients(t', h')
  {
    hide Slots, Owned, Quota, LogOk, Output, Gone;
  }

  lemma SameWork(t: Tables, t': Tables)
    requires Work(t)
    requires t'.queue == t.queue && t'.inflight == t.inflight && t'.busy == t.busy && t'.absent == t.absent
    requires t'.sends == t.sends && t'.nextwid == t.nextwid && t'.bigMax == t.bigMax
    ensures Work(t')
  {
  }

  /** Later sends and replies leave the clients alone. */
  lemma ClientsGrow(t: Tables, h: History, h': History)
    requires Clients(t, h) && h' == h.(order := h'.order, replies := h'.replies, wrote := h'.wrote, lost := h'.lost)
    requires h.order <= h'.order && h.replies <= h'.replies
    ensures Clients(t, h')
  {
    hide Slots, Owned, Quota, LogOk, Output, Gone;
    LogGrows(h.log, h.owner, h.cids, h.nextConn, h.order, h.replies, h'.order, h'.replies);
  }

  /** fd is the descriptor of job id's owner while that is connected, and of nobody else. */
  predicate FdOf(t: Tables, h: History, fd: int, id: nat) {
    && id < |h.owner| == |h.cids|
    && forall i :: 0 <= i < |t.cl| && i < |h.conn| && t.cl[i] >= 0 ==> (t.cl[i] == fd <==> h.conn[i] == h.owner[id])
  }

  /** A frame that may be handed out on fd as the answer to job id. */
  predicate Belongs(t: Tables, h: History, fd: int, b: seq<byte>, id: nat, from: int) {
    FdOf(t, h, fd, id) && |b| >= REP_HDR && AnswerOk(Entry(h.owner[id], id, b, from), h.cids[id], h.order, h.replies)
  }

  lemma RefusedNobody(t: Tables, h: History, fd: int)
    requires Clients(t, h) && (fd < 0 || fd !in t.cl)
    ensures Refused(t, t, fd)
  {
    NobodyThere(t.queue, t.cl, h.conn, h.owner, h.cids, fd);
    NobodyThere(t.inflight, t.cl, h.conn, h.owner, h.cids, fd);
  }

  lemma ClosedNotOpen(t: Tables, h: History, i: nat, id: nat)
    requires Clients(t, h) && i < |t.cl| && t.cl[i] >= 0 && FdOf(t, h, t.cl[i], id)
    ensures NotOpen(t.cl[i := -1], h.conn, h.owner[id])
  {
    hide Owned, Quota, LogOk, Output, Gone;
    forall k | 0 <= k < |t.cl| && k != i && t.cl[k] >= 0 ensures h.conn[k] != h.owner[id] {
      assert t.cl[k] != t.cl[i];
    }
  }

  lemma GiveOk(t: Tables, h: History, i: nat, b: seq<byte>, id: int, from: int)
    requires Clients(t, h) && i < MAXCL == |h.conn| && t.cl[i] >= 0 && |b| >= REP_HDR
    requires if id >= 0 then Belongs(t, h, t.cl[i], b, id, from) else from < 0 && |b| == REP_HDR
    ensures Clients(t.(oq := t.oq[i := t.oq[i] + [Chunk(b, 0)]]), h.(log := h.log + [Entry(h.conn[i], id, b, from)]))
  {
    hide Owned, Quota, LogOk, Output, Gone, AnswerOk;
    var e := Entry(h.conn[i], id, b, from);
    OutputGive(h.log, t.cl, h.conn, h.broken, h.sent, t.oq, h.nextConn, i, e);
    LogGive(h.log, h.owner, h.cids, h.nextConn, h.order, h.replies, e);
  }

  /** A refusal on the spot changes no job's standing. */
  lemma GivenSound(t: Tables, h: History, t': Tables, h': History, e: Entry)
    requires Sound(t, h) && Queued(t, h, t', h', e) && e.id < 0 && Clients(t', h') && Work(t')
    ensures Sound(t', h')
  {
    hide Clients, Work, LogIds, Ids, Traced;
    LogSnoc(h.log, e, 0);
    TracedKeeps(t, h, t', h');
  }

  // ---- what each step makes of the tables --------------------------------------------------------

  type Lacking = x: int | 0 <= x < NODES

  /** What a boot finds: no image that runs, or one without the last `missing` nodes, and whether there is memory for the job
      that asks it for its payload cap. */
  datatype Image = NoImage | Image(missing: Lacking, asked: bool)

  /** What a socket does with a write. */
  datatype Taken = Takes(r: nat) | Later | Broken

  /** How things go outside the daemon, each time in order: which allocations of a queued reply fail, which jobs' link
      writes fail, what boots find, and what sockets take. */
  datatype World = World(lack: nat -> bool, cut: nat -> bool, image: nat -> Image, socket: nat -> Taken)

  /** Replies q, drained into a socket from its n-th write on: what is left, the next write's number, the bytes the socket
      took, and whether it turned out to be broken. */
  datatype Drained = Drained(q: seq<Chunk>, n: nat, took: seq<byte>, gone: bool)

  function Clip(r: nat, most: nat): nat { if r < 1 then 1 else if r > most then most else r }

  function Drain(q: seq<Chunk>, n: nat, socket: nat -> Taken): Drained
    decreases Size(q)
  {
    if q == [] || q[0].off >= |q[0].d| then Drained(q, n, [], false)
    else
      match socket(n)
      case Later => Drained(q, n + 1, [], false)
      case Broken => Drained([], n + 1, [], true)
      case Takes(r) =>
        var k := Clip(r, |q[0].d| - q[0].off);
        WrittenSize(q, k);
        var d := Drain(Written(q, k), n + 1, socket);
        d.(took := q[0].d[q[0].off..q[0].off + k] + d.took)
  }

  lemma DrainOn(q: seq<Chunk>, n: nat, socket: nat -> Taken)
    requires q != [] && q[0].off < |q[0].d| && socket(n).Takes?
    ensures var k := Clip(socket(n).r, |q[0].d| - q[0].off);
            1 <= k <= |q[0].d| - q[0].off && Size(Written(q, k)) < Size(q)
            && var d, more := Drain(q, n, socket), Drain(Written(q, k), n + 1, socket);
               d.q == more.q && d.n == more.n && d.gone == more.gone && d.took == q[0].d[q[0].off..q[0].off + k] + more.took
  {
    WrittenSize(q, Clip(socket(n).r, |q[0].d| - q[0].off));
  }

  /** What the socket took and what is left are the bytes that were queued, in order. */
  lemma {:induction false} DrainKeeps(q: seq<Chunk>, n: nat, socket: nat -> Taken)
    requires Fresh(q)
    ensures var d := Drain(q, n, socket);
      Fresh(d.q) && d.took <= Pending(q) && (!d.gone ==> Pending(q) == d.took + Pending(d.q))
    decreases Size(q)
  {
    hide Pending, Size, Written, Drain, Clip;
    if q != [] && socket(n).Takes? {
      var k := Clip(socket(n).r, |q[0].d| - q[0].off);
      DrainOn(q, n, socket);
      WrittenFresh(q, k);
      WrittenPending(q, k);
      DrainKeeps(Written(q, k), n + 1, socket);
      var d := Drain(Written(q, k), n + 1, socket);
      Further(q[0].d[q[0].off..q[0].off + k], d.took, Pending(d.q), Pending(Written(q, k)));
    } else {
      DrainHalts(q, n, socket);
      NoBytes(Pending(q));
    }
  }

  lemma DrainHalts(q: seq<Chunk>, n: nat, socket: nat -> Taken)
    requires Fresh(q) && (q == [] || !socket(n).Takes?)
    ensures var d := Drain(q, n, socket); d.took == [] && d.q == (if d.gone then [] else q)
  {
  }

  lemma Further(x: seq<byte>, took: seq<byte>, rest: seq<byte>, all: seq<byte>)
    requires took <= all
    ensures x + took <= x + all && (all == took + rest ==> x + all == (x + took) + rest)
  {
    assert (x + all)[..|x + took|] == x + took;
  }

  /** Draining stops only when nothing is left, when the socket takes nothing more for now, or when it is broken, and then
      the rest is gone. */
  lemma {:induction false} DrainStops(q: seq<Chunk>, n: nat, socket: nat -> Taken)
    requires Fresh(q)
    ensures var d := Drain(q, n, socket);
      && d.n >= n
      && (d.gone ==> d.q == [] && d.n > n && socket(d.n - 1).Broken?)
      && (d.q != [] ==> d.n > n && socket(d.n - 1).Later?)
      && (!d.gone && d.q == [] ==> forall m :: n <= m < d.n ==> socket(m).Takes?)
      && (forall m :: n <= m < d.n - 1 ==> socket(m).Takes?)
    decreases Size(q)
  {
    if q != [] && socket(n).Takes? {
      hide Drain, Size, Written, Clip;
      var k := Clip(socket(n).r, |q[0].d| - q[0].off);
      DrainOn(q, n, socket);
      WrittenFresh(q, k);
      DrainStops(Written(q, k), n + 1, socket);
    }
  }

  lemma NoBytes(s: seq<byte>)
    ensures [] + s == s && [] <= s
  {
  }

  /** flush_out */
  function AfterFlush(t: Tables, i: nat, w: World): Tables
    requires i < MAXCL
  {
    var d := Drain(t.oq[i], t.writes, w.socket);
    t.(oq := t.oq[i := d.q], writes := d.n)
  }

  /** A reply is queued for slot i, and what its socket takes is written. */
  function AfterGive(t: Tables, i: nat, b: seq<byte>, w: World): Tables
    requires i < MAXCL
  {
    AfterFlush(t.(allocs := t.allocs + 1, oq := t.oq[i := t.oq[i] + [Chunk(b, 0)]]), i, w)
  }

  /** The nodes an image lacks are the last ones. */
  function Absent(missing: Lacking): (a: Flags)
    ensures !a[0]
  {
    seq(NODES, k => k >= NODES - missing)
  }

  /** The request for node 0's payload cap: no payload, whose checksum is 1. */
  const CAPS_REQ: seq<byte> := [0, 0, OP_CAPS, 0, 0, 0, 0, 0, 0, 1, 0, 0, 0]

  function CapsJob(id: nat): Job { Job(-1, 0, 0, CAPS_REQ, 0, 0, id, 0) }

  /** The network takes it, and it is what the daemon promises of a client's job. */
  lemma CapsIsValid(id: nat, wid: nat)
    requires wid < WIDS
    ensures var j := CapsJob(id);
      && Length(j) == 0 == G4(j.buf, H_LEN) && G4(j.buf, H_ADLER) == Adler.Adler32([])
      && var b := Stamp(j.buf, wid, 0); ValidReq(Req(b[..JOB_HDR], b[JOB_HDR..]))
  {
    Adler.EmptySum();
    StampedIsValid(CapsJob(id), wid, 0);
  }

  /** boot_network */
  function AfterBoot(t: Tables, w: World): (u: Tables)
    ensures u.cl == t.cl && u.oq == t.oq && u.inflight == t.inflight && u.busy == t.busy && u.leased == t.leased
  {
    var image, b := w.image(t.boots), t.(boots := t.boots + 1);
    if image.NoImage? then b
    else
      var u := b.(up := true, absent := Absent(image.missing), bigMax := JOB_MAX);
      if image.asked && |u.queue| < QMAX then Admitted(u, CapsJob(t.admitted)) else u
  }

  /** A boot, and when it fails the time from which the next one is due. */
  function AfterReboot(t: Tables, w: World): (u: Tables)
    ensures u.cl == t.cl && u.oq == t.oq && u.inflight == t.inflight && u.busy == t.busy && u.leased == t.leased
  {
    var u := AfterBoot(t, w);
    if u.up then u else u.(downSince := t.secs)
  }

  /** drop_client: with the holder of the lease the T425 is taken back. */
  function AfterDrop(t: Tables, i: nat, w: World): (u: Tables)
    requires i < MAXCL
    ensures u.cl == t.cl[i := -1] && u.inflight == Orphan(t.inflight, t.cl[i])
    ensures u.leased == if t.leased == i then -1 else t.leased
  {
    if t.leased == i then AfterReboot(Closed(t, i).(leased := -1), w) else Closed(t, i)
  }

  /** The first slot with descriptor fd, or |cl|. */
  function Slot(cl: seq<int>, fd: int): (i: nat)
    ensures i <= |cl| && (i < |cl| ==> cl[i] == fd) && (i == |cl| <==> fd !in cl) && forall k :: 0 <= k < i ==> cl[k] != fd
  {
    if cl == [] || cl[0] == fd then 0 else 1 + Slot(cl[1..], fd)
  }

  /** wr: a frame for the client on fd; one there is no memory for costs the client its connection. */
  function AfterWr(t: Tables, fd: int, b: seq<byte>, w: World): (u: Tables)
    ensures |u.inflight| == |t.inflight|
  {
    var i := Slot(t.cl, fd);
    if fd < 0 || i == MAXCL then t
    else if w.lack(t.allocs) then AfterDrop(t.(allocs := t.allocs + 1), i, w)
    else AfterGive(t, i, b, w)
  }

  /** ST_DOWN for each of the jobs. */
  function AllTold(t: Tables, js: seq<Job>, w: World): Tables
    decreases |js|
  {
    if js == [] then t else AllTold(AfterWr(t, js[0].fd, StatusFrame(js[0].cid, ST_DOWN), w), js[1..], w)
  }

  /** go_down: first the jobs in flight, then the queued ones. */
  function AfterDown(t: Tables, w: World): (u: Tables)
    ensures !u.up && u.queue == [] && u.inflight == []
  {
    var a := t.(up := false, downSince := t.secs);
    var b := AllTold(a, a.inflight, w).(inflight := [], busy := [false, false, false], up := false);
    var c := AllTold(b, b.queue, w);
    c.(queue := [], inflight := [], up := false)
  }

  /** A client that is gone gets nothing more. */
  lemma {:induction false} ToldGone(t: Tables, js: seq<Job>, fd: int, w: World)
    requires fd >= 0 && fd !in t.cl
    ensures AllTold(t, Orphan(js, fd), w) == AllTold(t, js, w)
    decreases |js|
  {
    hide AfterWr, StatusFrame;
    if js == [] {
      assert Orphan(js, fd) == js;
    } else {
      var r := Orphan(js, fd);
      var u := AfterWr(t, js[0].fd, StatusFrame(js[0].cid, ST_DOWN), w);
      assert r[1..] == Orphan(js[1..], fd);
      WrKeepsGone(t, js[0].fd, StatusFrame(js[0].cid, ST_DOWN), fd, w);
      ToldGone(u, js[1..], fd, w);
      assert r[0].cid == js[0].cid;
      if js[0].fd == fd {
        WrToNobody(t, fd, StatusFrame(js[0].cid, ST_DOWN), w);
      }
    }
  }

  lemma WrToNobody(t: Tables, fd: int, b: seq<byte>, w: World)
    requires fd !in t.cl
    ensures AfterWr(t, fd, b, w) == t == AfterWr(t, -1, b, w)
  {
  }

  lemma WrKeepsGone(t: Tables, to: int, b: seq<byte>, fd: int, w: World)
    requires fd >= 0 && fd !in t.cl
    ensures fd !in AfterWr(t, to, b, w).cl
  {
    hide AfterReboot, Closed, Drain;
  }

  // ---- failing everything (go_down) ------------------------------------------------------------

  /** The books while go_down works: the first ii in-flight and qi queued jobs are already settled. */
  predicate Settling(t: Tables, h: History, qi: nat, ii: nat) {
    && qi <= |t.queue| && ii <= |t.inflight|
    && Books(|h.owner|, Ids(t.queue[qi..]), Ids(t.inflight[ii..]), h.answered, h.dropped, h.lost)
    && LogIds(h.log) == h.answered
  }

  lemma IdsHead(js: seq<Job>, i: nat)
    requires i < |js|
    ensures Ids(js[i..]) == multiset{js[i].id} + Ids(js[i + 1..])
  {
    assert IdSeq(js[i..]) == [js[i].id] + IdSeq(js[i + 1..]);
  }

  lemma OrphanSlice(js: seq<Job>, fd: int, i: nat)
    requires i <= |js|
    ensures Ids(Orphan(js, fd)[i..]) == Ids(js[i..])
  {
    assert IdSeq(Orphan(js, fd)[i..]) == IdSeq(js[i..]);
  }

  lemma JobBelongs(t: Tables, h: History, q: nat, inFlight: bool)
    requires Clients(t, h) && q < |if inFlight then t.inflight else t.queue|
    ensures var j := (if inFlight then t.inflight else t.queue)[q];
            && 0 <= j.cid < 65536 && Belongs(t, h, j.fd, StatusFrame(j.cid, ST_DOWN), j.id, -1)
            && |h.owner| == |h.cids| && OwnedJob(j, t.cl, h.owner, h.cids) && j.id < |h.owner| && j.cid == h.cids[j.id] && j.fd >= -1
  {
    hide Quota, LogOk, Output, Gone, Slots;
    var js := if inFlight then t.inflight else t.queue;
    assert Owned(js, t.cl, h.conn, h.owner, h.cids);
    assert OwnedJob(js[q], t.cl, h.owner, h.cids);
  }

  /** One job has left the tables: told, or dropped because its client is gone. */
  function Settled(h: History, id: nat, ok: bool): History {
    if ok then h.(answered := h.answered + multiset{id}) else h.(dropped := h.dropped + multiset{id})
  }

  lemma SettledClients(t: Tables, h: History, id: nat, ok: bool)
    requires Clients(t, h) && (!ok ==> id < |h.owner| && NotOpen(t.cl, h.conn, h.owner[id]))
    ensures Clients(t, Settled(h, id, ok))
  {
    hide Slots, Owned, Quota, LogOk, Output;
  }

  lemma SettleStep(t: Tables, h: History, t': Tables, h': History, ok: bool, e: Entry, qi: nat, ii: nat, inFlight: bool)
    requires Settling(t, h, qi, ii) && (if inFlight then ii < |t.inflight| else qi < |t.queue|)
    requires var j := if inFlight then t.inflight[ii] else t.queue[qi];
             if ok then Queued(t, h, t', h', e) && e.id == j.id else Refused(t, t', j.fd) && h' == h
    ensures var j := if inFlight then t.inflight[ii] else t.queue[qi];
            if inFlight then Settling(t', Settled(h', j.id, ok), qi, ii + 1) else Settling(t', Settled(h', j.id, ok), qi + 1, ii)
  {
    hide Ids, LogIds, Books, Orphan;
    var j := if inFlight then t.inflight[ii] else t.queue[qi];
    if inFlight {
      IdsHead(t.inflight, ii);
    } else {
      IdsHead(t.queue, qi);
    }
    if ok {
      LogSnoc(h.log, e, 0);
    } else {
      OrphanSlice(t.inflight, j.fd, ii);
      OrphanSlice(t.inflight, j.fd, if inFlight then ii + 1 else ii);
      OrphanSlice(t.queue, j.fd, qi);
      OrphanSlice(t.queue, j.fd, if inFlight then qi else qi + 1);
    }
    var q, f := Ids(t'.queue[if inFlight then qi else qi + 1..]), Ids(t'.inflight[if inFlight then ii + 1 else ii..]);
    BooksSettle(|h.owner|, Ids(t.queue[qi..]), Ids(t.inflight[ii..]), h.answered, h.dropped, h.lost, q, f, j.id);
  }

  lemma BooksSettle(n: nat, q: multiset<nat>, i: multiset<nat>, a: multiset<nat>, d: multiset<nat>, l: multiset<nat>,
    q': multiset<nat>, i': multiset<nat>, id: nat)
    requires Books(n, q, i, a, d, l) && q + i == q' + i' + multiset{id}
    ensures Books(n, q', i', a + multiset{id}, d, l) && Books(n, q', i', a, d + multiset{id}, l)
  {
    var m := multiset{id};
    assert q + i + a + d + l == q' + i' + (a + m) + d + l;
    assert q + i + a + d + l == q' + i' + a + (d + m) + l;
  }

  lemma SettlingAll(t: Tables, h: History)
    requires Balanced(t, h)
    ensures Settling(t, h, 0, 0)
  {
  }

  /** Failing jobs does not touch the rest of the history. */
  predicate Kept(h: History, h': History) {
    && SameTrace(h, h') && h'.lost == h.lost && h'.owner == h.owner && h'.cids == h.cids && h'.link == h.link && h'.stale == h.stale
    && h'.conn == h.conn && h'.nextConn == h.nextConn
  }

  /** The answers given since are all ST_DOWN. */
  predicate AllDown(log: seq<Entry>, log': seq<Entry>) {
    log <= log' && forall m :: |log| <= m < |log'| ==> log'[m].id >= 0 && log'[m].from < 0
  }

  /** Before anything is failed: all but what only a network that is up promises. */
  predicate Failing(t: Tables, h: History) {
    Clients(t, h) && Work(t) && Balanced(t, h) && Traced(t.(up := false), h) && t.leased == -1
  }

  lemma SoundFails(t: Tables, h: History)
    requires Sound(t, h) && t.leased == -1
    ensures Failing(t, h)
  {
    hide Clients, Work, Balanced, Traced;
    TracedKeeps(t, h, t.(up := false), h);
  }

  lemma NoneInFlight(t: Tables, h: History)
    requires Clients(t, h) && Work(t) && Settling(t, h, 0, |t.inflight|) && Traced(t, h) && !t.up
    ensures var t' := t.(inflight := [], busy := [false, false, false]);
            Clients(t', h) && Work(t') && Settling(t', h, 0, 0) && Traced(t', h)
  {
    hide Slots, LogOk, Output, Gone, Ids, LogIds, Books, Chronicle, Told;
    var none: seq<Job> := [];
    assert t.inflight[|t.inflight|..] == none && none[0..] == none;
  }

  lemma NoneQueued(t: Tables, h: History)
    requires Clients(t, h) && Work(t) && Settling(t, h, |t.queue|, 0) && Traced(t, h) && t.inflight == [] && !t.up && t.leased == -1
    ensures Sound(t.(queue := []), h)
  {
    hide Slots, LogOk, Output, Gone, Ids, LogIds, Books, Wids, Nodes, Chronicle, Told;
    assert t.queue[|t.queue|..] == [] && t.inflight[0..] == [];
  }

  /** What became of the jobs that were failed. */
  lemma AllSettled(t: Tables, h: History, t': Tables, h': History)
    requires Balanced(t, h) && Balanced(t', h') && t'.queue == t'.inflight == [] && h'.lost == h.lost && h'.owner == h.owner
    ensures h'.answered + h'.dropped == h.answered + h.dropped + Ids(t.queue) + Ids(t.inflight)
  {
    hide Ids, LogIds;
    assert Ids([]) == multiset{} by { EmptyIds(); }
    Moved(Ids(t.queue), Ids(t.inflight), h.answered, h.dropped, h.lost, h'.answered, h'.dropped, Upto(|h.owner|));
  }

  lemma Moved(q: multiset<nat>, i: multiset<nat>, a: multiset<nat>, d: multiset<nat>, l: multiset<nat>,
              a': multiset<nat>, d': multiset<nat>, all: multiset<nat>)
    requires q + i + a + d + l == all && multiset{} + multiset{} + a' + d' + l == all
    ensures a' + d' == a + d + q + i
  {
    forall x: nat ensures (a' + d')[x] == (a + d + q + i)[x] {
      assert (q + i + a + d + l)[x] == all[x] && (multiset{} + multiset{} + a' + d' + l)[x] == all[x];
    }
  }

  // ---- sending (send_jobs) ---------------------------------------------------------------------

  /** The request as it goes on the link: wire id and node filled in. */
  function Stamp(buf: seq<byte>, wid: nat, node: int): (r: seq<byte>)
    requires |buf| >= JOB_HDR && wid < WIDS && 0 <= node < NODES
    ensures |r| == |buf| && r[3] == node && r[0] + 256 * (r[1] as int) == wid && G4(r, H_LEN) == G4(buf, H_LEN)
    ensures StampOf(Req(r[..JOB_HDR], r[JOB_HDR..]), buf, wid)
  {
    buf[0 := wid % 256][1 := wid / 256][3 := node]
  }

  /** What the network may count on: a stamped request is one it accepts, unless it is too big for a TRAM. */
  lemma StampedIsValid(j: Job, wid: nat, node: int)
    requires Length(j) <= JOB_BIG && G4(j.buf, H_LEN) == Length(j) && wid < WIDS && 0 <= node < NODES
    ensures var b := Stamp(j.buf, wid, node);
            ValidReq(Req(b[..JOB_HDR], b[JOB_HDR..])) <==> node == 0 || Length(j) <= JOB_MAX
  {
  }

  function Items(queue: seq<Job>): (r: seq<Scheduler.Item>)
    ensures |r| == |queue|
    ensures forall i :: 0 <= i < |queue| ==> r[i].op as int == queue[i].buf[2] && r[i].want == queue[i].buf[3] && r[i].n == Length(queue[i])
  {
    seq(|queue|, i requires 0 <= i < |queue| => Scheduler.Item(queue[i].buf[2] as char, queue[i].buf[3], Length(queue[i])))
  }

  function Sending(j: Job, node: int, serial: nat, due: int): Job
    requires 0 <= node < NODES
  {
    j.(node := node, serial := serial, wid := serial % WIDS, due := due, buf := Stamp(j.buf, serial % WIDS, node))
  }

  lemma OwnedRemove(js: seq<Job>, q: nat, cl: seq<int>, conn: seq<int>, owner: seq<int>, cids: seq<int>)
    requires Owned(js, cl, conn, owner, cids) && q < |js|
    ensures Owned(js[..q] + js[q + 1..], cl, conn, owner, cids)
  {
  }

  lemma NodesSnoc(inflight: seq<Job>, busy: seq<bool>, j: Job)
    requires Nodes(inflight, busy) && 0 <= j.node < NODES && !busy[j.node] && |inflight| < NODES
    ensures Nodes(inflight + [j], busy[j.node := true])
  {
    var r, b := inflight + [j], busy[j.node := true];
    forall k | 0 <= k < NODES && b[k] ensures On(r, k) {
      if k == j.node {
        assert r[|inflight|].node == k;
      } else {
        assert On(inflight, k);
        var i :| 0 <= i < |inflight| && inflight[i].node == k;
        assert r[i].node == k;
      }
    }
  }

  lemma WidsSnoc(inflight: seq<Job>, sends: nat, nextwid: int, j: Job)
    requires Wids(inflight, sends, nextwid) && j.serial == sends + 1 && j.wid == j.serial % WIDS
    ensures Wids(inflight + [j], sends + 1, (nextwid + 1) % WIDS)
    ensures Wids(inflight, sends + 1, (nextwid + 1) % WIDS)
  {
    assert (sends % WIDS + 1) % WIDS == (sends + 1) % WIDS;
  }

  lemma QuotaMove(cl: seq<int>, queue: seq<Job>, inflight: seq<Job>, q: nat, j: Job)
    requires Quota(cl, queue, inflight) && q < |queue| && j.fd == queue[q].fd
    ensures Quota(cl, queue[..q] + queue[q + 1..], inflight + [j])
    ensures Quota(cl, queue[..q] + queue[q + 1..], inflight)
  {
    forall i | 0 <= i < |cl| && cl[i] >= 0
      ensures Count(queue[..q] + queue[q + 1..], cl[i]) + Count(inflight + [j], cl[i]) <= CLIENT_MAX_JOBS
      ensures Count(queue[..q] + queue[q + 1..], cl[i]) + Count(inflight, cl[i]) <= CLIENT_MAX_JOBS
    {
      CountRemove(queue, q, cl[i]);
      CountConcat(inflight, [j], cl[i]);
      CountOne(j, cl[i]);
    }
  }

  function Sent(t: Tables, q: nat, j: Job): Tables
    requires q < |t.queue|
  {
    t.(queue := t.queue[..q] + t.queue[q + 1..], inflight := t.inflight + [j], busy := t.busy[j.node := true],
       sends := t.sends + 1, nextwid := (t.nextwid + 1) % WIDS)
  }

  /** The history once job j has been sent. */
  function SentHistory(h: History, j: Job): History {
    h.(order := h.order + [j.id], wrote := h.wrote + [Req(j.buf[..JOB_HDR], j.buf[JOB_HDR..])])
  }

  lemma SentClients(t: Tables, h: History, q: nat, j: Job)
    requires Clients(t, h) && q < |t.queue|
    requires |h.owner| == |h.cids| && OwnedJob(j, t.cl, h.owner, h.cids) && j.fd == t.queue[q].fd && j.id == t.queue[q].id
    ensures Clients(Sent(t, q, j), h)
  {
    hide Slots, Quota, LogOk, Output, Gone;
    OwnedRemove(t.queue, q, t.cl, h.conn, h.owner, h.cids);
    OwnedSnoc(t.inflight, j, t.cl, h.conn, h.owner, h.cids);
    QuotaMove(t.cl, t.queue, t.inflight, q, j);
  }

  lemma BooksMove(n: nat, q: multiset<nat>, i: multiset<nat>, q': multiset<nat>, i': multiset<nat>,
    a: multiset<nat>, d: multiset<nat>, l: multiset<nat>)
    requires Books(n, q, i, a, d, l) && q + i == q' + i'
    ensures Books(n, q', i', a, d, l)
  {
  }

  lemma SentSound(t: Tables, h: History, q: nat, node: int, due: int)
    requires Sound(t, h) && t.up && q < |t.queue| && |t.inflight| < NODES && 0 <= node < NODES && !t.busy[node]
    ensures var j := Sending(t.queue[q], node, t.sends + 1, due); Sound(Sent(t, q, j), SentHistory(h, j))
  {
    hide Owned, Quota, LogOk, Output, Gone, Nodes, Wids, Ids, LogIds, Slots, Traced, Books, Stamp;
    JobBelongs(t, h, q, false);
    var j := Sending(t.queue[q], node, t.sends + 1, due);
    SentClients(t, h, q, j);
    ClientsGrow(Sent(t, q, j), h, SentHistory(h, j));
    NodesSnoc(t.inflight, t.busy, j);
    WidsSnoc(t.inflight, t.sends, t.nextwid, j);
    IdsRemove(t.queue, q);
    IdsSnoc(t.inflight, j);
    var t' := Sent(t, q, j);
    BooksMove(|h.owner|, Ids(t.queue), Ids(t.inflight), Ids(t'.queue), Ids(t'.inflight), h.answered, h.dropped, h.lost);
    TracedSend(t, h, Sent(t, q, j), SentHistory(h, j), q, j, Req(j.buf[..JOB_HDR], j.buf[JOB_HDR..]));
  }

  /** The job whose own link write failed: it is in no table any more. */
  function Lost(t: Tables, q: nat): Tables
    requires q < |t.queue|
  {
    t.(queue := t.queue[..q] + t.queue[q + 1..], sends := t.sends + 1, nextwid := (t.nextwid + 1) % WIDS)
  }

  function LostHistory(h: History, id: nat): History {
    h.(lost := h.lost + multiset{id}, order := h.order + [id])
  }

  lemma LostFails(t: Tables, h: History, q: nat)
    requires Sound(t, h) && t.up && q < |t.queue|
    ensures t.leased == -1 && Failing(Lost(t, q), LostHistory(h, t.queue[q].id))
  {
    hide Owned, Quota, LogOk, Output, Gone, Nodes, Wids, Ids, LogIds, Slots, Traced;
    var h' := LostHistory(h, t.queue[q].id);
    OwnedRemove(t.queue, q, t.cl, h.conn, h.owner, h.cids);
    QuotaMove(t.cl, t.queue, t.inflight, q, t.queue[q]);
    assert Clients(Lost(t, q), h);
    ClientsGrow(Lost(t, q), h, h');
    WidsSnoc(t.inflight, t.sends, t.nextwid, t.queue[q].(serial := t.sends + 1, wid := (t.sends + 1) % WIDS));
    IdsRemove(t.queue, q);
    TracedLost(t, h, Lost(t, q).(up := false), h', q);
  }

  /** Three jobs in flight occupy all three nodes. */
  lemma FullHouse(inflight: seq<Job>, busy: seq<bool>)
    requires Nodes(inflight, busy) && |inflight| == NODES
    ensures busy[0]
  {
    assert inflight[0].node != inflight[1].node && inflight[0].node != inflight[2].node && inflight[1].node != inflight[2].node;
  }

  /** Node 0 is not left idle while a job that may run on it waits. */
  predicate T425Busy(t: Tables) {
    t.up && !t.busy[0] ==> forall i :: 0 <= i < |t.queue| ==> !Scheduler.For0(Items(t.queue)[i])
  }

  /** The clocks, the T425's expected end and the counts of what the World was asked are no part of the invariant. */
  predicate Ticked(t: Tables, t': Tables) {
    t' == t.(end0 := t'.end0, clock := t'.clock, secs := t'.secs, allocs := t'.allocs, writes := t'.writes, boots := t'.boots)
  }

  lemma SameSound(t: Tables, t': Tables, h: History)
    requires Ticked(t, t')
    ensures Clients(t, h) ==> Clients(t', h)
    ensures Work(t) ==> Work(t')
    ensures Mode(t) ==> Mode(t')
    ensures Balanced(t, h) ==> Balanced(t', h)
    ensures Traced(t, h) ==> Traced(t', h)
  {
    hide Clients, Work, Ids, LogIds, Books, Traced;
    if Clients(t, h) {
      SameClients(t, t', h, h);
    }
    if Work(t) {
      SameWork(t, t');
    }
    if Traced(t, h) {
      TracedKeeps(t, h, t', h);
    }
  }

  /** The variables before the first boot, and a history without events. */
  function Blank(clock: int, secs: int): Tables {
    Tables([], [], [false, false, false], [false, false, false], false, -1, 0, 0, JOB_MAX, 0,
           [-1, -1, -1, -1, -1, -1, -1, -1], [[], [], [], [], [], [], [], []], clock, secs, 0, 0, 0, 0, 0)
  }

  const NOTHING := History([-1, -1, -1, -1, -1, -1, -1, -1], 0, {}, [[], [], [], [], [], [], [], []], [], [], [],
                           multiset{}, multiset{}, multiset{}, [], [], 0, [], [], [], [], 0)

  lemma InitialSound(clock: int, secs: int)
    ensures Sound(Blank(clock, secs), NOTHING)
  {
    hide Clients, Work, Traced, Ids;
    assert Ids([]) == multiset{} by { EmptyIds(); }
    InitialClients(clock, secs);
    InitialWork(clock, secs);
  }

  lemma InitialClients(clock: int, secs: int)
    ensures Clients(Blank(clock, secs), NOTHING)
  {
  }

  lemma InitialWork(clock: int, secs: int)
    ensures Work(Blank(clock, secs)) && Traced(Blank(clock, secs), NOTHING)
  {
  }

  lemma EmptyIds()
    ensures Ids([]) == multiset{}
  {
  }

  lemma QueueShape(t: Tables, h: History)
    requires Sound(t, h)
    ensures !t.absent[0]
  {
    hide Clients, Nodes, Wids, Ids, LogIds, Traced;
  }

  lemma NothingWaits(t: Tables)
    requires !t.up && t.queue == []
    ensures T425Busy(t)
  {
  }

  lemma SendDone(t: Tables, h: History)
    requires Sound(t, h) && (!t.up || |t.queue| == 0 || |t.inflight| >= NODES)
    ensures T425Busy(t)
  {
    hide Owned, Quota, LogOk, Output, Gone, Ids, LogIds, Wids, Slots;
    QueueShape(t, h);
    if t.up && |t.queue| > 0 {
      FullHouse(t.inflight, t.busy);
    }
  }

  // ---- replies (poll_link) ---------------------------------------------------------------------

  /** The first in-flight job with this wire id, or |js|. */
  function FindWid(js: seq<Job>, wid: int): (i: nat)
    ensures i <= |js| && (i < |js| ==> js[i].wid == wid) && forall k :: 0 <= k < i ==> js[k].wid != wid
  {
    if js == [] || js[0].wid == wid then 0 else 1 + FindWid(js[1..], wid)
  }

  /** The payload cap an OP_CAPS reply announces, within bounds; as a C long, 0x80000000 and more are negative. */
  function NewCap(frame: seq<byte>): (cap: int)
    ensures JOB_MAX <= cap <= JOB_BIG
  {
    if |frame| >= LREP_HDR + 4 && frame[2] == ST_OK && JOB_MAX <= G4(frame, LREP_HDR) < 0x8000_0000
    then (if G4(frame, LREP_HDR) > JOB_BIG then JOB_BIG else G4(frame, LREP_HDR))
    else JOB_MAX
  }

  /** An image that answers with v is given jobs up to v bytes, within the daemon's own bounds; one that cannot answer, up
      to JOB_MAX. */
  lemma CapMeans(head: seq<byte>, v: nat, more: seq<byte>)
    requires |head| == LREP_HDR && v < 0x8000_0000
    ensures NewCap(head) == JOB_MAX
    ensures head[2] != ST_OK ==> NewCap(head + P4(v) + more) == JOB_MAX
    ensures head[2] == ST_OK && JOB_MAX <= v <= JOB_BIG ==> NewCap(head + P4(v) + more) == v
    ensures head[2] == ST_OK && v < JOB_MAX ==> NewCap(head + P4(v) + more) == JOB_MAX
    ensures head[2] == ST_OK && v > JOB_BIG ==> NewCap(head + P4(v) + more) == JOB_BIG
  {
    G4P4(v, head, more);
  }

  function Landed(t: Tables, i: nat): Tables
    requires i < |t.inflight|
  {
    t.(busy := t.busy[t.inflight[i].node := false], inflight := SwapOut(t.inflight, i))
  }

  /** In-flight job i has a client, and memory for its answer. */
  predicate Deliverable(t: Tables, i: nat, lack: nat -> bool) {
    i < |t.inflight| && t.inflight[i].fd >= 0 && t.inflight[i].fd in t.cl && !lack(t.allocs)
  }

  lemma OwnedSwapOut(js: seq<Job>, i: nat, cl: seq<int>, conn: seq<int>, owner: seq<int>, cids: seq<int>)
    requires Owned(js, cl, conn, owner, cids) && i < |js|
    ensures Owned(SwapOut(js, i), cl, conn, owner, cids)
  {
    var r := SwapOut(js, i);
    assert forall k :: 0 <= k < |r| ==> r[k] == js[if k == i then |js| - 1 else k];
  }

  lemma NodesSwapOut(js: seq<Job>, busy: seq<bool>, i: nat)
    requires Nodes(js, busy) && i < |js|
    ensures Nodes(SwapOut(js, i), busy[js[i].node := false])
  {
    var r, l, b := SwapOut(js, i), |js| - 1, busy[js[i].node := false];
    assert forall k :: 0 <= k < |r| ==> r[k] == js[if k == i then l else k];
    forall k | 0 <= k < |r| ensures r[k].node != js[i].node {
      if k == i {
        assert js[i].node != js[l].node;
      } else if k < i {
        assert js[k].node != js[i].node;
      } else {
        assert js[i].node != js[k].node;
      }
    }
    forall n | 0 <= n < NODES && b[n] ensures On(r, n) {
      assert On(js, n);
      var k :| 0 <= k < |js| && js[k].node == n;
      assert r[if k == l then i else k].node == n;
    }
  }

  lemma WidsSwapOut(js: seq<Job>, sends: nat, nextwid: int, i: nat)
    requires Wids(js, sends, nextwid) && i < |js|
    ensures Wids(SwapOut(js, i), sends, nextwid)
  {
    var r := SwapOut(js, i);
    assert forall k :: 0 <= k < |r| ==> r[k] == js[if k == i then |js| - 1 else k];
  }

  lemma QuotaSwapOut(cl: seq<int>, queue: seq<Job>, js: seq<Job>, i: nat)
    requires Quota(cl, queue, js) && i < |js|
    ensures Quota(cl, queue, SwapOut(js, i))
  {
    forall k | 0 <= k < |cl| && cl[k] >= 0 ensures Count(queue, cl[k]) + Count(SwapOut(js, i), cl[k]) <= CLIENT_MAX_JOBS {
      CountSwapOut(js, i, cl[k]);
    }
  }

  lemma NewCapOk(t: Tables, h: History, frame: seq<byte>)
    requires Sound(t, h)
    ensures Sound(t.(bigMax := NewCap(frame)), h)
  {
    hide Clients, Nodes, Wids, Ids, LogIds, Traced;
    SameClients(t, t.(bigMax := NewCap(frame)), h, h);
    TracedKeeps(t, h, t.(bigMax := NewCap(frame)), h);
  }

  /** The reply matched with in-flight job i, as the next one of the history. */
  function HitHistory(t: Tables, h: History, i: nat, frame: seq<byte>): History
    requires i < |t.inflight|
  {
    h.(replies := h.replies + [Reply(frame, t.inflight[i].serial, Serials(t.inflight), t.sends)])
  }

  /** It may be handed to the job's owner. */
  lemma HitBelongs(t: Tables, h: History, i: nat, frame: seq<byte>)
    requires Clients(t, h) && Traced(t, h) && Wids(t.inflight, t.sends, t.nextwid) && i < |t.inflight|
    requires |frame| >= LREP_HDR && Wid(frame) == t.inflight[i].wid
    ensures Clients(t, HitHistory(t, h, i, frame))
    ensures 0 <= t.inflight[i].cid < 65536
    ensures var j := t.inflight[i];
            Belongs(t, HitHistory(t, h, i, frame), j.fd, ClientFrame(frame, j.cid), j.id, |h.replies|)
  {
    hide Clients, Traced, ClientFrame, Wid, Serials;
    TracedShape(t, h);
    JobBelongs(t, h, i, true);
    ClientsGrow(t, h, HitHistory(t, h, i, frame));
  }

  lemma OrphanNotOpen(t: Tables, h: History, i: nat)
    requires Clients(t, h) && i < |t.inflight| && t.inflight[i].fd < 0
    ensures t.inflight[i].id < |h.owner| && NotOpen(t.cl, h.conn, h.owner[t.inflight[i].id])
  {
    hide Quota, LogOk, Output, Gone;
    assert OwnedJob(t.inflight[i], t.cl, h.owner, h.cids);
  }

  lemma LandBooks(t: Tables, h: History, t': Tables, h': History, i: nat, ok: bool, e: Entry)
    requires Balanced(t, h) && i < |t.inflight|
    requires if ok then Queued(t, h, t', h', e) && e.id == t.inflight[i].id else h' == h && (t' == t || Refused(t, t', t.inflight[i].fd))
    ensures |t'.inflight| == |t.inflight| && t'.inflight[i].id == t.inflight[i].id && Ids(t'.inflight) == Ids(t.inflight)
    ensures t'.up == t.up && t'.leased == t.leased && t'.sends == t.sends
    ensures SameTags(t.inflight, t'.inflight) && SameBufs(t.queue, t'.queue)
    ensures Books(|h'.owner|, Ids(t'.queue), Ids(t'.inflight), h'.answered, h'.dropped, h'.lost)
    ensures LogIds(h'.log) == h'.answered + (if ok then multiset{t'.inflight[i].id} else multiset{})
  {
    hide Ids, LogIds;
    if ok {
      LogSnoc(h.log, e, 0);
    }
  }

  lemma SwapOutTags(js: seq<Job>, js': seq<Job>, i: nat)
    requires SameTags(js, js') && i < |js|
    ensures SameTags(SwapOut(js, i), SwapOut(js', i))
  {
  }

  /** Job i has been told, or its client is gone; it leaves the in-flight table and its node is idle. */
  lemma LandedSound(t: Tables, h: History, i: nat, ok: bool)
    requires Clients(t, h) && Work(t) && t.up && t.leased == -1 && i < |t.inflight|
    requires Books(|h.owner|, Ids(t.queue), Ids(t.inflight), h.answered, h.dropped, h.lost)
    requires LogIds(h.log) == h.answered + (if ok then multiset{t.inflight[i].id} else multiset{})
    requires !ok ==> t.inflight[i].id < |h.owner| && NotOpen(t.cl, h.conn, h.owner[t.inflight[i].id])
    ensures var t', h' := Landed(t, i), Settled(h, t.inflight[i].id, ok);
            Clients(t', h') && Work(t') && Mode(t') && Balanced(t', h')
  {
    hide Slots, Owned, Quota, LogOk, Output, Gone, Wids, Ids, LogIds, SwapOut, On;
    var id := t.inflight[i].id;
    SettledClients(t, h, id, ok);
    OwnedSwapOut(t.inflight, i, t.cl, h.conn, h.owner, h.cids);
    NodesSwapOut(t.inflight, t.busy, i);
    WidsSwapOut(t.inflight, t.sends, t.nextwid, i);
    QuotaSwapOut(t.cl, t.queue, t.inflight, i);
    IdsSwapOut(t.inflight, i);
  }

  /** The trace after reply frame was handed to job i's owner, or found it gone. */
  lemma LandedTraced(t: Tables, h: History, t': Tables, h': History, i: nat, frame: seq<byte>, ok: bool, e: Entry)
    requires Traced(t, h) && t.up && i < |t.inflight| && |frame| >= LREP_HDR && Wids(t.inflight, t.sends, t.nextwid)
    requires Wid(frame) == t.inflight[i].wid
    requires t'.sends == t.sends && t'.up == t.up && SameTags(t.inflight, t'.inflight) && SameBufs(t.queue, t'.queue)
    requires var g := HitHistory(t, h, i, frame);
             if ok then h' == g.(log := g.log + [e], sent := h'.sent, broken := h'.broken) && e.id == t.inflight[i].id && e.from == |h.replies|
             else h' == g
    ensures Traced(Landed(t', i), Settled(h', t.inflight[i].id, ok))
  {
    hide Traced, Wids, SwapOut;
    SwapOutTags(t.inflight, t'.inflight, i);
    var h1 := Settled(h', t.inflight[i].id, ok);
    if ok {
      assert h1.log[|h.log|] == e;
      assert AnsweredBy(h1.log, |h.replies|, t.inflight[i].id);
    }
    TracedHit(t, h, Landed(t', i), h1, i, frame);
  }

  /** What a read of x does to the receiver's clause, before and after the frame is handled. */
  lemma ReceivedMore(got: seq<byte>, stale: seq<byte>, link: seq<byte>, replies: seq<Reply>, since: nat, x: seq<byte>)
    requires Received(got, stale, link, replies, since) && |got| + |x| <= FrameLen(got)
    ensures |got + x| <= LREP_HDR + JOB_BIG
    ensures BadLength(got + x) ==> Parse(stale + (link + x)) == Parsed(Frames(replies, since), got + x, true)
    ensures !BadLength(got + x) && |got + x| < FrameLen(got + x) ==> Received(got + x, stale, link + x, replies, since)
    ensures !BadLength(got + x) && |got + x| >= FrameLen(got + x) ==>
              Whole(got + x) && Parse(stale + (link + x)) == Parsed(Frames(replies, since) + [got + x], [], false)
  {
    hide Parse, G4, Frames;
    Stable(got, x);
    assert stale + (link + x) == (stale + link) + x;
    ReadStep(stale + link, x);
  }

  /** The frame just completed is the next reply. */
  lemma ReceivedNext(f: seq<byte>, stale: seq<byte>, link: seq<byte>, replies: seq<Reply>, since: nat, r: Reply)
    requires since <= |replies| && Parse(stale + link) == Parsed(Frames(replies, since) + [f], [], false) && r.frame == f
    ensures Received([], stale, link, replies + [r], since)
  {
    hide Parse;
    assert Frames(replies + [r], since) == Frames(replies, since) + [f];
  }

  lemma ReceivedShape(got: seq<byte>, stale: seq<byte>, link: seq<byte>, replies: seq<Reply>, since: nat)
    requires Received(got, stale, link, replies, since)
    ensures !BadLength(got) && |got| < FrameLen(got) && since <= |replies|
  {
  }

  /** The bytes read are no part of the tables' clauses. */
  lemma SameHistory(t: Tables, h: History, h': History)
    requires Sound(t, h) && h' == h.(link := h'.link, stale := h'.stale)
    ensures Sound(t, h')
  {
    hide Clients, Ids, LogIds, Books, Traced;
    SameClients(t, t, h, h');
    TracedKeeps(t, h, t, h');
  }

  /** While the network is down the chronicle may begin anew. */
  lemma FreshStream(t: Tables, h: History, h': History)
    requires Sound(t, h) && !t.up && h' == h.(link := [], stale := [], since := |h.replies|)
    ensures Sound(t, h')
  {
    hide Clients, Ids, LogIds, Books, Told, OrderOk;
    SameClients(t, t, h, h');
  }

  lemma Stable(got: seq<byte>, x: seq<byte>)
    ensures |got| >= LREP_HDR ==> FrameLen(got + x) == FrameLen(got) && (BadLength(got + x) <==> BadLength(got))
    ensures |got + x| >= LREP_HDR ==> G4(got + x, 3) >= 0
  {
  }

  // ---- clients coming and asking (main) --------------------------------------------------------

  function Accepted(t: Tables, i: nat, c: int): Tables
    requires i < MAXCL
  {
    t.(cl := t.cl[i := c], oq := t.oq[i := []])
  }

  lemma CountNone(js: seq<Job>, cl: seq<int>, conn: seq<int>, owner: seq<int>, cids: seq<int>, c: int)
    requires Owned(js, cl, conn, owner, cids) && c >= 0 && c !in cl
    ensures Count(js, c) == 0
  {
    forall q | 0 <= q < |js| ensures js[q].fd != c {
      assert OwnedJob(js[q], cl, owner, cids);
    }
    CountZero(js, c);
  }

  lemma {:induction false} CountZero(js: seq<Job>, c: int)
    requires forall q :: 0 <= q < |js| ==> js[q].fd != c
    ensures Count(js, c) == 0
  {
    if js != [] {
      CountZero(js[..|js| - 1], c);
    }
  }

  lemma OwnedAccept(js: seq<Job>, cl: seq<int>, conn: seq<int>, owner: seq<int>, cids: seq<int>, i: nat, c: int, nextConn: nat)
    requires Owned(js, cl, conn, owner, cids) && i < |cl| && cl[i] == -1 && c >= 0 && c !in cl && Known(owner, nextConn)
    ensures Owned(js, cl[i := c], conn[i := nextConn], owner, cids)
  {
    var cl', conn' := cl[i := c], conn[i := nextConn];
    forall q | 0 <= q < |js| ensures OwnedJob(js[q], cl', owner, cids) {
      assert OwnedJob(js[q], cl, owner, cids);
      if js[q].fd >= 0 {
        var k :| 0 <= k < |cl| && cl[k] == js[q].fd;
        assert cl'[k] == js[q].fd;
      }
    }
    forall q, k | 0 <= q < |js| && 0 <= k < |cl'| && cl'[k] >= 0 ensures cl'[k] == js[q].fd <==> conn'[k] == owner[js[q].id] {
      assert OwnedJob(js[q], cl, owner, cids);
    }
  }

  lemma GoneAccept(dropped: multiset<nat>, cl: seq<int>, conn: seq<int>, owner: seq<int>, i: nat, c: int, nextConn: nat)
    requires Gone(dropped, cl, conn, owner) && i < |cl| == |conn| && Known(owner, nextConn)
    ensures Gone(dropped, cl[i := c], conn[i := nextConn], owner)
  {
  }

  lemma OutputAccept(log: seq<Entry>, cl: seq<int>, conn: seq<int>, broken: set<int>, sent: seq<seq<byte>>, oq: seq<seq<Chunk>>,
                     i: nat, c: int, nextConn: nat)
    requires Output(log, cl, conn, broken, sent, oq) && i < |cl| && forall k :: 0 <= k < |log| ==> log[k].conn < nextConn
    ensures Output(log, cl[i := c], conn[i := nextConn], broken, sent[i := []], oq[i := []])
  {
    GivenNothing(log, nextConn);
  }

  lemma LogConns(log: seq<Entry>, owner: seq<int>, cids: seq<int>, nextConn: nat, order: seq<nat>, replies: seq<Reply>)
    requires LogOk(log, owner, cids, nextConn, order, replies)
    ensures forall k :: 0 <= k < |log| ==> log[k].conn < nextConn
  {
    hide AnswerOk;
    forall k | 0 <= k < |log| ensures log[k].conn < nextConn {
      assert EntryOk(log[k], owner, cids, nextConn, order, replies);
    }
  }

  lemma LogLater(log: seq<Entry>, owner: seq<int>, cids: seq<int>, nextConn: nat, order: seq<nat>, replies: seq<Reply>)
    requires LogOk(log, owner, cids, nextConn, order, replies)
    ensures LogOk(log, owner, cids, nextConn + 1, order, replies)
  {
    hide AnswerOk;
  }

  /** A new connection, with a number of its own, even when its descriptor has been used before. */
  lemma AcceptedSound(t: Tables, h: History, i: nat, c: int)
    requires Sound(t, h) && i < MAXCL && |h.conn| == |h.sent| == MAXCL && t.cl[i] == -1 && c >= 0 && c !in t.cl
    ensures Sound(Accepted(t, i, c), h.(conn := h.conn[i := h.nextConn], nextConn := h.nextConn + 1, sent := h.sent[i := []]))
  {
    hide Owned, LogOk, Output, Gone, Nodes, Wids, Ids, LogIds, Count, Traced;
    TracedKeeps(t, h, Accepted(t, i, c), h.(conn := h.conn[i := h.nextConn], nextConn := h.nextConn + 1, sent := h.sent[i := []]));
    OwnedAccept(t.queue, t.cl, h.conn, h.owner, h.cids, i, c, h.nextConn);
    OwnedAccept(t.inflight, t.cl, h.conn, h.owner, h.cids, i, c, h.nextConn);
    GoneAccept(h.dropped, t.cl, h.conn, h.owner, i, c, h.nextConn);
    LogConns(h.log, h.owner, h.cids, h.nextConn, h.order, h.replies);
    OutputAccept(h.log, t.cl, h.conn, h.broken, h.sent, t.oq, i, c, h.nextConn);
    LogLater(h.log, h.owner, h.cids, h.nextConn, h.order, h.replies);
    CountNone(t.queue, t.cl, h.conn, h.owner, h.cids, c);
    CountNone(t.inflight, t.cl, h.conn, h.owner, h.cids, c);
  }

  function Admitted(t: Tables, j: Job): Tables {
    t.(queue := t.queue + [j], admitted := t.admitted + 1)
  }

  function AdmitHistory(h: History, o: int, j: Job): History {
    h.(owner := h.owner + [o], cids := h.cids + [j.cid], subs := h.subs + [j.buf])
  }

  /** A client's job joins the queue. */
  lemma AdmittedSound(t: Tables, h: History, i: nat, j: Job)
    requires Sound(t, h) && t.up && i < MAXCL == |h.conn| && t.cl[i] >= 0 && |t.queue| < QMAX
    requires j.fd == t.cl[i] && j.id == t.admitted
    requires |j.buf| <= JOB_HDR + JOB_BIG && G4(j.buf, H_LEN) == Length(j)
    requires Count(t.queue, j.fd) + Count(t.inflight, j.fd) < CLIENT_MAX_JOBS
    ensures Sound(Admitted(t, j), AdmitHistory(h, h.conn[i], j))
  {
    hide Quota, LogOk, Output, Gone, Ids, Books, LogIds, Nodes, Wids, Count, G4, Traced;
    var o := h.conn[i];
    TracedShape(t, h);
    TracedAdmit(t, h, Admitted(t, j), AdmitHistory(h, o, j), j);
    GoneMore(h.dropped, t.cl, h.conn, h.owner, o);
    OwnedMore(t.queue, t.cl, h.conn, h.owner, h.cids, o, j.cid);
    OwnedMore(t.inflight, t.cl, h.conn, h.owner, h.cids, o, j.cid);
    LogMore(h.log, h.owner, h.cids, h.nextConn, h.order, h.replies, o, j.cid);
    OwnedSnoc(t.queue, j, t.cl, h.conn, h.owner + [o], h.cids + [j.cid]);
    QuotaSnoc(t.cl, t.queue, t.inflight, j);
    BooksAdmit(|h.owner|, t.queue, j, Ids(t.inflight), h.answered, h.dropped, h.lost);
  }

  lemma DroppedSound(t: Tables, h: History, i: nat)
    requires Sound(t, h) && i < MAXCL
    requires Clients(Closed(t, i), h) && Work(Closed(t, i))
    requires Ids(Closed(t, i).queue) == Ids(t.queue) && Ids(Closed(t, i).inflight) == Ids(t.inflight)
    ensures Sound(Closed(t, i), h)
  {
    hide Clients, Work, Ids, LogIds, Traced;
    OrphanTags(t.queue, t.cl[i]);
    OrphanTags(t.inflight, t.cl[i]);
    TracedKeeps(t, h, Closed(t, i), h);
  }

  lemma Shape(t: Tables, h: History)
    requires Sound(t, h)
    ensures |h.conn| == |h.sent| == MAXCL && JOB_MAX <= t.bigMax <= JOB_BIG
    ensures |h.owner| == |h.cids| == t.admitted && -1 <= t.leased < MAXCL
    ensures t.leased >= 0 ==> t.downSince == 0 && !t.up
    ensures forall k :: 0 <= k < MAXCL ==> t.cl[k] >= -1
    ensures !t.up ==> t.queue == [] && t.inflight == []
  {
    hide Owned, Quota, LogOk, Gone, Nodes, Wids, Ids, LogIds, Traced;
  }

  lemma LeaseSound(t: Tables, h: History, i: nat)
    requires Sound(t, h) && !t.up && t.leased == -1 && i < MAXCL
    ensures Sound(t.(downSince := 0, leased := i), h)
  {
    hide Clients, Work, Ids, LogIds, Traced;
    SameClients(t, t.(downSince := 0, leased := i), h, h);
    SameWork(t, t.(downSince := 0, leased := i));
    TracedKeeps(t, h, t.(downSince := 0, leased := i), h);
  }

  lemma BufLen(hdr: seq<byte>, payload: seq<byte>)
    requires |hdr| == JOB_HDR
    ensures G4(hdr + payload, H_LEN) == G4(hdr, H_LEN)
  {
  }

  lemma RefusedSound(t: Tables, t': Tables, h: History, fd: int)
    requires Sound(t, h) && Refused(t, t', fd) && Clients(t', h) && Work(t')
    ensures Sound(t', h)
  {
    hide Clients, Work, Ids, LogIds, Traced;
    OrphanTags(t.queue, fd);
    OrphanTags(t.inflight, fd);
    TracedKeeps(t, h, t', h);
  }

  // ---- what the invariant says -----------------------------------------------------------------

  lemma {:induction false} UptoOnce(n: nat, id: nat)
    ensures Upto(n)[id] == if id < n then 1 else 0
  {
    if n > 0 {
      UptoOnce(n - 1, id);
    }
  }

  /** Every admitted job is, at all times, in exactly one of five places: queued, in flight, answered, dropped after its
      client was gone, or lost to its own failed link write. */
  lemma OneFate(t: Tables, h: History, id: nat)
    requires Clients(t, h) && Balanced(t, h) && id < t.admitted
    ensures Ids(t.queue)[id] + Ids(t.inflight)[id] + h.answered[id] + h.dropped[id] + h.lost[id] == 1
    ensures h.dropped[id] == 1 ==> id < |h.owner| && NotOpen(t.cl, h.conn, h.owner[id])
  {
    hide Slots, Owned, Quota, LogOk, Output, Ids, LogIds;
    UptoOnce(|h.owner|, id);
  }

  /** Two answers to one job would count twice. */
  lemma {:induction false} TwiceTold(log: seq<Entry>, i: nat, k: nat)
    requires i < k < |log| && log[i].id == log[k].id >= 0
    ensures LogIds(log)[log[k].id] >= 2
  {
    if k == |log| - 1 {
      OnceTold(log[..k], i);
      assert log[..k][i] == log[i];
    } else {
      TwiceTold(log[..|log| - 1], i, k);
    }
  }

  lemma {:induction false} OnceTold(log: seq<Entry>, i: nat)
    requires i < |log| && log[i].id >= 0
    ensures LogIds(log)[log[i].id] >= 1
  {
    if i < |log| - 1 {
      OnceTold(log[..|log| - 1], i);
    }
  }

  /** A job's answer goes only to the connection that submitted it, whatever has become of the descriptor since.  It is
      ST_DOWN, or the link reply matched with the job's send, under the client's id and without the node byte; no job is
      answered twice and no link reply is handed out twice. */
  lemma OnlyItsOwner(t: Tables, h: History, k: nat)
    requires Sound(t, h) && k < |h.log| && h.log[k].id >= 0
    ensures var e := h.log[k];
            e.id < |h.owner| == |h.cids| && e.conn == h.owner[e.id] && AnswerOk(e, h.cids[e.id], h.order, h.replies)
    ensures forall m :: 0 <= m < |h.log| && m != k ==> h.log[m].id != h.log[k].id
    ensures forall m :: 0 <= m < |h.log| && m != k ==> h.log[m].from < 0 || h.log[m].from != h.log[k].from
    ensures h.answered[h.log[k].id] == 1
  {
    hide Slots, Owned, Quota, Output, Gone, Work, Ids, LogIds, Traced, StatusFrame, ClientFrame, Wid;
    var id := h.log[k].id;
    assert EntryOk(h.log[k], h.owner, h.cids, h.nextConn, h.order, h.replies);
    UptoOnce(|h.owner|, id);
    OnceTold(h.log, k);
    forall m | 0 <= m < |h.log| && m != k ensures h.log[m].id != id {
      if h.log[m].id == id {
        if m < k {
          TwiceTold(h.log, m, k);
        } else {
          TwiceTold(h.log, k, m);
        }
      }
    }
    forall m | 0 <= m < |h.log| && m != k ensures h.log[m].from < 0 || h.log[m].from != h.log[k].from {
      assert EntryOk(h.log[m], h.owner, h.cids, h.nextConn, h.order, h.replies);
    }
  }

  /** Fewer than 65,536 sends during the flight of any job: whenever a reply was taken, every send in flight was recent. */
  predicate Prompt(replies: seq<Reply>, since: nat) {
    forall k, n :: since <= k < |replies| && n in replies[k].open ==> replies[k].when - n < WIDS
  }

  /** meant tells which send each reply since the last boot answers: one made before the reply was read, whose wire id the
      reply carries, and no send twice.  This is what the network promises (see EndToEnd). */
  predicate Meant(meant: seq<nat>, replies: seq<Reply>, since: nat, start: nat) {
    && since <= |replies| && |meant| == |replies| - since
    && (forall k :: 0 <= k < |meant| ==> MeantAt(meant[k], replies[since + k], start))
    && (forall j, k :: 0 <= j < k < |meant| ==> meant[j] != meant[k])
  }

  predicate MeantAt(n: nat, r: Reply, start: nat) { start < n <= r.when && |r.frame| >= LREP_HDR && n % WIDS == Wid(r.frame) }

  /** Then every reply was matched with the very send it answers. */
  lemma {:induction false} RightMatch(replies: seq<Reply>, since: nat, start: nat, sends: nat, meant: seq<nat>, k: nat)
    requires Chronicle(replies, since, start, sends) && Meant(meant, replies, since, start) && Prompt(replies, since) && k < |meant|
    ensures replies[since + k].hit == meant[k]
    decreases k
  {
    hide Range;
    var r, n := replies[since + k], meant[k];
    assert MeantAt(n, r, start);
    assert ReplyOk(replies, since, start, sends, since + k);
    if n in Hits(replies, since, since + k) {
      var j :| since <= j < since + k && replies[j].hit == n;
      RightMatch(replies, since, start, sends, meant, j - since);
    }
    assert n in r.open;
    assert n % WIDS == Wid(r.frame);
    assert r.hit in r.open && r.hit % WIDS == n % WIDS;
    assert r.when - n < WIDS && r.when - r.hit < WIDS && r.hit <= r.when && n <= r.when;
    Congruent(r.hit, n);
  }

  lemma Congruent(a: int, b: int)
    requires -WIDS < a - b < WIDS && a % WIDS == b % WIDS
    ensures a == b
  {
  }

  /** A reply reaches the connection that submitted the job it answers, and no other: it is in that connection's output
      once, under the client's id and without the node byte, unless the connection is gone. */
  lemma ReplyReachesItsJob(t: Tables, h: History, meant: seq<nat>, k: nat)
    requires Sound(t, h) && Meant(meant, h.replies, h.since, h.start) && Prompt(h.replies, h.since) && k < |meant|
    ensures 1 <= meant[k] <= |h.order| && h.order[meant[k] - 1] < |h.owner| == |h.cids|
    ensures var id := h.order[meant[k] - 1];
            || (id in h.dropped && NotOpen(t.cl, h.conn, h.owner[id]))
            || (exists m :: 0 <= m < |h.log| && h.log[m].from == h.since + k && h.log[m].conn == h.owner[id]
                            && 0 <= h.cids[id] < 65536 && |h.replies[h.since + k].frame| >= LREP_HDR
                            && h.log[m].frame == ClientFrame(h.replies[h.since + k].frame, h.cids[id]))
    ensures var id := h.order[meant[k] - 1];
            forall m :: 0 <= m < |h.log| && h.log[m].from == h.since + k ==> h.log[m].id == id && h.log[m].conn == h.owner[id]
  {
    hide Slots, Owned, Quota, Output, Ids, LogIds, Work, Balanced, Prompt, StatusFrame, ClientFrame, Wid, OrderOk, OpenOk, WroteOk, Chronicle;
    RightMatch(h.replies, h.since, h.start, t.sends, meant, k);
    var r := h.replies[h.since + k];
    assert ReplyTold(h.log, h.dropped, h.order, r.hit, h.since + k);
    var id := h.order[meant[k] - 1];
    if id !in h.dropped {
      var m :| 0 <= m < |h.log| && h.log[m].from == h.since + k && h.log[m].id == id;
      assert EntryOk(h.log[m], h.owner, h.cids, h.nextConn, h.order, h.replies);
    }
    forall m | 0 <= m < |h.log| && h.log[m].from == h.since + k ensures h.log[m].id == id && h.log[m].conn == h.owner[id] {
      assert EntryOk(h.log[m], h.owner, h.cids, h.nextConn, h.order, h.replies);
    }
  }

  /** A reply with a job's wire id is taken for that job, given fewer than 65,536 sends during any flight. */
  lemma ReplyFindsItsJob(t: Tables, h: History, i: nat)
    requires Sound(t, h) && Recent(t.inflight, t.sends) && i < |t.inflight|
    ensures FindWid(t.inflight, t.inflight[i].wid) == i
  {
    hide Clients, Nodes, Ids, LogIds, Recent, Wids, Traced;
    var k := FindWid(t.inflight, t.inflight[i].wid);
    assert k <= i;
    WidUnique(t.inflight, t.sends, t.nextwid, k, i);
  }

  /** The bounds the source states: 32 queued, one job per node, 16 outstanding per client. */
  lemma Limits(t: Tables, h: History)
    requires Sound(t, h)
    ensures |t.queue| <= QMAX && |t.inflight| <= NODES && |t.busy| == NODES
    ensures forall k :: 0 <= k < NODES ==> (t.busy[k] <==> On(t.inflight, k))
    ensures forall i, j :: 0 <= i < j < |t.inflight| ==> t.inflight[i].node != t.inflight[j].node
    ensures forall i :: 0 <= i < |t.cl| && t.cl[i] >= 0 ==> Count(t.queue, t.cl[i]) + Count(t.inflight, t.cl[i]) <= CLIENT_MAX_JOBS
  {
    hide Slots, Owned, LogOk, Output, Gone, Wids, Ids, LogIds, Count, Traced;
  }

  /** The one way to be forgotten: a job whose own link write fails is in no table, answered by nobody, while its client
      is still connected and waiting.  (Every other job of go_down is answered or has no client left.) */
  lemma LostIsUnanswered(t: Tables, h: History, q: nat)
    requires Sound(t, h) && t.up && q < |t.queue| && t.queue[q].fd >= 0
    ensures var t', h', id := Lost(t, q), LostHistory(h, t.queue[q].id), t.queue[q].id;
            && Failing(t', h') && t.queue[q].fd in t'.cl && h'.lost[id] == 1
            && h'.answered[id] == 0 && h'.dropped[id] == 0 && Ids(t'.queue)[id] == 0 && Ids(t'.inflight)[id] == 0
  {
    hide Slots, Quota, LogOk, Output, Gone, Nodes, Wids, Ids, LogIds, Traced;
    LostFails(t, h, q);
    assert OwnedJob(t.queue[q], t.cl, h.owner, h.cids);
    OneFate(Lost(t, q), LostHistory(h, t.queue[q].id), t.queue[q].id);
  }

  // ---- what the steps of the main loop make of the tables ---------------------------------------

  /** poll_link, one whole reply: node 0's answer to the daemon's own question sets the payload cap; a reply to a job in
      flight goes to its client and frees its node. */
  function AfterReply(t: Tables, frame: seq<byte>, w: World): Tables {
    if |frame| < LREP_HDR then t
    else
      var i := FindWid(t.inflight, Wid(frame));
      if i == |t.inflight| then t
      else
        var j := t.inflight[i];
        var a := if j.buf[2] == OP_CAPS then t.(bigMax := NewCap(frame)) else t;
        Landed(AfterWr(a, j.fd, ClientFrame(frame, j.cid), w), i)
  }

  function AfterReplies(t: Tables, fs: seq<seq<byte>>, w: World): Tables {
    if fs == [] then t else AfterReply(AfterReplies(t, fs[..|fs| - 1], w), fs[|fs| - 1], w)
  }

  /** poll_link, for all the bytes the link has: every whole reply in order, and a bad length fails everything. */
  function AfterPoll(t: Tables, got: seq<byte>, avail: seq<byte>, w: World): (Tables, seq<byte>) {
    var p := Parse(got + avail);
    var u := AfterReplies(t, p.frames, w);
    if p.bad then (AfterDown(u, w), []) else (u, p.rest)
  }

  /** The time left on the T425's job, in ms. */
  function Left(t: Tables): nat {
    if t.busy[0] && t.end0 > t.clock then (t.end0 - t.clock) * 1000 / 200 else 0
  }

  /** A job for node 0 says when the T425 will be free again. */
  function Aimed(t: Tables, q: nat, node: int): Tables
    requires q < |t.queue|
  {
    var j := t.queue[q];
    if node != 0 then t else t.(end0 := t.clock + Scheduler.EstMs(j.buf[2] as char, Length(j), false) * 200 / 1000)
  }

  /** Job q in flight: three times its estimate there, and five seconds, until the watchdog. */
  function Launched(t: Tables, q: nat, node: int): (u: Tables)
    requires q < |t.queue| && 0 <= node < NODES
    ensures |u.queue| < |t.queue|
  {
    var j := t.queue[q];
    var due := t.clock + (3 * Scheduler.EstMs(j.buf[2] as char, Length(j), node != 0) + 5000) * 200 / 1000;
    Sent(Aimed(t, q, node), q, Sending(j, node, t.sends + 1, due))
  }

  /** send_jobs: pick's choice is sent, until pick has none, the nodes are all taken, or a link write fails. */
  function AfterSends(t: Tables, w: World): Tables
    decreases |t.queue|
  {
    if !t.up || t.queue == [] || |t.inflight| >= NODES then t
    else
      var (q, node) := Scheduler.Chosen(Items(t.queue), t.busy, t.absent, Left(t), 0);
      if q < 0 then t
      else if w.cut(t.sends) then AfterDown(Lost(Aimed(t, q, node), q), w)
      else AfterSends(Launched(t, q, node), w)
  }

  function AfterAccept(t: Tables, c: int): Tables {
    var i := Slot(t.cl, -1);
    if c >= 0 && i < MAXCL then Accepted(t, i, c) else t
  }

  /** A status for client i. */
  function AfterAnswer(t: Tables, i: nat, cid: u16, st: byte, w: World): Tables
    requires i < MAXCL
  {
    AfterWr(t, t.cl[i], StatusFrame(cid, st), w)
  }

  /** OP_LEASE, when nobody has the lease. */
  function AfterLease(t: Tables, i: nat, cid: u16, w: World): Tables
    requires i < MAXCL
  {
    AfterAnswer(AfterDown(t, w).(downSince := 0, leased := i), i, cid, ST_OK, w)
  }

  /** Too long for this network, or too long for any node but the T425. */
  predicate TooBig(t: Tables, hdr: seq<byte>)
    requires |hdr| == JOB_HDR
  {
    var n := G4(hdr, H_LEN);
    n >= 0x8000_0000 || n > t.bigMax || (n > JOB_MAX && hdr[3] != NODE_ANY && hdr[3] != 0)
  }

  function Cid(hdr: seq<byte>): u16
    requires |hdr| == JOB_HDR
  {
    hdr[0] + 256 * (hdr[1] as int)
  }

  /** What may come of a request. */
  datatype Ruling = Close | TellAndClose(st: byte) | Tell(st: byte) | Grant | Enqueue

  /** hdr is what could be read of the header, payload of the rest, and mem says whether there is memory for the job. */
  function Ruled(t: Tables, i: nat, hdr: seq<byte>, payload: seq<byte>, mem: bool): (r: Ruling)
    requires i < MAXCL
    ensures r.Close? || |hdr| == JOB_HDR
  {
    if |hdr| != JOB_HDR then Close
    else if TooBig(t, hdr) then TellAndClose(ST_TOOBIG)
    else if hdr[2] == OP_LEASE then
      if G4(hdr, H_LEN) != 0 then Close else if t.leased >= 0 then Tell(ST_DOWN) else Grant
    else if hdr[3] != NODE_ANY && (hdr[3] >= NODES || t.absent[hdr[3]]) then Tell(ST_NONODE)
    else if !t.up || |t.queue| >= QMAX || Count(t.queue, t.cl[i]) + Count(t.inflight, t.cl[i]) >= CLIENT_MAX_JOBS then Tell(ST_DOWN)
    else if !mem || |payload| != G4(hdr, H_LEN) then Tell(ST_DOWN)
    else Enqueue
  }

  function NewJob(t: Tables, i: nat, hdr: seq<byte>, payload: seq<byte>): Job
    requires i < MAXCL && |hdr| == JOB_HDR
  {
    Job(t.cl[i], Cid(hdr), 0, hdr + payload, 0, 0, t.admitted, 0)
  }

  function AfterRequest(t: Tables, i: nat, hdr: seq<byte>, payload: seq<byte>, mem: bool, w: World): Tables
    requires i < MAXCL
  {
    match Ruled(t, i, hdr, payload, mem)
    case Close => AfterDrop(t, i, w)
    case TellAndClose(st) => AfterDrop(AfterAnswer(t, i, Cid(hdr), st, w), i, w)
    case Tell(st) => AfterAnswer(t, i, Cid(hdr), st, w)
    case Grant => AfterLease(t, i, Cid(hdr), w)
    case Enqueue => Admitted(t, NewJob(t, i, hdr, payload))
  }

  /** The frames it adds to those handed out before: the status, unless there is no memory for it; ST_OK for the lease only
      behind ST_DOWN for everything outstanding. */
  predicate Logged(t: Tables, h: History, log: seq<Entry>, i: nat, hdr: seq<byte>, payload: seq<byte>, mem: bool, w: World)
    requires i < MAXCL == |h.conn|
  {
    match Ruled(t, i, hdr, payload, mem)
    case Close => log == h.log
    case Enqueue => log == h.log
    case Tell(st) => ToldOnce(h, log, i, Cid(hdr), st, !w.lack(t.allocs))
    case TellAndClose(st) => ToldOnce(h, log, i, Cid(hdr), st, !w.lack(t.allocs))
    case Grant => Granted(t, h, log, i, Cid(hdr), w)
  }

  /** Everything outstanding has been failed, and then client i, if it is still there, has been handed ST_OK. */
  predicate Granted(t: Tables, h: History, log: seq<Entry>, i: nat, cid: u16, w: World)
    requires i < MAXCL == |h.conn|
  {
    var u, n := AfterDown(t, w), |log| - 1;
    if u.cl[i] >= 0 && !w.lack(u.allocs)
    then n >= 0 && AllDown(h.log, log[..n]) && log[n] == Entry(h.conn[i], -1, StatusFrame(cid, ST_OK), -1)
    else AllDown(h.log, log)
  }

  /** Client i has been handed status st, or nothing. */
  predicate ToldOnce(h: History, log: seq<Entry>, i: nat, cid: u16, st: byte, told: bool)
    requires i < |h.conn|
  {
    log == h.log + if told then [Entry(h.conn[i], -1, StatusFrame(cid, st), -1)] else []
  }

  predicate Late(inflight: seq<Job>, now: int) { exists k :: 0 <= k < |inflight| && inflight[k].due < now }

  /** The watchdog: it forgets what it has read. */
  function AfterWatch(t: Tables, got: seq<byte>, w: World): (Tables, seq<byte>) {
    if Late(t.inflight, t.clock) then (AfterReboot(AfterDown(t, w), w), []) else (t, got)
  }

  /** The retry while down. */
  function AfterRetry(t: Tables, w: World): Tables {
    if !t.up && t.downSince != 0 && t.secs - t.downSince >= REBOOT_RETRY_S then
      var u := AfterBoot(t, w);
      u.(downSince := if u.up then 0 else t.secs)
    else t
  }

  /** What the world does to the daemon between two steps of its loop, and the loop's own steps. */
  datatype Event =
    | Clock(clock: int, secs: int)
    | Connect(c: int)
    | Readable(i: int, hdr: seq<byte>, payload: seq<byte>, mem: bool)
    | Writable(i: int)
    | Poll(avail: seq<byte>)
    | Send
    | Watch
    | Retry

  /** Variables and reply buffer after an event; events that cannot be (a descriptor twice, a client that is not there)
      change nothing. */
  function AfterEvent(t: Tables, got: seq<byte>, e: Event, w: World): (Tables, seq<byte>) {
    match e
    case Clock(clock, secs) => (t.(clock := clock, secs := secs), got)
    case Connect(c) => (if c in t.cl then t else AfterAccept(t, c), got)
    case Readable(i, hdr, payload, mem) =>
      if 0 <= i < MAXCL && t.cl[i] >= 0 then
        var u := AfterRequest(t, i, hdr, payload, mem, w);
        (u, if u.boots == t.boots then got else [])
      else (t, got)
    case Writable(i) => (if 0 <= i < MAXCL && t.cl[i] >= 0 then AfterFlush(t, i, w) else t, got)
    case Poll(avail) => if t.inflight != [] then AfterPoll(t, got, avail, w) else (t, got)
    case Send => (AfterSends(t, w), got)
    case Watch => AfterWatch(t, got, w)
    case Retry => (AfterRetry(t, w), got)
  }

  function AfterEvents(t: Tables, got: seq<byte>, events: seq<Event>, w: World): (Tables, seq<byte>) {
    if events == [] then (t, got)
    else
      var (u, g) := AfterEvents(t, got, events[..|events| - 1], w);
      AfterEvent(u, g, events[|events| - 1], w)
  }

  // ---- what a request leads to ------------------------------------------------------------------

  /** Who is left when everything outstanding has been answered. */
  function Survivors(t: Tables, w: World): Descriptors { AfterDown(t, w).cl }

  /** Answering everything outstanding leaves no client in slot i. */
  predicate Starved(t: Tables, w: World, i: nat) { i < MAXCL && Survivors(t, w)[i] < 0 }

  /** The daemon takes the request of client i as a job. */
  predicate Joins(t: Tables, i: nat, hdr: seq<byte>, payload: seq<byte>, mem: bool)
    requires i < MAXCL && |hdr| == JOB_HDR
  {
    var n := G4(hdr, H_LEN);
    && t.up && |t.queue| < 32 && Count(t.queue, t.cl[i]) + Count(t.inflight, t.cl[i]) < 16
    && |payload| == n && mem
    && n <= t.bigMax && hdr[2] != OP_LEASE
    && (hdr[3] == 255 || hdr[3] == 0 || (hdr[3] < 3 && n <= 400 * 1024 && !t.absent[hdr[3]]))
  }

  /** Answering on fd may only cost the client there its connection, and takes a failed allocation for that. */
  lemma WrNeeds(t: Tables, fd: int, b: seq<byte>, w: World)
    requires t.leased == -1
    ensures var u := AfterWr(t, fd, b, w);
      && u.leased == -1 && u.allocs >= t.allocs && |u.queue| == |t.queue|
      && (forall q :: 0 <= q < |t.queue| ==> u.queue[q].fd == t.queue[q].fd || u.queue[q].fd == -1)
      && (forall k :: 0 <= k < MAXCL ==> u.cl[k] == t.cl[k] || (u.cl[k] == -1 && t.cl[k] == fd && w.lack(t.allocs)))
  {
    hide Drain, AfterReboot;
  }

  predicate Has(js: seq<Job>, fd: int) { exists k :: 0 <= k < |js| && js[k].fd == fd }

  ghost predicate Lacks(w: World, n: nat) { exists m :: m >= n && w.lack(m) }

  /** What answering jobs js may cost client i: its connection, given a job of its own and a failed allocation. */
  lemma {:induction false} ToldNeeds(t: Tables, js: seq<Job>, w: World, i: nat)
    requires t.leased == -1 && i < MAXCL
    ensures var u := AllTold(t, js, w);
      && u.leased == -1 && u.allocs >= t.allocs && |u.queue| == |t.queue|
      && (forall q :: 0 <= q < |t.queue| ==> u.queue[q].fd == t.queue[q].fd || u.queue[q].fd == -1)
      && (u.cl[i] == t.cl[i] || (u.cl[i] == -1 && Has(js, t.cl[i]) && Lacks(w, t.allocs)))
    decreases |js|
  {
    hide AfterWr, StatusFrame;
    if js != [] {
      var a := AfterWr(t, js[0].fd, StatusFrame(js[0].cid, ST_DOWN), w);
      WrNeeds(t, js[0].fd, StatusFrame(js[0].cid, ST_DOWN), w);
      ToldNeeds(a, js[1..], w, i);
      if a.cl[i] == t.cl[i] && Has(js[1..], t.cl[i]) {
        var k :| 0 <= k < |js[1..]| && js[1..][k].fd == t.cl[i];
        assert js[k + 1].fd == t.cl[i];
      }
    }
  }

  /** So does go_down. */
  lemma DownNeeds(t: Tables, w: World, i: nat)
    requires t.leased == -1 && i < MAXCL
    ensures AfterDown(t, w).leased == -1
    ensures Survivors(t, w)[i] == t.cl[i] ||
            (Survivors(t, w)[i] == -1 && (t.cl[i] >= 0 ==> (Has(t.inflight, t.cl[i]) || Has(t.queue, t.cl[i])) && Lacks(w, t.allocs)))
  {
    hide AllTold;
    var a := t.(up := false, downSince := t.secs);
    ToldNeeds(a, a.inflight, w, i);
    var b := AllTold(a, a.inflight, w).(inflight := [], busy := [false, false, false], up := false);
    ToldNeeds(b, b.queue, w, i);
    if t.cl[i] >= 0 && Has(b.queue, t.cl[i]) {
      var k :| 0 <= k < |b.queue| && b.queue[k].fd == t.cl[i];
      assert t.queue[k].fd == t.cl[i];
    }
  }

  /** A client that go_down leaves without a connection had a job outstanding, and an allocation failed. */
  lemma StarvedNeedsJob(t: Tables, w: World, i: nat)
    requires t.leased == -1 && i < MAXCL && t.cl[i] >= 0 && Starved(t, w, i)
    ensures exists j :: (j in t.queue || j in t.inflight) && j.fd == t.cl[i]
    ensures exists n :: n >= t.allocs && w.lack(n)
  {
    hide Survivors;
    DownNeeds(t, w, i);
    if Has(t.inflight, t.cl[i]) {
      var k :| 0 <= k < |t.inflight| && t.inflight[k].fd == t.cl[i];
      assert t.inflight[k] in t.inflight;
    } else {
      var k :| 0 <= k < |t.queue| && t.queue[k].fd == t.cl[i];
      assert t.queue[k] in t.queue;
    }
  }

  lemma FirstSlot(cl: seq<int>, i: nat)
    requires i < |cl| && forall k :: 0 <= k < i ==> cl[k] != cl[i]
    ensures Slot(cl, cl[i]) == i
  {
    var k := Slot(cl, cl[i]);
    assert cl[i] in cl;
  }

  /** A client's own slot is the first with its descriptor. */
  lemma OwnSlot(t: Tables, h: History, i: nat)
    requires Clients(t, h) && i < MAXCL && t.cl[i] >= 0
    ensures Slot(t.cl, t.cl[i]) == i && t.cl[i] in t.cl
  {
    SlotShape(t, h);
    FirstSlot(t.cl, i);
  }

  /** After a status client i is there if and only if there was memory for it. */
  lemma AnswerKeeps(t: Tables, i: nat, cid: u16, st: byte, w: World)
    requires i < MAXCL && t.cl[i] >= 0 && Slot(t.cl, t.cl[i]) == i
    ensures AfterAnswer(t, i, cid, st, w).cl == if w.lack(t.allocs) then t.cl[i := -1] else t.cl
  {
    hide Drain, AfterReboot, Closed, StatusFrame;
  }

  lemma DownSlots(t: Tables, i: nat, w: World)
    requires i < MAXCL && t.cl[i] >= 0 && Slot(t.cl, t.cl[i]) == i && t.leased == -1
    ensures Survivors(t, w)[i] >= 0 ==> Survivors(t, w)[i] == t.cl[i] && Slot(Survivors(t, w), t.cl[i]) == i
  {
    DownNeeds(t, w, i);
    forall k | 0 <= k < i && Survivors(t, w)[i] >= 0 ensures Survivors(t, w)[k] != t.cl[i] {
      DownNeeds(t, w, k);
    }
    if Survivors(t, w)[i] >= 0 {
      FirstSlot(Survivors(t, w), i);
    }
  }

  /** The client is still connected if and only if its header was whole, its request was not too big, a lease came without
      a payload, and there was memory for whatever it was to be told. */
  lemma RequestKeeps(t: Tables, h: History, i: nat, hdr: seq<byte>, payload: seq<byte>, mem: bool, w: World)
    requires Sound(t, h) && i < MAXCL && t.cl[i] >= 0
    ensures AfterRequest(t, i, hdr, payload, mem, w).cl[i] >= 0 <==>
      && |hdr| == JOB_HDR
      && var n := G4(hdr, H_LEN);
         && n <= t.bigMax && (n > 400 * 1024 ==> hdr[3] == 255 || hdr[3] == 0)
         && (hdr[2] == OP_LEASE ==> n == 0)
         && (if hdr[2] == OP_LEASE && t.leased == -1 then !Starved(t, w, i) && !w.lack(AfterDown(t, w).allocs)
             else Joins(t, i, hdr, payload, mem) || !w.lack(t.allocs))
  {
    hide Clients, Nodes, Wids, Balanced, Traced, G4, Count, AfterDown, AfterDrop, AfterAnswer, Survivors;
    OwnSlot(t, h, i);
    if |hdr| == JOB_HDR {
      forall st: byte ensures AfterAnswer(t, i, Cid(hdr), st, w).cl == if w.lack(t.allocs) then t.cl[i := -1] else t.cl {
        AnswerKeeps(t, i, Cid(hdr), st, w);
      }
      if t.leased == -1 {
        GrantKeeps(t, i, Cid(hdr), w);
      }
    }
  }

  lemma GrantKeeps(t: Tables, i: nat, cid: u16, w: World)
    requires i < MAXCL && t.cl[i] >= 0 && Slot(t.cl, t.cl[i]) == i && t.leased == -1
    ensures AfterLease(t, i, cid, w).cl[i] >= 0 <==> !Starved(t, w, i) && !w.lack(AfterDown(t, w).allocs)
  {
    hide AfterDown, StatusFrame;
    DownSlots(t, i, w);
    var u := AfterDown(t, w).(downSince := 0, leased := i);
    if Starved(t, w, i) {
      assert AfterLease(t, i, cid, w) == u;
    } else {
      AnswerKeeps(u, i, cid, ST_OK, w);
    }
  }

  /** The jobs here are numbered below n, or the daemon's own. */
  predicate Only(js: seq<Job>, n: nat) { forall q :: 0 <= q < |js| ==> js[q].id < n || js[q].fd < 0 }

  lemma QueuedBefore(t: Tables, h: History)
    requires Clients(t, h)
    ensures Only(t.queue, t.admitted)
  {
    hide Slots, Quota, LogOk, Output, Gone;
    forall q | 0 <= q < |t.queue| ensures t.queue[q].id < t.admitted {
      assert OwnedJob(t.queue[q], t.cl, h.owner, h.cids);
    }
  }

  lemma DropOnly(t: Tables, i: nat, w: World, n: nat)
    requires Only(t.queue, n) && i < MAXCL
    ensures Only(AfterDrop(t, i, w).queue, n)
  {
  }

  lemma WrOnly(t: Tables, fd: int, b: seq<byte>, w: World, n: nat)
    requires Only(t.queue, n)
    ensures Only(AfterWr(t, fd, b, w).queue, n)
  {
    hide AfterDrop, Drain;
    var i := Slot(t.cl, fd);
    if i < MAXCL {
      DropOnly(t.(allocs := t.allocs + 1), i, w, n);
    }
  }

  /** Whatever else comes of a request, no client's job joins the queue. */
  lemma NoJoin(t: Tables, i: nat, hdr: seq<byte>, payload: seq<byte>, mem: bool, w: World)
    requires i < MAXCL && Only(t.queue, t.admitted) && !Ruled(t, i, hdr, payload, mem).Enqueue?
    ensures Only(AfterRequest(t, i, hdr, payload, mem, w).queue, t.admitted)
  {
    hide AfterDrop, AfterWr, AfterDown, Ruled, StatusFrame;
    match Ruled(t, i, hdr, payload, mem)
    case Close => DropOnly(t, i, w, t.admitted);
    case TellAndClose(st) =>
      WrOnly(t, t.cl[i], StatusFrame(Cid(hdr), st), w, t.admitted);
      DropOnly(AfterAnswer(t, i, Cid(hdr), st, w), i, w, t.admitted);
    case Tell(st) => WrOnly(t, t.cl[i], StatusFrame(Cid(hdr), st), w, t.admitted);
    case Grant =>
      var u := AfterDown(t, w).(downSince := 0, leased := i);
      assert Only(u.queue, t.admitted);
      WrOnly(u, u.cl[i], StatusFrame(Cid(hdr), ST_OK), w, t.admitted);
  }

  /** A request becomes a job if and only if the network is up, queue and quota have room, the payload was read, there is
      memory for it, its size is within the caps, and it asks for no lease and for no node the image lacks.  Then nothing
      but the queue changes, whose new last place it has. */
  lemma RequestQueues(t: Tables, h: History, i: nat, hdr: seq<byte>, payload: seq<byte>, mem: bool, w: World)
    requires Sound(t, h) && i < MAXCL && t.cl[i] >= 0
    ensures (exists j :: j in AfterRequest(t, i, hdr, payload, mem, w).queue && j.id >= t.admitted && j.fd >= 0)
            <==> |hdr| == JOB_HDR && Joins(t, i, hdr, payload, mem)
    ensures |hdr| == JOB_HDR && Joins(t, i, hdr, payload, mem) ==>
      var j := Job(t.cl[i], hdr[0] + 256 * (hdr[1] as int), 0, hdr + payload, 0, 0, t.admitted, 0);
      AfterRequest(t, i, hdr, payload, mem, w) == t.(queue := t.queue + [j], admitted := t.admitted + 1)
  {
    hide Clients, Nodes, Wids, Balanced, Traced, G4, Count, AfterDown, AfterDrop, AfterAnswer, AfterLease;
    QueuedBefore(t, h);
    if |hdr| == JOB_HDR && Joins(t, i, hdr, payload, mem) {
      var j := NewJob(t, i, hdr, payload);
      assert (t.queue + [j])[|t.queue|] == j;
      assert j in t.queue + [j];
    } else {
      NoJoin(t, i, hdr, payload, mem, w);
    }
  }

  /** It happens: booted, one client on descriptor 5, one job of its, and no memory. */
  lemma OneStarvedClient() returns (t: Tables, h: History, w: World)
    ensures Sound(t, h) && t.up && t.leased == -1 && t.cl[0] == 5 && Starved(t, w, 0) && Slot(Survivors(t, w), -1) == 0
  {
    hide Sound, Traced;
    t, h := Blank(0, 0), NOTHING;
    w := World(n => true, n => false, n => NoImage, n => Later);
    InitialSound(0, 0);
    BootedSound(t, h);
    t := t.(up := true);
    AcceptedSound(t, h, 0, 5);
    t, h := Accepted(t, 0, 5), h.(conn := h.conn[0 := 0], nextConn := 1, sent := h.sent[0 := []]);
    var j := Job(5, 0, 0, [0, 0, 101, 255, 0, 0, 0, 0, 0, 1, 0, 0, 0], 0, 0, 0, 0);
    AdmittedSound(t, h, 0, j);
    t, h := Admitted(t, j), AdmitHistory(h, h.conn[0], j);
    OnlyJobStarves(t, w, j);
  }

  lemma OnlyJobStarves(t: Tables, w: World, j: Job)
    requires t.leased == -1 && t.inflight == [] && t.queue == [j] && t.cl[0] == j.fd >= 0 && w.lack(t.allocs)
    ensures Survivors(t, w) == t.cl[0 := -1]
  {
    hide StatusFrame, AfterReboot;
    var a := t.(up := false, downSince := t.secs);
    var b := AllTold(a, a.inflight, w).(inflight := [], busy := [false, false, false], up := false);
    assert b.queue == [j] && b.queue[1..] == [];
    assert Slot(b.cl, j.fd) == 0;
    assert AllTold(b, b.queue, w) == AfterWr(b, j.fd, StatusFrame(j.cid, ST_DOWN), w);
  }

  lemma BootedSound(t: Tables, h: History)
    requires Sound(t, h) && t.queue == t.inflight == [] && !t.up && t.leased == -1 && h.since == |h.replies| && h.start == t.sends && h.wrote == []
    ensures Sound(t.(up := true), h)
  {
    hide Clients, Work, Ids, LogIds, Traced;
    SameClients(t, t.(up := true), h, h);
    SameWork(t, t.(up := true));
    TracedBoot(t, h, t.(up := true), h);
  }

  // ---- small steps of the methods below ---------------------------------------------------------

  lemma AdmittedCount(t: Tables, h: History)
    requires Clients(t, h)
    ensures t.admitted == |h.owner|
  {
  }

  lemma NobodyLeft(t: Tables, h: History, fd: int, id: int)
    requires fd < 0 && (id >= 0 ==> FdOf(t, h, fd, id))
    ensures id >= 0 ==> NotOpen(t.cl, h.conn, h.owner[id])
  {
  }

  lemma NothingYet(h: History)
    ensures Kept(h, h) && AllDown(h.log, h.log)
  {
  }

  lemma KeptOn(h: History, h': History, h'': History)
    requires Kept(h, h') && Kept(h', h'') && AllDown(h.log, h'.log) && AllDown(h'.log, h''.log)
    ensures Kept(h, h'') && AllDown(h.log, h''.log)
  {
  }

  lemma DownSettled(t: Tables, h: History, t': Tables, h': History)
    requires Failing(t, h) && Sound(t', h') && t'.queue == t'.inflight == [] && Kept(h, h')
    ensures h'.answered + h'.dropped == h.answered + h.dropped + Ids(t.queue) + Ids(t.inflight)
  {
    hide Clients, Work, Traced, Ids, LogIds;
    AllSettled(t, h, t', h');
  }

  /** One job told, the rest as the tables now have them. */
  lemma ToldStep(t: Tables, u: Tables, js: seq<Job>, js': seq<Job>, k: nat, w: World)
    requires k < |js| && u == AfterWr(t, js[k].fd, StatusFrame(js[k].cid, ST_DOWN), w)
    requires js' == js || (js[k].fd >= 0 && js[k].fd !in u.cl && js' == Orphan(js, js[k].fd))
    ensures |js'| == |js| && AllTold(u, js'[k + 1..], w) == AllTold(t, js[k..], w)
  {
    hide AfterWr, StatusFrame;
    assert js[k..][1..] == js[k + 1..];
    assert AllTold(t, js[k..], w) == AllTold(u, js[k + 1..], w);
    if js' != js {
      assert js'[k + 1..] == Orphan(js[k + 1..], js[k].fd);
      ToldGone(u, js[k + 1..], js[k].fd, w);
    }
  }

  lemma FailedTraced(t: Tables, h: History, t': Tables, h': History, ok: bool, e: Entry, j: Job)
    requires Traced(t, h) && (if ok then Queued(t, h, t', h', e) else Refused(t, t', j.fd) && h' == h)
    ensures Traced(t', Settled(h', j.id, ok))
  {
    hide Traced, Ids;
    OrphanTags(t.queue, j.fd);
    OrphanTags(t.inflight, j.fd);
    TracedKeeps(t, h, t', Settled(h', j.id, ok));
  }

  lemma MissSound(t: Tables, h: History, frame: seq<byte>)
    requires Sound(t, h) && t.up && |frame| >= LREP_HDR && forall i :: 0 <= i < |t.inflight| ==> t.inflight[i].wid != Wid(frame)
    ensures Sound(t, h.(replies := h.replies + [Reply(frame, 0, Serials(t.inflight), t.sends)]))
  {
    hide Clients, Nodes, Wids, Ids, LogIds, Traced, Serials;
    ClientsGrow(t, h, h.(replies := h.replies + [Reply(frame, 0, Serials(t.inflight), t.sends)]));
    TracedMiss(t, h, frame);
  }

  lemma WidsOf(t: Tables, h: History)
    requires Sound(t, h)
    ensures Wids(t.inflight, t.sends, t.nextwid)
  {
    hide Clients, Nodes, Wids, Ids, LogIds, Traced;
  }

  lemma ReceivedNothing(replies: seq<Reply>)
    ensures Received([], [], [], replies, |replies|)
  {
    assert Parse([]) == Parsed([], [], false);
  }

  lemma RepliesSnoc(t: Tables, fs: seq<seq<byte>>, f: seq<byte>, w: World)
    ensures AfterReplies(t, fs + [f], w) == AfterReply(AfterReplies(t, fs, w), f, w)
  {
    assert (fs + [f])[..|fs|] == fs;
  }

  lemma EventsSnoc(t: Tables, got: seq<byte>, events: seq<Event>, k: nat, w: World)
    requires k < |events|
    ensures var (u, g) := AfterEvents(t, got, events[..k], w); AfterEvents(t, got, events[..k + 1], w) == AfterEvent(u, g, events[k], w)
  {
    hide AfterEvent;
    assert events[..k + 1][..k] == events[..k];
  }

  /** What a socket's writes do to the history. */
  function Flushed(t: Tables, h: History, i: nat, w: World): History
    requires i < MAXCL == |h.conn| == |h.sent|
  {
    var d := Drain(t.oq[i], t.writes, w.socket);
    h.(sent := h.sent[i := h.sent[i] + d.took], broken := if d.gone then h.broken + {h.conn[i]} else h.broken)
  }

  /** The job is at the end of the queue, and nothing else has changed. */
  predicate Admits(t: Tables, h: History, t': Tables, h': History, i: nat, hdr: seq<byte>, payload: seq<byte>)
    requires i < MAXCL && |hdr| == JOB_HDR
  {
    && i < |h.conn|
    && var j := Job(t.cl[i], Cid(hdr), 0, hdr + payload, 0, 0, t.admitted, 0);
       t' == Admitted(t, j) && h' == AdmitHistory(h, h.conn[i], j)
  }

  /** The client has been told ST_DOWN, or there was no memory for that. */
  predicate Declined(t: Tables, h: History, t': Tables, h': History, i: nat, hdr: seq<byte>, w: World)
    requires i < MAXCL && |hdr| == JOB_HDR
  {
    i < |h.conn| && t' == AfterAnswer(t, i, Cid(hdr), ST_DOWN, w) && ToldOnce(h, h'.log, i, Cid(hdr), ST_DOWN, !w.lack(t.allocs))
  }

  // A socket's queue, part of it drained: took so far, and d for the rest.

  predicate Rests(all: Drained, took: seq<byte>, d: Drained) { all == d.(took := took + d.took) }

  lemma RestsOn(all: Drained, took: seq<byte>, q: seq<Chunk>, n: nat, socket: nat -> Taken, k: nat)
    requires q != [] && q[0].off < |q[0].d| && socket(n).Takes? && Rests(all, took, Drain(q, n, socket))
    requires k == Clip(socket(n).r, |q[0].d| - q[0].off)
    ensures 1 <= k <= |q[0].d| - q[0].off && Size(Written(q, k)) < Size(q)
    ensures Rests(all, took + q[0].d[q[0].off..q[0].off + k], Drain(Written(q, k), n + 1, socket))
  {
    hide Drain, Size, Written;
    DrainOn(q, n, socket);
    var x, more := q[0].d[q[0].off..q[0].off + k], Drain(Written(q, k), n + 1, socket).took;
    assert took + (x + more) == (took + x) + more;
  }

  lemma RestsNow(all: Drained, took: seq<byte>, q: seq<Chunk>, n: nat, socket: nat -> Taken)
    requires Fresh(q) && (q == [] || !socket(n).Takes?) && Rests(all, took, Drain(q, n, socket))
    ensures q == [] ==> all == Drained([], n, took, false)
    ensures q != [] && socket(n).Later? ==> all == Drained(q, n + 1, took, false)
    ensures q != [] && socket(n).Broken? ==> all == Drained([], n + 1, took, true)
  {
    assert took + [] == took;
  }

  /** frame is the next reply of the chronicle. */
  predicate NextReply(h: History, h': History, frame: seq<byte>) {
    && h'.lost == h.lost && h'.link == h.link && h'.stale == h.stale && h'.since == h.since
    && |h'.replies| == |h.replies| + 1 && h'.replies[..|h.replies|] == h.replies && h'.replies[|h.replies|].frame == frame
  }

  lemma MissNext(h: History, r: Reply)
    ensures NextReply(h, h.(replies := h.replies + [r]), r.frame)
  {
  }

  /** In-flight job i is out of the tables; frame, under the client's id and without the node byte, is the one new thing in
      its owner's output, or its owner is gone. */
  predicate Delivered(t: Tables, h: History, t': Tables, h': History, i: nat, frame: seq<byte>, ok: bool) {
    && i < |t.inflight| && |frame| >= LREP_HDR && t'.sends == t.sends
    && var j := t.inflight[i];
       && j.id < |h'.owner| == |h'.cids| && j.cid == h'.cids[j.id]
       && Ids(t.inflight) == Ids(t'.inflight) + multiset{j.id} && |t'.inflight| == |t.inflight| - 1
       && (if ok then h'.log == h.log + [Entry(h'.owner[j.id], j.id, ClientFrame(frame, j.cid), |h.replies|)]
           else h'.log == h.log && NotOpen(t'.cl, h'.conn, h'.owner[j.id]))
  }

  lemma DeliveredAlike(t: Tables, u: Tables, h: History, t': Tables, h': History, i: nat, frame: seq<byte>, ok: bool)
    requires u == t.(bigMax := u.bigMax) && Delivered(u, h, t', h', i, frame, ok)
    ensures Delivered(t, h, t', h', i, frame, ok)
  {
    hide Ids, ClientFrame, NotOpen;
  }

  /** What Hand leaves: the frame is queued for the job's owner, or that is gone. */
  predicate Handed(t: Tables, h: History, t': Tables, h': History, i: nat, frame: seq<byte>, ok: bool, e: Entry)
    requires i < |t.inflight| && |frame| >= LREP_HDR
  {
    var j, g := t.inflight[i], HitHistory(t, h, i, frame);
    && j.id < |h'.owner| == |h'.cids| && j.cid == h'.cids[j.id]
    && (!ok ==> NotOpen(t'.cl, h'.conn, h'.owner[j.id]))
    && (if ok then Queued(t, g, t', h', e) && e == Entry(h'.owner[j.id], j.id, ClientFrame(frame, j.cid), |h.replies|)
        else h' == g && (t' == t || Refused(t, t', j.fd)))
  }

  /** The job lands. */
  lemma LandOk(t: Tables, h: History, t': Tables, h': History, i: nat, frame: seq<byte>, ok: bool, e: Entry)
    requires Sound(t, h) && t.up && t.leased == -1 && i < |t.inflight| && |frame| >= LREP_HDR && Wid(frame) == t.inflight[i].wid
    requires Clients(t', h') && Work(t') && Handed(t, h, t', h', i, frame, ok, e)
    ensures |t'.inflight| == |t.inflight| && t'.up == t.up && t'.leased == t.leased
    ensures var u, g := Landed(t', i), Settled(h', t.inflight[i].id, ok);
            Sound(u, g) && Delivered(t, h, u, g, i, frame, ok) && NextReply(h, g, frame)
  {
    hide Clients, Work, Ids, Books, LogIds, NotOpen, Traced, Wids, Serials, ClientFrame;
    WidsOf(t, h);
    LandBooks(t, HitHistory(t, h, i, frame), t', h', i, ok, e);
    LandedSound(t', h', i, ok);
    LandedTraced(t, h, t', h', i, frame, ok, e);
    IdsSwapOut(t'.inflight, i);
    assert h'.replies[..|h.replies|] == h.replies;
  }

  lemma AimedSound(t: Tables, t': Tables, h: History)
    requires Sound(t, h) && t' == t.(end0 := t'.end0)
    ensures Sound(t', h)
  {
    hide Clients, Work, Balanced, Traced;
    SameSound(t, t', h);
  }

  // Reading the link piece by piece.

  /** What one read leaves, f being what the buffer holds with it. */
  predicate ReadLeaves(t: Tables, f: seq<byte>, u: Tables, g: seq<byte>, w: World) {
    if BadLength(f) then u == AfterDown(t, w) && g == []
    else if |f| < FrameLen(f) then u == t && g == f
    else u == AfterReply(t, f, w) && g == []
  }

  /** Where reading x behind got has led to. */
  predicate Polled(t: Tables, got: seq<byte>, x: seq<byte>, u: Tables, g: seq<byte>, w: World) {
    var p := Parse(got + x);
    !p.bad && u == AfterReplies(t, p.frames, w) && g == p.rest
  }

  lemma PollStart(t: Tables, got: seq<byte>, avail: seq<byte>, w: World)
    requires !BadLength(got) && |got| < FrameLen(got)
    ensures Polled(t, got, avail[..0], t, got, w)
  {
    assert got + avail[..0] == got;
  }

  lemma PollStep(t: Tables, got: seq<byte>, x: seq<byte>, y: seq<byte>, u: Tables, g: seq<byte>, u': Tables, g': seq<byte>, w: World)
    requires Polled(t, got, x, u, g, w) && |g| + |y| <= FrameLen(g) && ReadLeaves(u, g + y, u', g', w)
    ensures !BadLength(g + y) ==> Polled(t, got, x + y, u', g', w)
    ensures BadLength(g + y) ==> var p := Parse(got + (x + y)); p.bad && u' == AfterDown(AfterReplies(t, p.frames, w), w)
  {
    hide Parse, BadLength, FrameLen, AfterReplies, AfterReply, AfterDown;
    assert got + (x + y) == (got + x) + y;
    ReadStep(got + x, y);
    RepliesSnoc(t, Parse(got + x).frames, g + y, w);
  }

  /** A bad length ends the reading, whatever else the link has. */
  lemma PollBad(t: Tables, got: seq<byte>, avail: seq<byte>, used: nat, u: Tables, w: World)
    requires used <= |avail|
    requires var p := Parse(got + avail[..used]); p.bad && u == AfterDown(AfterReplies(t, p.frames, w), w)
    ensures AfterPoll(t, got, avail, w) == (u, [])
  {
    hide Parse, AfterReplies, AfterDown;
    assert got + avail == (got + avail[..used]) + avail[used..];
    BadStays(got + avail[..used], avail[used..]);
  }

  /** flush_out is under way: the socket has taken took. */
  predicate Flushing(t0: Tables, h0: History, i: nat, took: seq<byte>, t: Tables, h: History)
    requires i < MAXCL == |h0.sent|
  {
    && t == t0.(oq := t0.oq[i := t.oq[i]], writes := t.writes)
    && h == h0.(sent := h0.sent[i := h0.sent[i] + took])
  }

  lemma FirstFresh(t: Tables, h: History, i: nat)
    requires Clients(t, h) && i < MAXCL
    ensures Fresh(t.oq[i]) && (t.oq[i] != [] ==> t.oq[i][0].off < |t.oq[i][0].d|)
  {
    hide Slots, Owned, Quota, LogOk, Gone;
  }

  lemma SocketTakes(t: Tables, h: History, i: nat, k: nat)
    requires Clients(t, h) && i < MAXCL == |h.sent| && t.oq[i] != []
    requires t.oq[i][0].off <= |t.oq[i][0].d| && 1 <= k <= |t.oq[i][0].d| - t.oq[i][0].off
    ensures var c := t.oq[i][0];
            Clients(t.(oq := t.oq[i := Written(t.oq[i], k)]), h.(sent := h.sent[i := h.sent[i] + c.d[c.off..c.off + k]]))
  {
    hide Slots, Owned, Quota, LogOk, Output, Gone, Written;
    OutputWritten(h.log, t.cl, h.conn, h.broken, h.sent, t.oq, i, k);
  }

  lemma SocketBreaks(t: Tables, h: History, i: nat)
    requires Clients(t, h) && i < MAXCL == |h.conn|
    ensures Clients(t.(oq := t.oq[i := []]), h.(broken := h.broken + {h.conn[i]}))
  {
    hide Slots, Owned, Quota, LogOk, Output, Gone;
    OutputBroken(h.log, t.cl, h.conn, h.broken, h.sent, t.oq, i);
  }

  lemma FlushBegins(t: Tables, h: History, i: nat, socket: nat -> Taken)
    requires i < MAXCL == |h.sent|
    ensures Flushing(t, h, i, [], t, h)
    ensures var d := Drain(t.oq[i], t.writes, socket); Rests(d, [], d)
  {
    hide Drain;
    var d := Drain(t.oq[i], t.writes, socket);
    assert [] + d.took == d.took;
    assert h.sent[i] + [] == h.sent[i];
    assert h.sent[i := h.sent[i] + []] == h.sent;
  }

  lemma FlushTakes(t0: Tables, h0: History, i: nat, took: seq<byte>, t: Tables, h: History, k: nat)
    requires i < MAXCL == |h0.sent| && Flushing(t0, h0, i, took, t, h)
    requires t.oq[i] != [] && t.oq[i][0].off + k <= |t.oq[i][0].d|
    ensures |h.sent| == MAXCL
    ensures var x := t.oq[i][0].d[t.oq[i][0].off..t.oq[i][0].off + k];
            Flushing(t0, h0, i, took + x, t.(writes := t.writes + 1, oq := t.oq[i := Written(t.oq[i], k)]), h.(sent := h.sent[i := h.sent[i] + x]))
  {
    hide Written;
    var x := t.oq[i][0].d[t.oq[i][0].off..t.oq[i][0].off + k];
    assert h0.sent[i] + (took + x) == (h0.sent[i] + took) + x;
  }

  lemma FlushEnds(t0: Tables, h0: History, i: nat, took: seq<byte>, t: Tables, h: History, w: World)
    requires i < MAXCL == |h0.sent| == |h0.conn| && Flushing(t0, h0, i, took, t, h)
    requires Fresh(t.oq[i]) && t.oq[i] != [] && !w.socket(t.writes).Takes?
    requires Rests(Drain(t0.oq[i], t0.writes, w.socket), took, Drain(t.oq[i], t.writes, w.socket))
    ensures var u := t.(writes := t.writes + 1);
            if w.socket(t.writes).Later? then u == AfterFlush(t0, i, w) && h == Flushed(t0, h0, i, w)
            else u.(oq := u.oq[i := []]) == AfterFlush(t0, i, w) && h.(broken := h.broken + {h.conn[i]}) == Flushed(t0, h0, i, w)
  {
    hide Drain, Rests;
    RestsNow(Drain(t0.oq[i], t0.writes, w.socket), took, t.oq[i], t.writes, w.socket);
  }

  lemma FlushDone(t0: Tables, h0: History, i: nat, took: seq<byte>, t: Tables, h: History, w: World)
    requires i < MAXCL == |h0.sent| == |h0.conn| && Flushing(t0, h0, i, took, t, h) && t.oq[i] == []
    requires Rests(Drain(t0.oq[i], t0.writes, w.socket), took, Drain(t.oq[i], t.writes, w.socket))
    ensures t == AfterFlush(t0, i, w) && h == Flushed(t0, h0, i, w)
  {
    hide Drain, Rests;
    RestsNow(Drain(t0.oq[i], t0.writes, w.socket), took, t.oq[i], t.writes, w.socket);
  }

  lemma WrittenIs(q: seq<Chunk>, k: nat)
    requires q != [] && q[0].off + k <= |q[0].d|
    ensures Written(q, k) == if q[0].off + k == |q[0].d| then q[1..] else [Chunk(q[0].d, q[0].off + k)] + q[1..]
  {
  }

  /** What one write does. */
  predicate Wrote(t: Tables, h: History, i: nat, r: Taken, t': Tables, h': History)
    requires i < MAXCL == |h.sent| == |h.conn|
  {
    t.oq[i] != [] && t.oq[i][0].off < |t.oq[i][0].d| &&
    match r
    case Takes(n) =>
      var c, k := t.oq[i][0], Clip(n, |t.oq[i][0].d| - t.oq[i][0].off);
      && t' == t.(writes := t.writes + 1, oq := t.oq[i := Written(t.oq[i], k)])
      && h' == h.(sent := h.sent[i := h.sent[i] + c.d[c.off..c.off + k]])
    case Later => t' == t.(writes := t.writes + 1, oq := t.oq[i := t.oq[i]]) && h' == h
    case Broken =>
      t' == t.(writes := t.writes + 1, oq := t.oq[i := []]) && h' == h.(broken := h.broken + {h.conn[i]})
  }

  lemma WroteClients(t: Tables, h: History, i: nat, r: Taken, t': Tables, h': History)
    requires Clients(t, h) && i < MAXCL == |h.sent| == |h.conn| && Wrote(t, h, i, r, t', h')
    ensures Clients(t', h')
  {
    hide Clients, Written;
    SameSound(t, t.(writes := t.writes + 1), h);
    match r
    case Takes(n) => SocketTakes(t.(writes := t.writes + 1), h, i, Clip(n, |t.oq[i][0].d| - t.oq[i][0].off));
    case Later => assert t.oq[i := t.oq[i]] == t.oq;
    case Broken => SocketBreaks(t.(writes := t.writes + 1), h, i);
  }

  /** A drop or a status means at most the one boot of a lease taken back. */
  lemma DropBoots(t: Tables, i: nat, w: World)
    requires i < MAXCL
    ensures AfterDrop(t, i, w).boots >= t.boots
  {
  }

  lemma AnswerBoots(t: Tables, i: nat, cid: u16, st: byte, w: World)
    requires i < MAXCL
    ensures AfterAnswer(t, i, cid, st, w).boots >= t.boots
  {
    hide Drain, StatusFrame;
  }

  /** Where the lease is, after it was granted. */
  lemma LeaseSlot(t: Tables, h: History, i: nat, cid: u16, w: World)
    requires Sound(t, h) && i < MAXCL && t.cl[i] >= 0 && t.leased == -1
    ensures var u := AfterLease(t, i, cid, w);
      && (u.leased >= 0 && u.leased < MAXCL && u.cl[u.leased] < 0 <==> Starved(t, w, i))
      && (Starved(t, w, i) ==> u.leased == i && u.cl == Survivors(t, w))
      && u.leased < MAXCL
  {
    hide Clients, Work, Balanced, Traced, AfterDown, StatusFrame, Drain, Closed, AfterReboot;
    OwnSlot(t, h, i);
    DownSlots(t, i, w);
  }

  lemma NoneLeft(t: Tables, js: seq<Job>, w: World)
    requires js == []
    ensures AllTold(t, js, w) == t
  {
  }

  class Daemon {
    var t: Tables
    ghost var h: History
    const rx: Receiver
    const w: World

    ghost predicate Reader()
      reads this, rx, rx.rbuf
    {
      rx.Valid() && Received(rx.Got, h.stale, h.link, h.replies, h.since)
    }

    ghost predicate Valid()
      reads this, rx, rx.rbuf
    {
      Sound(t, h) && Reader()
    }

    /** main, up to its loop: the first boot. */
    constructor (w: World, clock: int, secs: int)
      ensures Valid() && fresh(rx) && fresh(rx.rbuf) && this.w == w && rx.Got == []
      ensures t == AfterReboot(Blank(clock, secs), w)
    {
      hide Sound, Received;
      t := Blank(clock, secs);
      h := NOTHING;
      rx := new Receiver();
      this.w := w;
      new;
      InitialSound(clock, secs);
      ReceivedNothing([]);
      Reboot();
    }

    /** boot_network: 0, 1 or 2 TRAMs missing, or no image at all; a booted image is asked for its payload cap.  What is in
        the reply buffer stays there, in front of the new stream. */
    method Boot()
      requires Reader() && Clients(t, h) && Work(t) && Balanced(t, h) && Traced(t, h)
      requires !t.up && t.queue == [] && t.inflight == [] && t.leased == -1
      modifies `t, `h
      ensures Valid() && t == AfterBoot(old(t), w)
      ensures t.up ==> h.link == [] && h.stale == rx.Got && h.since == |h.replies| && h.start == t.sends
      ensures h.lost == old(h.lost) && h.answered == old(h.answered) && h.dropped == old(h.dropped)
      ensures h.log == old(h.log) && h.replies == old(h.replies) && h.conn == old(h.conn)
      ensures forall q :: 0 <= q < |t.queue| ==> t.queue[q].id >= old(t.admitted)
    {
      hide Clients, Work, Received, Ids, LogIds, Books, Traced;
      AdmittedCount(t, h);
      SameSound(t, t.(boots := t.boots + 1), h);
      var image := w.image(t.boots);
      t := t.(boots := t.boots + 1);
      if image == NoImage {
        return;
      }
      ReceivedBoot(rx.Got, h.stale, h.link, h.replies, h.since);
      Live(image.missing);
      if image.asked && |t.queue| < QMAX {
        var j := Job(-1, 0, 0, [0, 0, OP_CAPS, 0, 0, 0, 0, 0, 0, 1, 0, 0, 0], 0, 0, t.admitted, 0);
        CapsOk(t, h, j);
        t := t.(queue := t.queue + [j], admitted := t.admitted + 1);
        h := h.(owner := h.owner + [-1], cids := h.cids + [0], subs := h.subs + [j.buf]);
      }
    }

    /** The image runs, without the last `missing` nodes. */
    method Live(missing: Lacking)
      requires Clients(t, h) && Work(t) && Balanced(t, h) && Traced(t, h)
      requires !t.up && t.queue == [] && t.inflight == [] && t.leased == -1
      modifies `t, `h
      ensures Clients(t, h) && Work(t) && Balanced(t, h) && Traced(t, h)
      ensures t == old(t).(up := true, absent := Absent(missing), bigMax := JOB_MAX)
      ensures h == old(h).(stale := rx.Got, link := [], since := |h.replies|, start := t.sends, wrote := [])
    {
      hide Clients, Nodes, Wids, Received, Ids, LogIds, Books, Traced;
      ghost var t0, h0 := t, h;
      t := t.(up := true, absent := [false, NODES - missing <= 1, NODES - missing <= 2], bigMax := JOB_MAX);
      assert t.absent == Absent(missing);
      h := h.(stale := rx.Got, link := [], since := |h.replies|, start := t.sends, wrote := []);
      SameClients(t0, t, h0, h);
      TracedBoot(t0, h0, t, h);
    }

    /** A boot, and when it fails the time from which the next one is due. */
    method Reboot()
      requires Valid() && !t.up && t.leased == -1
      modifies `t, `h
      ensures Valid() && t == AfterReboot(old(t), w)
      ensures t.up ==> h.link == [] && h.stale == rx.Got && h.since == |h.replies| && h.start == t.sends
      ensures h.lost == old(h.lost) && h.answered == old(h.answered) && h.dropped == old(h.dropped)
      ensures h.log == old(h.log) && h.replies == old(h.replies) && h.conn == old(h.conn)
      ensures forall q :: 0 <= q < |t.queue| ==> t.queue[q].id >= old(t.admitted)
    {
      hide Clients, Work, Ids, Books, LogIds, Received, Traced;
      Boot();
      if !t.up {
        DownAt(t.secs);
      }
    }

    method DownAt(since: int)
      requires Valid() && t.leased == -1
      modifies `t
      ensures Valid() && t == old(t).(downSince := since)
    {
      hide Clients, Work, Ids, Books, LogIds, Received, Traced;
      t := t.(downSince := since);
      SameClients(old(t), t, h, h);
      SameWork(old(t), t);
      TracedKeeps(old(t), h, t, h);
    }

    /** drop_client: if client i held the lease, the T425 is taken back and re-booted. */
    method DropClient(i: nat)
      requires Clients(t, h) && Work(t) && i < MAXCL && (t.leased == i ==> Valid())
      modifies `t, `h, rx`rgot, rx`Got
      ensures Clients(t, h) && Work(t) && t == AfterDrop(old(t), i, w) && h.log == old(h.log) && h.conn == old(h.conn)
      ensures old(t.leased) == i ==> Valid() && rx.Got == []
      ensures old(t.leased) != i ==> h == old(h) && unchanged(rx)
      ensures old(t.leased) != i ==> Ids(t.queue) == Ids(old(t.queue)) && Ids(t.inflight) == Ids(old(t.inflight))
    {
      hide Clients, Work, Ids, Books, LogIds, Received, Traced;
      ClosedOk(t, h, i);
      t := t.(queue := Orphan(t.queue, t.cl[i]), inflight := Orphan(t.inflight, t.cl[i]), cl := t.cl[i := -1], oq := t.oq[i := []]);
      if i == t.leased {
        TakeBack(old(t), i);
      }
    }

    /** The lease holder is gone: rgot = 0, and the image is booted again. */
    method TakeBack(ghost t0: Tables, ghost i: nat)
      requires rx.Valid() && Received(rx.Got, h.stale, h.link, h.replies, h.since) && Sound(t0, h) && t0.leased == i < MAXCL
      requires t == Closed(t0, i) && Clients(t, h) && Work(t)
      requires Ids(t.queue) == Ids(t0.queue) && Ids(t.inflight) == Ids(t0.inflight)
      modifies `t, `h, rx`rgot, rx`Got
      ensures Valid() && t == AfterReboot(old(t).(leased := -1), w) && rx.Got == [] && h.log == old(h.log) && h.conn == old(h.conn)
    {
      hide Clients, Work, Ids, Books, LogIds, Received, Traced;
      DroppedSound(t0, h, i);
      Shape(t, h);
      t := t.(leased := -1);
      SameClients(old(t), t, h, h);
      SameWork(old(t), t);
      TracedKeeps(old(t), h, t, h);
      Forget();
      Reboot();
    }

    /** rgot = 0 */
    method Forget()
      requires Valid() && !t.up
      modifies `h, rx`rgot, rx`Got
      ensures Valid() && rx.Got == [] && h == old(h).(stale := [], link := [], since := |old(h.replies)|)
    {
      hide Sound, Received;
      ReceivedBoot(rx.Got, h.stale, h.link, h.replies, h.since);
      rx.Reset();
      ghost var h0 := h;
      h := h.(stale := [], link := [], since := |h.replies|);
      FreshStream(t, h0, h);
    }

    /** flush_out: write what the client's socket takes now. */
    method FlushOut(i: nat)
      requires Clients(t, h) && i < MAXCL && t.cl[i] >= 0
      modifies `t, `h
      ensures |old(h.conn)| == |old(h.sent)| == MAXCL
      ensures Clients(t, h) && t == AfterFlush(old(t), i, w) && h == Flushed(old(t), old(h), i, w)
    {
      hide Clients, Drain, Size, Flushing, Rests, Flushed, AfterFlush, Fresh;
      SlotShape(t, h);
      ghost var all := Drain(t.oq[i], t.writes, w.socket);
      ghost var took: seq<byte> := [];
      FlushBegins(t, h, i, w.socket);
      while t.oq[i] != []
        invariant Clients(t, h) && |h.sent| == |h.conn| == MAXCL
        invariant Flushing(old(t), old(h), i, took, t, h) && Rests(all, took, Drain(t.oq[i], t.writes, w.socket))
        decreases Size(t.oq[i])
      {
        ghost var t0, h0 := t, h;
        FirstFresh(t, h, i);
        var more := Write(i);
        if more {
          ghost var c, k := t0.oq[i][0], Clip(w.socket(t0.writes).r, |t0.oq[i][0].d| - t0.oq[i][0].off);
          RestsOn(all, took, t0.oq[i], t0.writes, w.socket, k);
          FlushTakes(old(t), old(h), i, took, t0, h0, k);
          took := took + c.d[c.off..c.off + k];
        } else {
          FlushEnds(old(t), old(h), i, took, t0, h0, w);
          return;
        }
      }
      FlushDone(old(t), old(h), i, took, t, h, w);
    }

    /** A socket that takes something takes at least a byte, and no more than it is given. */
    static method Writes(c: Chunk, r: nat) returns (k: nat)
      requires c.off < |c.d|
      ensures k == Clip(r, |c.d| - c.off) && 1 <= k <= |c.d| - c.off
    {
      k := if r < 1 then 1 else if r > |c.d| - c.off then |c.d| - c.off else r;
    }

    /** One write to the client's socket; false when it takes nothing more for now, or is broken and the rest is dropped. */
    method Write(i: nat) returns (more: bool)
      requires Clients(t, h) && i < MAXCL && t.oq[i] != []
      modifies `t, `h
      ensures Clients(t, h) && |old(h.sent)| == |old(h.conn)| == MAXCL
      ensures more <==> w.socket(old(t.writes)).Takes?
      ensures Wrote(old(t), old(h), i, w.socket(old(t.writes)), t, h)
    {
      hide Clients, Fresh, Written, Clip;
      var c, q, r := t.oq[i][0], t.oq[i], w.socket(t.writes);
      SlotShape(t, h);
      FirstFresh(t, h, i);
      t := t.(writes := t.writes + 1);
      more := r.Takes?;
      if r.Takes? {
        var k := Writes(c, r.r);
        WrittenIs(q, k);
        q := if c.off + k == |c.d| then q[1..] else [Chunk(c.d, c.off + k)] + q[1..];
        h := h.(sent := h.sent[i := h.sent[i] + c.d[c.off..c.off + k]]);
      } else if r == Broken {
        q := [];
        h := h.(broken := h.broken + {h.conn[i]});
      }
      t := t.(oq := t.oq[i := q]);
      WroteClients(old(t), old(h), i, r, t, h);
    }

    /** wr: queue a frame for the client on fd and send what fits; a client there is no memory for is dropped. */
    method Wr(fd: int, b: seq<byte>, ghost id: int, ghost from: int) returns (ok: bool, ghost e: Entry)
      requires Clients(t, h) && Work(t) && |b| >= REP_HDR && t.leased >= -1 && (t.leased >= 0 ==> Valid() && id < 0)
      requires if id >= 0 then Belongs(t, h, fd, b, id, from) else from < 0 && |b| == REP_HDR
      modifies `t, `h, rx`rgot, rx`Got
      ensures Clients(t, h) && Work(t) && t == AfterWr(old(t), fd, b, w) && h.conn == old(h.conn)
      ensures old(t.leased) >= 0 ==> Valid()
      ensures old(t.leased) == -1 ==> unchanged(rx)
      ensures rx.Got == if t.boots == old(t.boots) then old(rx.Got) else []
      ensures ok <==> fd >= 0 && fd in old(t.cl) && !w.lack(old(t.allocs))
      ensures ok ==> Queued(old(t), old(h), t, h, e) && e == Entry(e.conn, id, b, from) && (id >= 0 ==> e.conn == h.owner[id])
      ensures ok ==> forall k :: 0 <= k < MAXCL && k < |h.conn| && t.cl[k] == fd ==> h.conn[k] == e.conn
      ensures !ok ==> h.log == old(h.log)
      ensures !ok && old(t.leased) == -1 ==> Refused(old(t), t, fd) && h == old(h)
      ensures !ok && old(t.leased) == -1 && id >= 0 ==> NotOpen(t.cl, h.conn, h.owner[id])
    {
      hide Clients, Work, Ids, Books, LogIds, Received, Traced, AnswerOk, AfterDrop, AfterGive;
      SlotShape(t, h);
      e := Entry(-1, id, b, from);
      ok := false;
      var i := SlotOf(fd);
      if i == MAXCL || fd < 0 {
        RefusedNobody(t, h, fd);
        return;
      }
      assert t.cl[i] in t.cl;
      assert forall k :: 0 <= k < MAXCL && k != i ==> t.cl[k] != fd;
      if w.lack(t.allocs) {
        Starve1(i, id);
        return;
      }
      e := Give(i, b, id, from);
      ok := true;
    }

    /** There is no memory for the frame: the client in slot i is dropped. */
    method Starve1(i: nat, ghost id: int)
      requires Clients(t, h) && Work(t) && i < MAXCL == |h.conn| && t.cl[i] >= 0
      requires t.leased >= -1 && (t.leased >= 0 ==> Valid() && id < 0) && (id >= 0 ==> FdOf(t, h, t.cl[i], id))
      modifies `t, `h, rx`rgot, rx`Got
      ensures Clients(t, h) && Work(t)
      ensures t == AfterDrop(old(t).(allocs := old(t.allocs) + 1), i, w) && h.log == old(h.log) && h.conn == old(h.conn)
      ensures old(t.leased) >= 0 ==> Valid()
      ensures rx.Got == if t.boots == old(t.boots) then old(rx.Got) else []
      ensures old(t.leased) == -1 ==> unchanged(rx) && Refused(old(t), t, old(t.cl)[i]) && h == old(h)
      ensures old(t.leased) == -1 && id >= 0 ==> NotOpen(t.cl, h.conn, h.owner[id])
    {
      hide Clients, Work, Ids, Books, LogIds, Received, Traced;
      ghost var t0 := t;
      SlotShape(t, h);
      assert forall k :: 0 <= k < MAXCL && k != i ==> t.cl[k] != t.cl[i];
      SameSound(t, t.(allocs := t.allocs + 1), h);
      t := t.(allocs := t.allocs + 1);
      if id >= 0 {
        ClosedNotOpen(t, h, i, id);
      }
      ghost var t1 := t;
      DropClient(i);
      if t1.leased >= 0 && t1.leased != i {
        DroppedSound(t1, h, i);
      }
    }

    /** The frame joins the client's replies, and as much as its socket takes is written. */
    method Give(i: nat, b: seq<byte>, ghost id: int, ghost from: int) returns (ghost e: Entry)
      requires Clients(t, h) && Work(t) && i < MAXCL == |h.conn| && t.cl[i] >= 0 && |b| >= REP_HDR
      requires t.leased >= 0 ==> Valid() && id < 0
      requires if id >= 0 then Belongs(t, h, t.cl[i], b, id, from) else from < 0 && |b| == REP_HDR
      modifies `t, `h
      ensures Clients(t, h) && Work(t) && t == AfterGive(old(t), i, b, w)
      ensures old(t.leased) >= 0 ==> Valid()
      ensures Queued(old(t), old(h), t, h, e) && e == Entry(h.conn[i], id, b, from)
    {
      hide Clients, Work, Ids, Books, LogIds, Received, Traced, AnswerOk, Drain;
      ghost var t0, h0 := t, h;
      SameSound(t, t.(allocs := t.allocs + 1), h);
      t := t.(allocs := t.allocs + 1);
      e := Entry(h.conn[i], id, b, from);
      GiveOk(t, h, i, b, id, from);
      t := t.(oq := t.oq[i := t.oq[i] + [Chunk(b, 0)]]);
      h := h.(log := h.log + [e]);
      FlushOut(i);
      SameWork(t0, t);
      if t0.leased >= 0 {
        GivenSound(t0, h0, t, h, e);
      }
    }

    /** The first slot with descriptor fd, or MAXCL. */
    method SlotOf(fd: int) returns (i: nat)
      ensures i == Slot(t.cl, fd)
    {
      i := 0;
      while i < MAXCL && t.cl[i] != fd
        invariant 0 <= i <= MAXCL && forall k :: 0 <= k < i ==> t.cl[k] != fd
      {
        i := i + 1;
      }
      if i < MAXCL {
        FirstSlot(t.cl, i);
      }
    }

    /** answer: a status-only reply to a client that is still there. */
    method Answer(fd: int, cid: u16, st: byte, ghost id: int) returns (ok: bool, ghost e: Entry)
      requires Clients(t, h) && Work(t) && t.leased >= -1 && (t.leased >= 0 ==> Valid() && id < 0)
      requires id >= 0 ==> Belongs(t, h, fd, StatusFrame(cid, st), id, -1)
      modifies `t, `h, rx`rgot, rx`Got
      ensures Clients(t, h) && Work(t) && t == AfterWr(old(t), fd, StatusFrame(cid, st), w) && h.conn == old(h.conn)
      ensures old(t.leased) >= 0 ==> Valid()
      ensures old(t.leased) == -1 ==> unchanged(rx)
      ensures rx.Got == if t.boots == old(t.boots) then old(rx.Got) else []
      ensures ok <==> fd >= 0 && fd in old(t.cl) && !w.lack(old(t.allocs))
      ensures ok ==> Queued(old(t), old(h), t, h, e) && e == Entry(e.conn, id, StatusFrame(cid, st), -1) && (id >= 0 ==> e.conn == h.owner[id])
      ensures ok ==> forall k :: 0 <= k < MAXCL && k < |h.conn| && t.cl[k] == fd ==> h.conn[k] == e.conn
      ensures !ok ==> h.log == old(h.log)
      ensures !ok && old(t.leased) == -1 ==> Refused(old(t), t, fd) && h == old(h)
      ensures !ok && old(t.leased) == -1 && id >= 0 ==> NotOpen(t.cl, h.conn, h.owner[id])
    {
      hide Clients, Work, Ids, Books, LogIds, Received, Queued, Refused, Traced, AnswerOk, AfterDrop, AfterGive;
      ok, e := false, Entry(-1, id, [], -1);
      if fd >= 0 {
        ok, e := Wr(fd, StatusFrame(cid, st), id, -1);
      } else {
        RefusedNobody(t, h, fd);
        NobodyLeft(t, h, fd, id);
      }
    }

    /** go_down: every outstanding job is answered ST_DOWN, or dropped because its client is gone. */
    method GoDown()
      requires Failing(t, h)
      modifies `t, `h, rx`rgot, rx`Got
      ensures Sound(t, h) && t == AfterDown(old(t), w) && t.leased == -1 && unchanged(rx) && t.boots == old(t.boots)
      ensures Kept(old(h), h) && t.sends == old(t.sends) && t.admitted == old(t.admitted)
      ensures AllDown(old(h.log), h.log)
      ensures h.answered + h.dropped == old(h.answered) + old(h.dropped) + Ids(old(t.queue)) + Ids(old(t.inflight))
    {
      hide Clients, Work, Ids, Books, LogIds, Received, Queued, Refused, Settling, Settled, Traced, Kept, AllTold, AllDown;
      t := t.(up := false, downSince := t.secs);
      ghost var a := t;
      SameClients(old(t), t, h, h);
      SameWork(old(t), t);
      SettlingAll(t, h);
      TracedKeeps(old(t).(up := false), h, t, h);
      NothingYet(h);
      assert t.inflight[0..] == t.inflight;
      var i := 0;
      while i < |t.inflight|
        invariant 0 <= i <= |t.inflight| && Clients(t, h) && Work(t) && Settling(t, h, 0, i) && Traced(t, h)
        invariant !t.up && t.leased == -1 && unchanged(rx)
        invariant t == a.(queue := t.queue, inflight := t.inflight, cl := t.cl, oq := t.oq, allocs := t.allocs, writes := t.writes)
        invariant Kept(old(h), h) && AllDown(old(h.log), h.log)
        invariant AllTold(t, t.inflight[i..], w) == AllTold(a, a.inflight, w)
        decreases |t.inflight| - i
      {
        ghost var h0 := h;
        FailOne(i, 0, true);
        KeptOn(old(h), h0, h);
        i := i + 1;
      }
      NoneInFlight(t, h);
      NoneLeft(t, t.inflight[i..], w);
      t := t.(inflight := [], busy := [false, false, false]);
      ghost var b := t;
      assert b == AllTold(a, a.inflight, w).(inflight := [], busy := [false, false, false], up := false);
      assert t.queue[0..] == t.queue;
      i := 0;
      while i < |t.queue|
        invariant 0 <= i <= |t.queue| && Clients(t, h) && Work(t) && Settling(t, h, i, 0) && Traced(t, h) && t.inflight == []
        invariant !t.up && t.leased == -1 && unchanged(rx)
        invariant t == b.(queue := t.queue, cl := t.cl, oq := t.oq, allocs := t.allocs, writes := t.writes)
        invariant Kept(old(h), h) && AllDown(old(h.log), h.log)
        invariant AllTold(t, t.queue[i..], w) == AllTold(b, b.queue, w)
        decreases |t.queue| - i
      {
        ghost var h0 := h;
        FailOne(0, i, false);
        KeptOn(old(h), h0, h);
        i := i + 1;
      }
      NoneQueued(t, h);
      NoneLeft(t, t.queue[i..], w);
      t := t.(queue := []);
      DownSettled(old(t), old(h), t, h);
    }

    /** Answer ST_DOWN for one job of go_down's two walks. */
    method FailOne(ii: nat, qi: nat, inFlight: bool)
      requires Clients(t, h) && Work(t) && Settling(t, h, qi, ii) && Traced(t, h) && t.leased == -1 && !t.up
      requires if inFlight then ii < |t.inflight| else qi < |t.queue| && t.inflight == []
      modifies `t, `h, rx`rgot, rx`Got
      ensures Clients(t, h) && Work(t) && unchanged(rx) && Traced(t, h)
      ensures Kept(old(h), h) && AllDown(old(h.log), h.log)
      ensures if inFlight then Settling(t, h, qi, ii + 1) else Settling(t, h, qi + 1, ii)
      ensures |t.inflight| == |old(t.inflight)| && |t.queue| == |old(t.queue)|
      ensures t == old(t).(queue := t.queue, inflight := t.inflight, cl := t.cl, oq := t.oq, allocs := t.allocs, writes := t.writes)
      ensures if inFlight then AllTold(t, t.inflight[ii + 1..], w) == AllTold(old(t), old(t).inflight[ii..], w)
              else AllTold(t, t.queue[qi + 1..], w) == AllTold(old(t), old(t).queue[qi..], w)
    {
      hide Clients, Work, Ids, Books, LogIds, Received, Settling, Traced, AnswerOk, AllTold, AfterWr;
      var j := if inFlight then t.inflight[ii] else t.queue[qi];
      JobBelongs(t, h, if inFlight then ii else qi, inFlight);
      var ok;
      ghost var e;
      ok, e := Answer(j.fd, j.cid, ST_DOWN, j.id);
      SettleStep(old(t), old(h), t, h, ok, e, qi, ii, inFlight);
      SettledClients(t, h, j.id, ok);
      if j.fd == -1 {
        OrphanSame(old(t).inflight);
        OrphanSame(old(t).queue);
      }
      if inFlight {
        ToldStep(old(t), t, old(t).inflight, t.inflight, ii, w);
      } else {
        ToldStep(old(t), t, old(t).queue, t.queue, qi, w);
      }
      ghost var h1 := h;
      h := Settled(h, j.id, ok);
      FailedTraced(old(t), old(h), t, h1, ok, e, j);
    }

    /** send_jobs: as long as there is a job that may start and a free slot, stamp it and write it to the link.
        When the write fails the job itself is freed unanswered, and everything else is failed. */
    method SendJobs()
      requires Valid()
      modifies `t, `h, rx`rgot, rx`Got
      ensures Valid() && t == AfterSends(old(t), w) && T425Busy(t) && unchanged(rx)
      ensures h.lost == old(h.lost) || (!t.up && exists id :: h.lost == old(h.lost) + multiset{id})
    {
      hide Sound, Received, Aimed, Lost, Launched, AfterDown, Scheduler.Chosen;
      while t.up && |t.queue| > 0 && |t.inflight| < NODES
        invariant Valid() && unchanged(rx) && h.lost == old(h.lost) && AfterSends(t, w) == AfterSends(old(t), w)
        decreases |t.queue|
      {
        QueueShape(t, h);
        var backlog := 0;
        if t.busy[0] {
          backlog := (t.end0 - t.clock) * 1000 / Scheduler.CLOCKS;
          if backlog < 0 {
            backlog := 0;
          }
        }
        assert backlog == Left(t);
        var q, node := Scheduler.Pick(Items(t.queue), t.busy, t.absent, backlog);
        if q < 0 {
          if !t.busy[0] {
            Scheduler.NeverIdleOn0(Items(t.queue), t.busy, t.absent);
          }
          return;
        }
        ghost var t0 := t;
        var ok := SendOne(q, node);
        if !ok {
          return;
        }
      }
      SendDone(t, h);
    }

    /** Send queue place q to an idle node. */
    method SendOne(q: nat, node: int) returns (ok: bool)
      requires Valid() && t.up && q < |t.queue| && |t.inflight| < NODES && 0 <= node < NODES && !t.busy[node]
      modifies `t, `h, rx`rgot, rx`Got
      ensures Valid() && unchanged(rx) && (ok <==> !w.cut(old(t.sends)))
      ensures ok ==> t == Launched(old(t), q, node) && h == SentHistory(old(h), t.inflight[|t.inflight| - 1])
      ensures !ok ==> t == AfterDown(Lost(Aimed(old(t), q, node), q), w) && T425Busy(t)
      ensures !ok ==> h.lost == old(h.lost) + multiset{old(t.queue)[q].id}
    {
      hide Sound, Received, Stamp, Ids, AfterDown, Scheduler.EstMs, Lost, T425Busy, Sending;
      var j := t.queue[q];
      if node == 0 {
        ghost var t0 := t;
        t := t.(end0 := t.clock + Scheduler.EstMs(j.buf[2] as char, Length(j), false) * Scheduler.CLOCKS / 1000);
        AimedSound(t0, t, h);
      }
      assert t == Aimed(old(t), q, node);
      var due := t.clock + (3 * Scheduler.EstMs(j.buf[2] as char, Length(j), node != 0) + 5000) * Scheduler.CLOCKS / 1000;
      if w.cut(t.sends) {
        Lose(q);
        ok := false;
      } else {
        PutInFlight(q, node, due);
        ok := true;
      }
    }

    /** The write of queue place q failed. */
    method Lose(q: nat)
      requires Valid() && t.up && q < |t.queue|
      modifies `t, `h, rx`rgot, rx`Got
      ensures Valid() && unchanged(rx) && t == AfterDown(Lost(old(t), q), w) && T425Busy(t)
      ensures h.lost == old(h.lost) + multiset{old(t.queue)[q].id}
    {
      hide Clients, Work, Balanced, Received, Traced, Ids, AfterDown;
      LostFails(t, h, q);
      h := LostHistory(h, t.queue[q].id);
      t := t.(queue := t.queue[..q] + t.queue[q + 1..], sends := t.sends + 1, nextwid := (t.nextwid + 1) % WIDS);
      GoDown();
      Shape(t, h);
      NothingWaits(t);
    }

    /** The write of queue place q went through. */
    method PutInFlight(q: nat, node: int, due: int)
      requires Valid() && t.up && q < |t.queue| && |t.inflight| < NODES && 0 <= node < NODES && !t.busy[node]
      modifies `t, `h
      ensures Valid()
      ensures var j := Sending(old(t.queue)[q], node, old(t.sends) + 1, due); t == Sent(old(t), q, j) && h == SentHistory(old(h), j)
    {
      hide Sound, Received, Stamp;
      SentSound(t, h, q, node, due);
      var j := t.queue[q];
      var wid := (t.sends + 1) % WIDS;
      j := j.(node := node, serial := t.sends + 1, wid := wid, due := due, buf := Stamp(j.buf, wid, node));
      h := SentHistory(h, j);
      t := t.(queue := t.queue[..q] + t.queue[q + 1..], inflight := t.inflight + [j], busy := t.busy[node := true],
              sends := t.sends + 1, nextwid := (t.nextwid + 1) % WIDS);
    }

    /** One whole reply: it goes to the client whose job carries its wire id, under the client's own id. */
    method Deliver(frame: seq<byte>) returns (ok: bool)
      requires Sound(t, h) && t.up && t.leased == -1 && Whole(frame)
      modifies `t, `h, rx`rgot, rx`Got
      ensures Sound(t, h) && t.leased == -1 && unchanged(rx) && t.up == old(t.up) && t == AfterReply(old(t), frame, w)
      ensures NextReply(old(h), h, frame)
      ensures var i := FindWid(old(t.inflight), Wid(frame));
              if i == |old(t.inflight)| then t == old(t) && h == old(h).(replies := h.replies) && !ok
              else Delivered(old(t), old(h), t, h, i, frame, ok) && (ok <==> Deliverable(old(t), i, w.lack))
    {
      hide Sound, G4, AfterWr, Landed, Delivered, NextReply;
      var wid := Wid(frame);
      var i := 0;
      while i < |t.inflight| && t.inflight[i].wid != wid
        invariant 0 <= i <= |t.inflight| && forall k :: 0 <= k < i ==> t.inflight[k].wid != wid
      {
        i := i + 1;
      }
      assert i == FindWid(t.inflight, wid);
      ok := false;
      if i < |t.inflight| {
        ghost var t0 := t;
        if t.inflight[i].buf[2] == OP_CAPS {
          NewCapOk(t, h, frame);
          var cap := Cap(frame);
          t := t.(bigMax := cap);
        }
        ghost var t1 := t;
        ok := Land(frame, i);
        DeliveredAlike(t0, t1, old(h), t, h, i, frame, ok);
      } else {
        MissSound(t, h, frame);
        MissNext(h, Reply(frame, 0, Serials(t.inflight), t.sends));
        h := h.(replies := h.replies + [Reply(frame, 0, Serials(t.inflight), t.sends)]);
      }
    }

    /** The reply belongs to in-flight job i. */
    method Land(frame: seq<byte>, i: nat) returns (ok: bool)
      requires Sound(t, h) && t.up && t.leased == -1 && |frame| >= LREP_HDR && i < |t.inflight| && t.inflight[i].wid == Wid(frame)
      modifies `t, `h, rx`rgot, rx`Got
      ensures Sound(t, h) && t.leased == -1 && unchanged(rx) && t.up == old(t.up)
      ensures var j := old(t.inflight)[i]; var u := AfterWr(old(t), j.fd, ClientFrame(frame, j.cid), w); t == Landed(u, i)
      ensures Delivered(old(t), old(h), t, h, i, frame, ok) && NextReply(old(h), h, frame)
      ensures ok <==> Deliverable(old(t), i, w.lack)
    {
      hide Sound, NotOpen, AfterWr, ClientFrame, Refused, Queued, HitHistory, Delivered, NextReply;
      var j := t.inflight[i];
      ghost var t0, h0, e := t, h, Entry(-1, j.id, [], -1);
      ok, e := Hand(frame, i);
      LandOk(t0, h0, t, h, i, frame, ok, e);
      h := Settled(h, j.id, ok);
      t := t.(busy := t.busy[t.inflight[i].node := false], inflight := t.inflight[i := t.inflight[|t.inflight| - 1]][..|t.inflight| - 1]);
    }

    /** It is handed to the job's client, if that is still there. */
    method Hand(frame: seq<byte>, i: nat) returns (ok: bool, ghost e: Entry)
      requires Sound(t, h) && t.up && t.leased == -1 && |frame| >= LREP_HDR && i < |t.inflight| && t.inflight[i].wid == Wid(frame)
      modifies `t, `h, rx`rgot, rx`Got
      ensures Clients(t, h) && Work(t) && unchanged(rx)
      ensures var j := old(t.inflight)[i]; t == AfterWr(old(t), j.fd, ClientFrame(frame, j.cid), w)
      ensures Handed(old(t), old(h), t, h, i, frame, ok, e) && (ok <==> Deliverable(old(t), i, w.lack))
    {
      hide Clients, Nodes, Wids, Balanced, Traced, Received, NotOpen, AnswerOk, FdOf, AfterDrop, AfterGive, G4, ClientFrame, Refused;
      var j := t.inflight[i];
      JobBelongs(t, h, i, true);
      HitBelongs(t, h, i, frame);
      h := HitHistory(t, h, i, frame);
      e := Entry(-1, j.id, [], -1);
      if j.fd >= 0 {
        ok, e := Wr(j.fd, ClientFrame(frame, j.cid), j.id, |h.replies| - 1);
      } else {
        ok := false;
        OrphanNotOpen(t, h, i);
      }
    }

    /** The cap announced by node 0: a C long, so four bytes may be negative. */
    static method Cap(frame: seq<byte>) returns (cap: int)
      requires Whole(frame)
      ensures cap == NewCap(frame)
    {
      cap := JOB_MAX;
      if frame[2] == ST_OK && |frame| - LREP_HDR >= 4 {
        cap := G4(frame, LREP_HDR);
        if cap >= 0x8000_0000 {
          cap := cap - 0x1_0000_0000;
        }
      }
      if cap > JOB_BIG {
        cap := JOB_BIG;
      }
      if cap < JOB_MAX {
        cap := JOB_MAX;
      }
    }

    /** poll_link: take what the link has, in pieces of any size, and handle each reply as it becomes whole: the replies are
        those of parsing all that was read since the last boot, behind whatever that boot found in the buffer.  A header
        with an impossible length ends it: everything is failed and the stream is given up. */
    method PollLink(avail: seq<byte>) returns (used: nat, bad: bool)
      requires Valid() && t.up && t.leased == -1
      modifies `t, `h, rx, rx.rbuf
      ensures Valid() && t.leased == -1 && used <= |avail| && old(h.since) <= |old(h.replies)|
      ensures (t, rx.Got) == AfterPoll(old(t), old(rx.Got), avail, w)
      ensures old(h.replies) <= h.replies
      ensures !bad ==> t.up && used == |avail| && h.stale == old(h.stale) && h.since == old(h.since) && h.link == old(h.link) + avail
      ensures bad ==> var p := Parse(old(h.stale) + (old(h.link) + avail[..used]));
                      p.bad && Frames(h.replies, old(h.since)) == p.frames && !t.up && rx.Got == []
    {
      hide Sound, Received, Parse, BadLength, FrameLen, G4, Whole, Frames, AfterReplies, AfterDown;
      used, bad := 0, false;
      ghost var got0, t0 := rx.Got, t;
      assert old(h.link) + avail[..0] == old(h.link);
      ReceivedShape(rx.Got, h.stale, h.link, h.replies, h.since);
      PollStart(t, got0, avail, w);
      while used < |avail|
        invariant Valid() && t.leased == -1 && used <= |avail| && t.up && old(h.replies) <= h.replies
        invariant h.stale == old(h.stale) && h.since == old(h.since) && h.link == old(h.link) + avail[..used]
        invariant Polled(t0, got0, avail[..used], t, rx.Got, w)
        decreases |avail| - used
      {
        ReceivedShape(rx.Got, h.stale, h.link, h.replies, h.since);
        var want := rx.Want();
        var r :| 1 <= r <= want && used + r <= |avail|;
        var x := avail[used..used + r];
        assert old(h.link) + avail[..used + r] == (old(h.link) + avail[..used]) + x;
        assert avail[..used + r] == avail[..used] + x;
        ghost var t1, g1 := t, rx.Got;
        bad := Take(x);
        PollStep(t0, got0, avail[..used], x, t1, g1, t, rx.Got, w);
        used := used + r;
        if bad {
          PollBad(t0, got0, avail, used, t, w);
          return;
        }
      }
      assert avail[..used] == avail;
    }

    /** One read of x bytes, no more than the current frame lacks. */
    method Take(x: seq<byte>) returns (bad: bool)
      requires Valid() && t.up && t.leased == -1 && |rx.Got| + |x| <= FrameLen(rx.Got)
      modifies `t, `h, rx, rx.rbuf
      ensures Valid() && t.leased == -1 && old(h.replies) <= h.replies && old(h.since) <= |old(h.replies)|
      ensures !bad ==> t.up && h.stale == old(h.stale) && h.since == old(h.since) && h.link == old(h.link) + x
      ensures bad ==> !t.up && rx.Got == [] && Parse(old(h.stale) + (old(h.link) + x)).bad
                      && Frames(h.replies, old(h.since)) == Parse(old(h.stale) + (old(h.link) + x)).frames
      ensures bad <==> BadLength(old(rx.Got) + x)
      ensures ReadLeaves(old(t), old(rx.Got) + x, t, rx.Got, w)
    {
      hide Clients, Work, Balanced, Mode, Traced, Parse, G4, Frames, AfterReply, AfterDown;
      ReceivedMore(rx.Got, h.stale, h.link, h.replies, h.since, x);
      rx.Append(x);
      ghost var h0 := h;
      h := h.(link := h.link + x);
      SameHistory(t, h0, h);
      var whole := rx.rbuf[..rx.rgot];
      bad := BadLength(whole);
      if bad {
        SoundFails(t, h);
        GoDown();
        rx.Reset();
        ghost var h1 := h;
        h := h.(stale := [], link := [], since := |h.replies|);
        FreshStream(t, h1, h);
        ReceivedNothing(h.replies);
      } else if |whole| >= FrameLen(whole) {
        ghost var h1 := h;
        var ok := Deliver(whole);
        rx.Reset();
        ReceivedNext(whole, h.stale, h.link, h1.replies, h.since, h.replies[|h1.replies|]);
        assert h1.replies + [h.replies[|h1.replies|]] == h.replies;
      }
    }

    // ---- the main loop's steps -----------------------------------------------------------------

    /** accept gave descriptor c, which no open connection has: it gets the first free slot, under a connection number of its
        own; without a free slot it is closed again. */
    method Accept(c: int)
      requires Valid() && c !in t.cl
      modifies `t, `h
      ensures Valid() && t == AfterAccept(old(t), c)
      ensures var i := Slot(old(t.cl), -1);
              if c >= 0 && i < MAXCL then |h.conn| == MAXCL && h.conn[i] == old(h.nextConn) && h.nextConn == old(h.nextConn) + 1 else h == old(h)
    {
      hide Sound, Received;
      Shape(t, h);
      var i := 0;
      while i < MAXCL && t.cl[i] >= 0
        invariant 0 <= i <= MAXCL && forall k :: 0 <= k < i ==> t.cl[k] >= 0
      {
        i := i + 1;
      }
      if i < MAXCL {
        FirstSlot(t.cl, i);
      }
      if c >= 0 && i < MAXCL {
        AcceptedSound(t, h, i, c);
        t := t.(cl := t.cl[i := c], oq := t.oq[i := []]);
        h := h.(conn := h.conn[i := h.nextConn], nextConn := h.nextConn + 1, sent := h.sent[i := []]);
      }
    }

    /** drop_client on a settled state. */
    method Drop(i: nat)
      requires Valid() && i < MAXCL
      modifies `t, `h, rx`rgot, rx`Got
      ensures Valid() && t == AfterDrop(old(t), i, w) && h.log == old(h.log) && h.conn == old(h.conn)
      ensures rx.Got == if t.boots == old(t.boots) then old(rx.Got) else []
    {
      hide Clients, Work, Balanced, Received, Ids, Traced;
      Shape(t, h);
      DropClient(i);
      if old(t.leased) != i {
        DroppedSound(old(t), h, i);
      }
    }

    /** A status to client i, or it is dropped for lack of memory. */
    method Refuse(i: nat, cid: u16, st: byte)
      requires Valid() && i < MAXCL
      modifies `t, `h, rx`rgot, rx`Got
      ensures Valid() && t == AfterAnswer(old(t), i, cid, st, w) && |old(h.conn)| == MAXCL && h.conn == old(h.conn)
      ensures rx.Got == if t.boots == old(t.boots) then old(rx.Got) else []
      ensures ToldOnce(old(h), h.log, i, cid, st, old(t.cl)[i] >= 0 && !w.lack(old(t.allocs)))
    {
      hide Clients, Work, Balanced, Received, Ids, Traced, AfterWr;
      Shape(t, h);
      assert t.cl[i] in t.cl;
      var ok;
      ghost var e;
      ok, e := Answer(t.cl[i], cid, st, -1);
      if old(t.leased) == -1 {
        if ok {
          GivenSound(old(t), old(h), t, h, e);
        } else {
          RefusedSound(old(t), t, h, old(t).cl[i]);
        }
      }
    }

    /** Client i's socket is readable: hdr is the header it sent, or too short when the read failed; payload is what could be
        read of the rest, and mem whether there is memory for it. */
    method Request(i: nat, hdr: seq<byte>, payload: seq<byte>, mem: bool)
      requires Valid() && i < MAXCL && t.cl[i] >= 0
      modifies `t, `h, rx`rgot, rx`Got
      ensures Valid() && t == AfterRequest(old(t), i, hdr, payload, mem, w)
      ensures rx.Got == if t.boots == old(t.boots) then old(rx.Got) else []
      ensures |old(h.conn)| == MAXCL && Logged(old(t), old(h), h.log, i, hdr, payload, mem, w)
    {
      hide Sound, Received, G4, Count, AfterDrop, AfterAnswer, AfterLease, AfterDown, ToldOnce, Granted, Starved, Survivors;
      Shape(t, h);
      if |hdr| != JOB_HDR {
        Drop(i);
        return;
      }
      var n := G4(hdr, H_LEN);
      if n >= 0x8000_0000 || n > t.bigMax || (n > JOB_MAX && hdr[3] != NODE_ANY && hdr[3] != 0) {
        TellAndDrop(i, hdr[0] + 256 * (hdr[1] as int));
      } else if hdr[2] == OP_LEASE {
        Lease(i, hdr[0] + 256 * (hdr[1] as int), n);
      } else if hdr[3] != NODE_ANY && (hdr[3] >= NODES || t.absent[hdr[3]]) {
        Refuse(i, hdr[0] + 256 * (hdr[1] as int), ST_NONODE);
      } else {
        var taken := Admit(i, hdr, payload, mem);
      }
    }

    /** ST_TOOBIG, and the connection is closed: the payload is not worth reading. */
    method TellAndDrop(i: nat, cid: u16)
      requires Valid() && i < MAXCL && t.cl[i] >= 0
      modifies `t, `h, rx`rgot, rx`Got
      ensures Valid() && t == AfterDrop(AfterAnswer(old(t), i, cid, ST_TOOBIG, w), i, w)
      ensures rx.Got == if t.boots == old(t.boots) then old(rx.Got) else []
      ensures |old(h.conn)| == MAXCL && ToldOnce(old(h), h.log, i, cid, ST_TOOBIG, !w.lack(old(t.allocs)))
    {
      hide Sound, Received, AfterDrop, AfterAnswer;
      Refuse(i, cid, ST_TOOBIG);
      DropBoots(t, i, w);
      AnswerBoots(old(t), i, cid, ST_TOOBIG, w);
      Drop(i);
    }

    /** OP_LEASE: the T425 goes to client i until its connection closes; a second lease is refused.  The lease is left on
        an empty slot exactly when go_down, answering the client's own outstanding jobs, drops it for lack of memory. */
    method Lease(i: nat, cid: u16, n: int)
      requires Valid() && i < MAXCL && t.cl[i] >= 0
      modifies `t, `h, rx`rgot, rx`Got
      ensures Valid()
      ensures t == if n != 0 then AfterDrop(old(t), i, w)
                   else if old(t.leased) >= 0 then AfterAnswer(old(t), i, cid, ST_DOWN, w)
                   else AfterLease(old(t), i, cid, w)
      ensures rx.Got == if t.boots == old(t.boots) then old(rx.Got) else []
      ensures |old(h.conn)| == MAXCL
      ensures n != 0 ==> h.log == old(h.log)
      ensures n == 0 && old(t.leased) >= 0 ==> ToldOnce(old(h), h.log, i, cid, ST_DOWN, !w.lack(old(t.allocs)))
      ensures n == 0 && old(t.leased) == -1 ==> Granted(old(t), old(h), h.log, i, cid, w)
      ensures n == 0 && old(t.leased) == -1 ==> (t.leased >= 0 && t.cl[t.leased] < 0 <==> Starved(old(t), w, i))
      ensures n == 0 && old(t.leased) == -1 && Starved(old(t), w, i) ==> t.leased == i && t.cl == Survivors(old(t), w)
    {
      hide Sound, Received, AfterDrop, AfterAnswer, AfterLease, Granted, Starved, Survivors;
      Shape(t, h);
      if n != 0 {
        Drop(i);
      } else if t.leased >= 0 {
        Refuse(i, cid, ST_DOWN);
      } else {
        LeaseSlot(t, h, i, cid, w);
        GrantLease(i, cid);
      }
    }

    method GrantLease(i: nat, cid: u16)
      requires Valid() && i < MAXCL && t.cl[i] >= 0 && t.leased == -1
      modifies `t, `h, rx`rgot, rx`Got
      ensures Valid() && t == AfterLease(old(t), i, cid, w) && |old(h.conn)| == MAXCL
      ensures rx.Got == if t.boots == old(t.boots) then old(rx.Got) else []
      ensures Granted(old(t), old(h), h.log, i, cid, w)
    {
      hide Sound, Received, AfterAnswer, AfterDown, Ids;
      Shape(t, h);
      SoundFails(t, h);
      GoDown();
      LeaseSound(t, h, i);
      t := t.(downSince := 0, leased := i);
      ghost var h1 := h;
      Refuse(i, cid, ST_OK);
      if AfterDown(old(t), w).cl[i] >= 0 && !w.lack(AfterDown(old(t), w).allocs) {
        assert h.log[..|h.log| - 1] == h1.log;
      }
    }

    /** How many jobs the client on fd has outstanding. */
    method CountJobs(fd: int) returns (mine: nat)
      ensures mine == Count(t.queue, fd) + Count(t.inflight, fd)
    {
      var a := CountIn(t.queue, fd);
      var b := CountIn(t.inflight, fd);
      mine := a + b;
    }

    static method CountIn(js: seq<Job>, fd: int) returns (c: nat)
      ensures c == Count(js, fd)
    {
      c := 0;
      for k := 0 to |js|
        invariant c == Count(js[..k], fd)
      {
        assert js[..k + 1][..k] == js[..k];
        c := c + if js[k].fd == fd then 1 else 0;
      }
      assert js[..|js|] == js;
    }

    /** Queue the job, unless the network is down, the queue or the client's quota is full, or it cannot be read. */
    method Admit(i: nat, hdr: seq<byte>, payload: seq<byte>, mem: bool) returns (taken: bool)
      requires Valid() && i < MAXCL && t.cl[i] >= 0
      requires |hdr| == JOB_HDR && G4(hdr, H_LEN) <= JOB_BIG
      modifies `t, `h, rx`rgot, rx`Got
      ensures Valid()
      ensures taken <==> && old(t.up) && |old(t.queue)| < QMAX && |payload| == G4(hdr, H_LEN) && mem
                         && Count(old(t.queue), old(t.cl)[i]) + Count(old(t.inflight), old(t.cl)[i]) < CLIENT_MAX_JOBS
      ensures rx.Got == if t.boots == old(t.boots) then old(rx.Got) else []
      ensures if taken then Admits(old(t), old(h), t, h, i, hdr, payload) else Declined(old(t), old(h), t, h, i, hdr, w)
    {
      hide Sound, Received, G4, Count, AfterAnswer;
      Shape(t, h);
      var cid: u16 := hdr[0] + 256 * (hdr[1] as int);
      var mine := CountJobs(t.cl[i]);
      taken := false;
      if !t.up || |t.queue| >= QMAX || mine >= CLIENT_MAX_JOBS {
        Refuse(i, cid, ST_DOWN);
        return;
      }
      if !mem || |payload| != G4(hdr, H_LEN) {
        Refuse(i, cid, ST_DOWN);
        return;
      }
      var j := Job(t.cl[i], cid, 0, hdr + payload, 0, 0, t.admitted, 0);
      BufLen(hdr, payload);
      AdmittedSound(t, h, i, j);
      h := AdmitHistory(h, h.conn[i], j);
      t := t.(queue := t.queue + [j], admitted := t.admitted + 1);
      taken := true;
    }

    /** The watchdog: when a job is past its deadline, every outstanding job is answered ST_DOWN or has no client left, the
        half-read reply is forgotten and a boot is tried. */
    method Watchdog()
      requires Valid()
      modifies `t, `h, rx`rgot, rx`Got
      ensures Valid() && (t, rx.Got) == AfterWatch(old(t), old(rx.Got), w) && t.leased == old(t.leased)
      ensures Late(old(t.inflight), old(t.clock)) ==>
                && h.answered + h.dropped == old(h.answered) + old(h.dropped) + Ids(old(t.queue)) + Ids(old(t.inflight))
                && AllDown(old(h.log), h.log) && h.lost == old(h.lost)
                && t.inflight == [] && (forall q :: 0 <= q < |t.queue| ==> t.queue[q].id >= old(t.admitted))
                && rx.Got == [] && t.boots == old(t.boots) + 1 && (t.up ==> h.stale == []) && (!t.up ==> t.downSince == t.secs)
      ensures !Late(old(t.inflight), old(t.clock)) ==> t == old(t) && h == old(h) && unchanged(rx)
    {
      hide Sound, Received, Ids, AfterDown, AllDown;
      Shape(t, h);
      var i := 0;
      while i < |t.inflight|
        invariant 0 <= i <= |t.inflight| && Valid() && t == old(t) && h == old(h) && unchanged(rx)
        invariant forall k :: 0 <= k < i ==> t.inflight[k].due >= t.clock
      {
        if t.clock - t.inflight[i].due > 0 {
          assert Late(t.inflight, t.clock);
          SoundFails(t, h);
          GoDown();
          Shape(t, h);
          Forget();
          Reboot();
          return;
        }
        i := i + 1;
      }
    }

    /** The retry while down.  It does not forget a half-read reply: the new stream is read behind it (see StaleMisreads). */
    method Retry()
      requires Valid()
      modifies `t, `h
      ensures Valid() && t == AfterRetry(old(t), w)
      ensures !old(t.up) && t.up ==> h.link == [] && h.stale == rx.Got && h.since == |h.replies| && h.replies == old(h.replies)
      ensures t.boots == old(t.boots) + (if !old(t.up) && old(t.downSince) != 0 && t.secs - old(t.downSince) >= REBOOT_RETRY_S then 1 else 0)
      ensures t.boots > old(t.boots) ==> t.downSince == if t.up then 0 else t.secs
      ensures t.boots == old(t.boots) ==> t == old(t) && h == old(h)
    {
      hide Clients, Work, Ids, Books, LogIds, Received, Traced;
      Shape(t, h);
      if !t.up && t.downSince != 0 && t.secs - t.downSince >= REBOOT_RETRY_S {
        Boot();
        DownAt(if t.up then 0 else t.secs);
      }
    }

    /** Any number of turns of the main loop, with any outside events: the invariant holds throughout, and the variables and
        the reply buffer are what the events make of them. */
    method Run(events: seq<Event>)
      requires Valid()
      modifies `t, `h, rx, rx.rbuf
      ensures Valid() && (t, rx.Got) == AfterEvents(old(t), old(rx.Got), events, w)
    {
      hide Sound, Received, AfterEvent;
      ghost var t0, got0 := t, rx.Got;
      assert events[..0] == [];
      for k := 0 to |events|
        invariant Valid() && (t, rx.Got) == AfterEvents(t0, got0, events[..k], w)
      {
        EventsSnoc(t0, got0, events, k, w);
        OneEvent(events[k]);
      }
      assert events[..|events|] == events;
    }

    /** One event; one that cannot be changes nothing. */
    method OneEvent(e: Event)
      requires Valid()
      modifies `t, `h, rx, rx.rbuf
      ensures Valid() && (t, rx.Got) == AfterEvent(old(t), old(rx.Got), e, w)
    {
      hide Sound, Received, AfterRequest, AfterFlush, AfterPoll, AfterSends, AfterWatch, AfterRetry, AfterAccept, Logged, Ids;
      Shape(t, h);
      match e
      case Clock(clock, secs) => SetClock(clock, secs);
      case Connect(c) =>
        if c !in t.cl {
          Accept(c);
        }
      case Readable(i, hdr, payload, mem) =>
        if 0 <= i < MAXCL && t.cl[i] >= 0 {
          Request(i, hdr, payload, mem);
        }
      case Writable(i) =>
        if 0 <= i < MAXCL && t.cl[i] >= 0 {
          Flush(i);
        }
      case Poll(avail) =>
        if |t.inflight| > 0 {
          var used, bad := PollLink(avail);
        }
      case Send => SendJobs();
      case Watch => Watchdog();
      case Retry => Retry();
    }

    method SetClock(clock: int, secs: int)
      requires Valid()
      modifies `t
      ensures Valid() && t == old(t).(clock := clock, secs := secs)
    {
      hide Clients, Work, Mode, Balanced, Traced, Received;
      SameSound(t, t.(clock := clock, secs := secs), h);
      t := t.(clock := clock, secs := secs);
    }

    method Flush(i: nat)
      requires Valid() && i < MAXCL && t.cl[i] >= 0
      modifies `t, `h
      ensures Valid() && t == AfterFlush(old(t), i, w)
    {
      hide Clients, Work, Ids, Books, LogIds, Received, Traced, Drain;
      FlushOut(i);
      SameWork(old(t), t);
      TracedKeeps(old(t), old(h), t, h);
    }
  }

  /** The next client accepted into the slot of a client that was starved out of its own lease holds that lease. */
  method InheritedLease(d: Daemon, i: nat, cid: u16, c: int)
    requires d.Valid() && d.t.leased == -1 && i < MAXCL && d.t.cl[i] >= 0
    requires Starved(d.t, d.w, i) && Slot(Survivors(d.t, d.w), -1) == i && c >= 0 && c !in Survivors(d.t, d.w)
    modifies d, d.rx
    ensures d.Valid() && d.t.leased == i && d.t.cl[i] == c && !d.t.up
  {
    hide Sound, Received, AfterDown, AfterLease, Granted;
    d.Lease(i, cid, 0);
    d.Accept(c);
    Shape(d.t, d.h);
  }
}
