/** The daemon's tables (sam-job-tt/ttjobd.c) and the clauses of its invariant, each over the fields it speaks of.

    Jobs and client slots carry history that the daemon itself never reads: a job's number in order of admission
    (`id`), its number in order of sending (`serial`), and a slot's connection number.  File descriptors are reused;
    connection numbers are not. */
module DaemonBooks {
  import opened Wire

  const MAXCL := 8
  const QMAX := 32
  const CLIENT_MAX_JOBS := 16
  const WIDS := 65536

  /** A request as it was submitted or sent: a header, and the payload it announces. */
  type Buf = b: seq<byte> | |b| >= JOB_HDR witness [0, 0, 0, 0, 0, 0, 0, 0, 0, 0, 0, 0, 0]

  type NodeNo = k: int | 0 <= k < NODES

  datatype Job = Job(fd: int, cid: u16, wid: int, buf: Buf, node: NodeNo, due: int, id: nat, serial: nat)

  /** The length of the payload. */
  function Length(j: Job): nat { |j.buf| - JOB_HDR }

  /** A reply waiting for a client's socket; the first off bytes have been written. */
  datatype Chunk = Chunk(d: seq<byte>, off: nat)

  /** A frame handed to a connection: the answer to job id made from the from-th reply of the link, or a status (from < 0);
      a refusal on the spot has no job (id < 0). */
  datatype Entry = Entry(conn: int, id: int, frame: seq<byte>, from: int)

  /** A whole reply that the daemon has taken from the link: the serial of the job it was matched with (0: none), the
      serials in flight at that moment, and the number of sends so far. */
  datatype Reply = Reply(frame: seq<byte>, hit: nat, open: set<nat>, when: nat)

  // ---- frames ----------------------------------------------------------------------------------

  /** The status-only reply of answer(). */
  function StatusFrame(cid: int, st: byte): (f: seq<byte>)
    requires 0 <= cid < 65536
    ensures |f| == REP_HDR && f[0] + 256 * (f[1] as int) == cid && f[2] == st && forall i :: 3 <= i < REP_HDR ==> f[i] == 0
  {
    [cid % 256, cid / 256, st, 0, 0, 0, 0, 0, 0, 0, 0, 0, 0, 0, 0]
  }

  /** The id a link reply carries. */
  function Wid(frame: seq<byte>): int
    requires |frame| >= LREP_HDR
  {
    frame[0] + 256 * (frame[1] as int)
  }

  /** The reply as the client gets it: its own id, and no node byte. */
  function ClientFrame(frame: seq<byte>, cid: int): (f: seq<byte>)
    requires |frame| >= LREP_HDR && 0 <= cid < 65536
    ensures |f| == |frame| - 1 && f[0] + 256 * (f[1] as int) == cid && f[2..REP_HDR] == frame[2..REP_HDR] && f[REP_HDR..] == frame[LREP_HDR..]
  {
    [cid % 256, cid / 256] + frame[2..REP_HDR] + frame[LREP_HDR..]
  }

  // ---- clients ---------------------------------------------------------------------------------

  predicate Slots(cl: seq<int>, conn: seq<int>, nextConn: nat) {
    && |cl| == |conn| == MAXCL
    && (forall i :: 0 <= i < MAXCL ==> cl[i] >= -1 && (cl[i] >= 0 ==> 0 <= conn[i] < nextConn))
    && (forall i, j :: 0 <= i < j < MAXCL && cl[i] >= 0 && cl[j] >= 0 ==> cl[i] != cl[j] && conn[i] != conn[j])
  }

  /** A job's descriptor is that of its owner's slot while the owner is connected, and -1 once it is gone. */
  predicate Owned(js: seq<Job>, cl: seq<int>, conn: seq<int>, owner: seq<int>, cids: seq<int>) {
    && |cl| == |conn| && |owner| == |cids|
    && (forall q :: 0 <= q < |js| ==> OwnedJob(js[q], cl, owner, cids))
    && (forall q, i :: 0 <= q < |js| && 0 <= i < |cl| && cl[i] >= 0 ==> (cl[i] == js[q].fd <==> conn[i] == owner[js[q].id]))
  }

  /** Connection c is not open. */
  predicate NotOpen(cl: seq<int>, conn: seq<int>, c: int) {
    forall i :: 0 <= i < |cl| && i < |conn| && cl[i] >= 0 ==> conn[i] != c
  }

  /** A job is only dropped unanswered once its owner is gone. */
  predicate Gone(dropped: multiset<nat>, cl: seq<int>, conn: seq<int>, owner: seq<int>) {
    forall id :: id in dropped ==> id < |owner| && NotOpen(cl, conn, owner[id])
  }

  /** Jobs belong to connections seen so far, or to the daemon. */
  predicate Known(owner: seq<int>, nextConn: nat) { forall k :: 0 <= k < |owner| ==> -1 <= owner[k] < nextConn }

  predicate OwnedJob(j: Job, cl: seq<int>, owner: seq<int>, cids: seq<int>)
    requires |owner| == |cids|
  {
    && j.id < |owner| && j.cid == cids[j.id]
    && |j.buf| <= JOB_HDR + JOB_BIG && G4(j.buf, H_LEN) == Length(j)
    && j.fd >= -1 && (j.fd >= 0 ==> j.fd in cl)
  }

  function Count(js: seq<Job>, fd: int): nat {
    if js == [] then 0 else (if js[|js| - 1].fd == fd then 1 else 0) + Count(js[..|js| - 1], fd)
  }

  /** No connected client has more than 16 jobs outstanding. */
  predicate Quota(cl: seq<int>, queue: seq<Job>, inflight: seq<Job>) {
    forall i :: 0 <= i < |cl| && cl[i] >= 0 ==> Count(queue, cl[i]) + Count(inflight, cl[i]) <= CLIENT_MAX_JOBS
  }

  // ---- jobs ------------------------------------------------------------------------------------

  function IdSeq(js: seq<Job>): (s: seq<nat>)
    ensures |s| == |js|
    ensures forall i :: 0 <= i < |js| ==> s[i] == js[i].id
  {
    seq(|js|, i requires 0 <= i < |js| => js[i].id)
  }

  function Ids(js: seq<Job>): multiset<nat> { multiset(IdSeq(js)) }

  /** 0, 1, .. n - 1, once each. */
  function Upto(n: nat): multiset<nat> { if n == 0 then multiset{} else Upto(n - 1) + multiset{n - 1} }

  /** Every admitted job is in exactly one place. */
  predicate Books(n: nat, queue: multiset<nat>, inflight: multiset<nat>, answered: multiset<nat>, dropped: multiset<nat>, lost: multiset<nat>) {
    queue + inflight + answered + dropped + lost == Upto(n)
  }

  lemma IdsSnoc(js: seq<Job>, j: Job)
    ensures Ids(js + [j]) == Ids(js) + multiset{j.id}
  {
    assert IdSeq(js + [j]) == IdSeq(js) + [j.id];
  }

  lemma IdsRemove(js: seq<Job>, q: nat)
    requires q < |js|
    ensures Ids(js) == Ids(js[..q] + js[q + 1..]) + multiset{js[q].id}
  {
    var s := IdSeq(js);
    assert IdSeq(js[..q] + js[q + 1..]) == s[..q] + s[q + 1..];
    assert s == s[..q] + [s[q]] + s[q + 1..];
  }

  /** inflight[i] = inflight[--nin] */
  function SwapOut(js: seq<Job>, i: nat): seq<Job>
    requires i < |js|
  {
    js[i := js[|js| - 1]][..|js| - 1]
  }

  lemma IdsSwapOut(js: seq<Job>, i: nat)
    requires i < |js|
    ensures Ids(js) == Ids(SwapOut(js, i)) + multiset{js[i].id}
  {
    var s, l := IdSeq(js), |js| - 1;
    assert IdSeq(SwapOut(js, i)) == s[i := s[l]][..l];
    assert s == s[..l] + [s[l]];
    if i < l {
      assert s[..l] == s[..i] + [s[i]] + s[i + 1..l];
      assert s[i := s[l]][..l] == s[..i] + [s[l]] + s[i + 1..l];
    }
  }

  /** Client fd is gone: its jobs' replies go nowhere. */
  function Orphan(js: seq<Job>, fd: int): (r: seq<Job>)
    ensures |r| == |js|
    ensures forall i :: 0 <= i < |js| ==> r[i] == if js[i].fd == fd then js[i].(fd := -1) else js[i]
  {
    seq(|js|, i requires 0 <= i < |js| => if js[i].fd == fd then js[i].(fd := -1) else js[i])
  }

  lemma OrphanIds(js: seq<Job>, fd: int)
    ensures Ids(Orphan(js, fd)) == Ids(js)
  {
    assert IdSeq(Orphan(js, fd)) == IdSeq(js);
  }

  lemma {:induction false} OrphanCount(js: seq<Job>, fd: int, other: int)
    requires other >= 0 && fd >= 0
    ensures Count(Orphan(js, fd), other) == if other == fd then 0 else Count(js, other)
  {
    if js != [] {
      var n := |js| - 1;
      OrphanCount(js[..n], fd, other);
      assert Orphan(js, fd)[..n] == Orphan(js[..n], fd);
    }
  }

  lemma {:induction false} CountConcat(a: seq<Job>, b: seq<Job>, fd: int)
    ensures Count(a + b, fd) == Count(a, fd) + Count(b, fd)
  {
    if b == [] {
      assert a + b == a;
    } else {
      CountConcat(a, b[..|b| - 1], fd);
      assert (a + b)[..|a + b| - 1] == a + b[..|b| - 1];
    }
  }

  lemma CountRemove(js: seq<Job>, q: nat, fd: int)
    requires q < |js|
    ensures Count(js, fd) == Count(js[..q] + js[q + 1..], fd) + (if js[q].fd == fd then 1 else 0)
  {
    assert js == js[..q] + ([js[q]] + js[q + 1..]);
    CountConcat(js[..q], [js[q]] + js[q + 1..], fd);
    CountConcat([js[q]], js[q + 1..], fd);
    CountConcat(js[..q], js[q + 1..], fd);
    CountOne(js[q], fd);
  }

  lemma CountOne(j: Job, fd: int)
    ensures Count([j], fd) == if j.fd == fd then 1 else 0
  {
  }

  lemma CountSwapOut(js: seq<Job>, i: nat, fd: int)
    requires i < |js|
    ensures Count(js, fd) == Count(SwapOut(js, i), fd) + (if js[i].fd == fd then 1 else 0)
  {
    var l := |js| - 1;
    CountRemove(js, i, fd);
    if i == l {
      assert js[..i] + js[i + 1..] == SwapOut(js, i);
    } else {
      CountRemove(SwapOut(js, i), i, fd);
      CountRemove(js[..i] + js[i + 1..], l - 1, fd);
      assert (js[..i] + js[i + 1..])[..l - 1] + (js[..i] + js[i + 1..])[l..] == js[..i] + js[i + 1..l];
      assert SwapOut(js, i)[..i] + SwapOut(js, i)[i + 1..] == js[..i] + js[i + 1..l];
    }
  }

  // ---- nodes -----------------------------------------------------------------------------------

  /** busy[k] holds exactly when one in-flight job is on node k. */
  predicate Nodes(inflight: seq<Job>, busy: seq<bool>) {
    && |busy| == NODES && |inflight| <= NODES
    && (forall i :: 0 <= i < |inflight| ==> 0 <= inflight[i].node < NODES && busy[inflight[i].node])
    && (forall i, j :: 0 <= i < j < |inflight| ==> inflight[i].node != inflight[j].node)
    && (forall k :: 0 <= k < NODES && busy[k] ==> On(inflight, k))
  }

  predicate On(inflight: seq<Job>, k: int) { exists i :: 0 <= i < |inflight| && inflight[i].node == k }

  // ---- wire ids --------------------------------------------------------------------------------

  predicate Wids(inflight: seq<Job>, sends: nat, nextwid: int) {
    && nextwid == sends % WIDS
    && (forall i :: 0 <= i < |inflight| ==> 1 <= inflight[i].serial <= sends && inflight[i].wid == inflight[i].serial % WIDS)
    && (forall i, j :: 0 <= i < j < |inflight| ==> inflight[i].serial != inflight[j].serial)
  }

  /** Fewer than 65,536 sends during the flight of any job. */
  predicate Recent(inflight: seq<Job>, sends: nat) {
    forall i :: 0 <= i < |inflight| ==> sends - inflight[i].serial < WIDS
  }

  /** Then a wire id names one in-flight job. */
  lemma WidUnique(inflight: seq<Job>, sends: nat, nextwid: int, i: nat, j: nat)
    requires Wids(inflight, sends, nextwid) && Recent(inflight, sends)
    requires i < |inflight| && j < |inflight| && inflight[i].wid == inflight[j].wid
    ensures i == j
  {
    var a, b := inflight[i].serial, inflight[j].serial;
    assert a % WIDS == b % WIDS && -WIDS < a - b < WIDS;
    assert a == b;
  }

  /** Without that bound it need not: with 65,536 sends between them, two jobs in flight share their wire id. */
  lemma WidWraps(buf: Buf)
    ensures var j := Job(-1, 0, 1, buf, 0, 0, 0, 1);
            var k := Job(-1, 0, 1, buf, 1, 0, 1, 1 + WIDS);
            Wids([j, k], 1 + WIDS, 1) && j.wid == k.wid && j != k && !Recent([j, k], 1 + WIDS)
  {
    var js := [Job(-1, 0, 1, buf, 0, 0, 0, 1), Job(-1, 0, 1, buf, 1, 0, 1, 1 + WIDS)];
    assert js[0].serial == 1 && js[1].serial == 1 + WIDS;
  }

  // ---- what the clients get --------------------------------------------------------------------

  function LogIds(log: seq<Entry>): multiset<nat> {
    if log == [] then multiset{}
    else LogIds(log[..|log| - 1])
         + (if log[|log| - 1].id >= 0 then multiset{log[|log| - 1].id as nat} else multiset{})
  }

  /** What a job's answer may be: ST_DOWN, or the link reply that was matched with the job's send, under the client's id
      and without the node byte. */
  predicate AnswerOk(e: Entry, cid: int, order: seq<nat>, replies: seq<Reply>) {
    && 0 <= cid < 65536
    && (if e.from < 0 then e.frame == StatusFrame(cid, ST_DOWN)
        else
          && e.from < |replies| && |replies[e.from].frame| >= LREP_HDR
          && e.frame == ClientFrame(replies[e.from].frame, cid)
          && 1 <= replies[e.from].hit <= |order| && order[replies[e.from].hit - 1] == e.id
          && Wid(replies[e.from].frame) == replies[e.from].hit % WIDS)
  }

  /** The frame goes to the connection that submitted the job. */
  predicate EntryOk(e: Entry, owner: seq<int>, cids: seq<int>, nextConn: nat, order: seq<nat>, replies: seq<Reply>) {
    && 0 <= e.conn < nextConn && |e.frame| >= REP_HDR
    && (if e.id < 0 then e.from < 0 && |e.frame| == REP_HDR
        else e.id < |owner| == |cids| && owner[e.id] == e.conn && AnswerOk(e, cids[e.id], order, replies))
  }

  predicate LogOk(log: seq<Entry>, owner: seq<int>, cids: seq<int>, nextConn: nat, order: seq<nat>, replies: seq<Reply>) {
    forall i :: 0 <= i < |log| ==> EntryOk(log[i], owner, cids, nextConn, order, replies)
  }

  /** Every byte handed to connection c, in order. */
  function Given(log: seq<Entry>, c: int): seq<byte> {
    if log == [] then []
    else Given(log[..|log| - 1], c) + (if log[|log| - 1].conn == c then log[|log| - 1].frame else [])
  }

  function Pending(q: seq<Chunk>): seq<byte> {
    if q == [] then [] else (if q[0].off <= |q[0].d| then q[0].d[q[0].off..] else []) + Pending(q[1..])
  }

  /** What a connection's socket has taken, and what is queued for it, are together all it was given. */
  predicate Output(log: seq<Entry>, cl: seq<int>, conn: seq<int>, broken: set<int>, sent: seq<seq<byte>>, oq: seq<seq<Chunk>>) {
    && |cl| == |conn| == |sent| == |oq|
    && (forall i :: 0 <= i < |cl| && cl[i] >= 0 && conn[i] !in broken ==> Given(log, conn[i]) == sent[i] + Pending(oq[i]))
    && (forall i :: 0 <= i < |oq| ==> Fresh(oq[i]))
  }

  predicate Fresh(q: seq<Chunk>) { forall k :: 0 <= k < |q| ==> q[k].off < |q[k].d| }

  lemma LogSnoc(log: seq<Entry>, e: Entry, c: int)
    ensures Given(log + [e], c) == Given(log, c) + (if e.conn == c then e.frame else [])
    ensures LogIds(log + [e]) == LogIds(log) + (if e.id >= 0 then multiset{e.id as nat} else multiset{})
  {
  }

  lemma {:induction false} GivenNothing(log: seq<Entry>, c: int)
    requires forall i :: 0 <= i < |log| ==> log[i].conn != c
    ensures Given(log, c) == []
  {
    if log != [] {
      GivenNothing(log[..|log| - 1], c);
    }
  }

  lemma {:induction false} PendingSnoc(q: seq<Chunk>, d: seq<byte>)
    ensures Pending(q + [Chunk(d, 0)]) == Pending(q) + d
  {
    if q == [] {
      assert q + [Chunk(d, 0)] == [Chunk(d, 0)] && d[0..] == d && [Chunk(d, 0)][1..] == [];
    } else {
      PendingSnoc(q[1..], d);
      var r := q + [Chunk(d, 0)];
      assert r[1..] == q[1..] + [Chunk(d, 0)] && r[0] == q[0];
    }
  }

  // ---- sends and replies -----------------------------------------------------------------------

  /** order[n - 1] is the job of the n-th send. */
  predicate OrderOk(order: seq<nat>, sends: nat, inflight: seq<Job>) {
    && |order| == sends
    && forall i :: 0 <= i < |inflight| ==> 1 <= inflight[i].serial <= sends && order[inflight[i].serial - 1] == inflight[i].id
  }

  function Serials(js: seq<Job>): set<nat> { set i | 0 <= i < |js| :: js[i].serial }

  /** a + 1, .. b */
  function Range(a: nat, b: nat): (r: set<nat>)
    ensures forall n :: n in r <==> a < n <= b
  {
    if b <= a then {} else Range(a, b - 1) + {b}
  }

  function Hits(replies: seq<Reply>, a: nat, b: nat): set<nat>
    requires b <= |replies|
  {
    set k | a <= k < b :: replies[k].hit
  }

  /** In flight are the sends since the last boot that no reply has been matched with. */
  predicate OpenOk(inflight: seq<Job>, start: nat, sends: nat, replies: seq<Reply>, since: nat) {
    Serials(inflight) == Range(start, sends) - Hits(replies, since, |replies|)
  }

  /** A reply is matched with a send in flight that has its wire id, if there is one. */
  predicate Matched(r: Reply) {
    && |r.frame| >= LREP_HDR
    && (if r.hit == 0 then forall n :: n in r.open ==> n % WIDS != Wid(r.frame)
        else r.hit in r.open && r.hit % WIDS == Wid(r.frame))
  }

  /** Each reply since the last boot found in flight what had been sent since then and not been answered before. */
  predicate Chronicle(replies: seq<Reply>, since: nat, start: nat, sends: nat) {
    && since <= |replies| && start <= sends
    && forall k :: since <= k < |replies| ==> ReplyOk(replies, since, start, sends, k)
  }

  predicate ReplyOk(replies: seq<Reply>, since: nat, start: nat, sends: nat, k: nat)
    requires k < |replies|
  {
    && start <= replies[k].when <= sends && Matched(replies[k])
    && replies[k].open == Range(start, replies[k].when) - Hits(replies, since, k)
  }

  /** Job id was answered with the k-th reply. */
  predicate AnsweredBy(log: seq<Entry>, k: nat, id: nat) { exists m :: 0 <= m < |log| && log[m].from == k && log[m].id == id }

  /** A matched reply was handed to the job's client, unless the client was gone. */
  predicate Told(log: seq<Entry>, dropped: multiset<nat>, order: seq<nat>, replies: seq<Reply>) {
    forall k :: 0 <= k < |replies| && replies[k].hit != 0 ==> ReplyTold(log, dropped, order, replies[k].hit, k)
  }

  predicate ReplyTold(log: seq<Entry>, dropped: multiset<nat>, order: seq<nat>, hit: nat, k: nat) {
    1 <= hit <= |order| && (order[hit - 1] in dropped || AnsweredBy(log, k, order[hit - 1]))
  }

  /** r is the submission buf on its way to a node under a wire id. */
  predicate StampOf(r: Req, buf: seq<byte>, wid: int) {
    && |buf| >= JOB_HDR && |r.hdr| == JOB_HDR
    && r.hdr[0] + 256 * (r.hdr[1] as int) == wid && 0 <= r.hdr[3] < NODES
    && r.hdr[2] == buf[2] && r.hdr[4..] == buf[4..JOB_HDR] && r.payload == buf[JOB_HDR..]
  }

  /** The requests written since the last boot are the submissions of the jobs sent, in order. */
  predicate WroteOk(wrote: seq<Req>, start: nat, order: seq<nat>, subs: seq<seq<byte>>) {
    start + |wrote| == |order| && forall m :: 0 <= m < |wrote| ==> WroteAt(wrote[m], order, subs, start + m)
  }

  /** r is the request of send n + 1. */
  predicate WroteAt(r: Req, order: seq<nat>, subs: seq<seq<byte>>, n: nat) {
    n < |order| && order[n] < |subs| && StampOf(r, subs[order[n]], (n + 1) % WIDS)
  }

  /** A queued job is as it was submitted. */
  predicate Unsent(queue: seq<Job>, subs: seq<seq<byte>>) {
    forall q :: 0 <= q < |queue| ==> queue[q].id < |subs| && queue[q].buf == subs[queue[q].id]
  }
}
