/** The wire ids of the job daemon run out of numbers: a run in which two jobs in flight share one
    (sam-job-tt/ttjobd.c, nextwid). */
module WireIds {
  import opened Wire
  import opened LinkParser
  import opened DaemonBooks
  import opened JobDaemon
  import Scheduler

  /** The 16 bytes with which a node answers a job without output. */
  function Bare(wid: nat): (f: seq<byte>)
    requires wid < WIDS
    ensures |f| == LREP_HDR && Whole(f) && Wid(f) == wid
  {
    [wid % 256, wid / 256, ST_OK] + P4(0) + P4(0) + P4(0) + [1]
  }

  /** A request without payload for one node. */
  predicate Small(hdr: seq<byte>, node: int) { |hdr| == JOB_HDR && G4(hdr, H_LEN) == 0 && hdr[3] == node }

  /** The daemon is idle but for the jobs js, and client i is there. */
  ghost predicate Calm(t: Tables, i: nat, js: seq<Job>) {
    && t.up && t.leased == -1 && t.queue == [] && t.inflight == js && !t.absent[0] && !t.absent[1]
    && i < MAXCL && t.cl[i] >= 0
  }

  lemma NodeIdle(t: Tables, h: History, k: nat)
    requires Sound(t, h) && k < NODES && forall m :: 0 <= m < |t.inflight| ==> t.inflight[m].node != k
    ensures !t.busy[k]
  {
    hide Clients, Wids, Ids, LogIds, Traced;
  }

  /** pick takes the only queued job when the node it asks for is idle. */
  method PickOnly(j: Job, busy: seq<bool>, absent: seq<bool>, backlog: nat, node: nat) returns (q: nat, k: int)
    requires |busy| == |absent| == NODES && node < 2 && !busy[node] && !absent[node] && (!busy[0] ==> backlog == 0)
    requires j.buf[3] == node
    ensures q == 0 && k == node
  {
    hide Scheduler.EstMs, Scheduler.Backlog;
    var items := Items([j]);
    var p;
    p, k := Scheduler.Pick(items, busy, absent, backlog);
    assert Scheduler.MayStart(items, busy, absent, backlog, 0, node);
    assert !Scheduler.StartsNowhere(items, busy, absent, backlog, 0);
    q := p;
  }

  /** Memory suffices and no link write fails. */
  ghost predicate Kind(w: World) { forall n :: !w.lack(n) && !w.cut(n) }

  /** Client i submits a small job, which is queued. */
  method Ask(d: Daemon, i: nat, hdr: seq<byte>, node: nat)
    requires d.Valid() && Calm(d.t, i, d.t.inflight) && Kind(d.w) && Small(hdr, node)
    requires Count(d.t.inflight, d.t.cl[i]) <= 1
    modifies d, d.rx
    ensures d.Valid() && unchanged(d.rx) && Asked(old(d.t), d.t, i, node)
  {
    hide Sound, Received, G4, Count;
    assert Count([], d.t.cl[i]) == 0 by { CountZero([], d.t.cl[i]); }
    var taken := d.Admit(i, hdr, [], true);
  }

  /** The one queued job is client i's, for that node. */
  predicate Asked(t: Tables, u: Tables, i: nat, node: int) {
    && |u.queue| == 1 && i < MAXCL && u == t.(queue := u.queue, admitted := t.admitted + 1)
    && u.queue[0].fd == t.cl[i] && u.queue[0].id == t.admitted && u.queue[0].buf[3] == node
  }

  /** What pick's sending it makes of the tables. */
  lemma AskedIsSent(t: Tables, h: History, u: Tables, i: nat, node: nat)
    requires Calm(t, i, t.inflight) && Asked(t, u, i, node) && Sound(t, h) && node < NODES
    ensures var v, n := Launched(u, 0, node), |t.inflight|;
      && |v.inflight| == n + 1 && v.inflight[..n] == t.inflight && Calm(v, i, v.inflight) && v.admitted == t.admitted + 1
      && var j := v.inflight[n];
         j.fd == v.cl[i] && j.id == t.admitted && j.node == node && j.serial == v.sends == t.sends + 1 && j.wid == j.serial % WIDS
  {
    hide Sound, Scheduler.EstMs, Stamp;
  }

  /** Client i submits a small job, and pick sends it to its node. */
  method Submit(d: Daemon, i: nat, hdr: seq<byte>, node: nat)
    requires d.Valid() && Calm(d.t, i, d.t.inflight) && Kind(d.w) && node < 2 && Small(hdr, node)
    requires |d.t.inflight| <= 1 && forall m :: 0 <= m < |d.t.inflight| ==> d.t.inflight[m].node != node
    requires Count(d.t.inflight, d.t.cl[i]) <= 1
    modifies d, d.rx
    ensures d.Valid() && unchanged(d.rx)
    ensures
      var js := d.t.inflight;
      && |js| == |old(d.t.inflight)| + 1 && js[..|js| - 1] == old(d.t.inflight) && Calm(d.t, i, js)
      && var j := js[|js| - 1];
         && j.fd == d.t.cl[i] && j.id == old(d.t.admitted) < d.t.admitted && j.node == node
         && j.serial == d.t.sends == old(d.t.sends) + 1 && j.wid == j.serial % WIDS
  {
    hide Sound, Received, Count, Scheduler.Backlog, Launched, Small, SentHistory;
    NodeIdle(d.t, d.h, node);
    ghost var t0, h0 := d.t, d.h;
    Ask(d, i, hdr, node);
    AskedIsSent(t0, h0, d.t, i, node);
    var q, k := PickOnly(d.t.queue[0], d.t.busy, d.t.absent, Left(d.t), node);
    var ok := d.SendOne(q, k);
  }

  /** The job in flight as the second of two is answered. */
  method Answered(d: Daemon, i: nat)
    requires d.Valid() && |d.t.inflight| == 2 && Calm(d.t, i, d.t.inflight) && d.rx.Got == [] && Kind(d.w)
    requires d.t.inflight[0].wid != d.t.inflight[1].wid && d.t.inflight[1].fd == d.t.cl[i] && 0 <= d.t.inflight[1].wid < WIDS
    modifies d, d.rx, d.rx.rbuf
    ensures d.Valid() && Calm(d.t, i, old(d.t.inflight[..1])) && d.rx.Got == []
    ensures d.t.sends == old(d.t.sends) && d.t.admitted == old(d.t.admitted)
  {
    hide Sound, Received, G4;
    var f := Bare(d.t.inflight[1].wid);
    assert [] + f == f;
    assert FindWid(d.t.inflight, Wid(f)) == 1;
    ReplyTaken(d.t, f, 1, d.w);
    ghost var js := d.t.inflight;
    var bad := d.Take(f);
    assert SwapOut(js, 1) == js[..1];
  }

  /** What a reply to a job with a client makes of the tables. */
  lemma ReplyTaken(t: Tables, f: seq<byte>, k: nat, w: World)
    requires k < |t.inflight| && |f| >= LREP_HDR && FindWid(t.inflight, Wid(f)) == k && t.inflight[k].fd >= 0
    requires t.inflight[k].fd in t.cl && !w.lack(t.allocs)
    ensures var u := AfterReply(t, f, w);
      && u.inflight == SwapOut(t.inflight, k) && u.queue == t.queue && u.cl == t.cl && u.absent == t.absent
      && u.up == t.up && u.leased == t.leased && u.sends == t.sends && u.admitted == t.admitted
  {
    hide Drain, ClientFrame, Wid, NewCap;
  }

  /** While one job of a client stays in flight on the T425, the client has 65,535 small jobs answered by TRAM 1 and submits
      one more.  Two jobs in flight then carry the same wire id, and the reply to the second is matched with the first. */
  method Collide(d: Daemon, i: nat, hdr0: seq<byte>, hdr1: seq<byte>)
    requires d.Valid() && Calm(d.t, i, []) && d.rx.Got == [] && Kind(d.w) && Small(hdr0, 0) && Small(hdr1, 1)
    modifies d, d.rx, d.rx.rbuf
    ensures d.Valid()
    ensures
      var js := d.t.inflight;
      && |js| == 2 && js[0].id != js[1].id && js[1].serial - js[0].serial == WIDS && js[0].wid == js[1].wid
      && FindWid(js, js[1].wid) == 0
  {
    hide Sound, Received, G4;
    Submit(d, i, hdr0, 0);
    ghost var j := d.t.inflight[0];
    assert d.t.inflight == [j];
    var k := 0;
    while k < WIDS - 1
      invariant 0 <= k <= WIDS - 1 && d.Valid() && d.rx.Got == [] && Calm(d.t, i, [j]) && j.node == 0
      invariant j.serial + k == d.t.sends && j.wid == j.serial % WIDS && j.id < d.t.admitted
    {
      CountOne(j, d.t.cl[i]);
      Submit(d, i, hdr1, 1);
      Distinct(j.serial, k + 1);
      assert d.t.inflight[..1] == [j];
      Answered(d, i);
      k := k + 1;
    }
    CountOne(j, d.t.cl[i]);
    Submit(d, i, hdr1, 1);
    assert d.t.inflight[..1] == [j];
  }

  lemma Distinct(a: nat, k: nat)
    requires 0 < k < WIDS
    ensures a % WIDS != (a + k) % WIDS
  {
  }
}
