/** The daemon's scheduling rule (sam-job-tt/ttjobd.c, est_ms and pick). */
module Scheduler {
  import opened Wire

  const OP_CAPS := 'K'
  const NEVER := 0x7fffffff / 1000        // "never a TRAM", in ms; finite
  const INT32_MAX := 0x7fffffff
  const QMAX := 32
  const CLOCKS := 200                     // CLOCKS_PER_SEC on FreeMiNT

  /** A queued job as the scheduler sees it. */
  datatype Item = Item(op: char, want: int, n: int)

  /** Ops whose kernels are in the T425's image only, and payloads only the T425 takes. */
  predicate OnlyT425(op: char, n: int) {
    op == 'J' || op == 'j' || op == 'p' || op == 'q' || op == 'c' || op == OP_CAPS || n > JOB_MAX
  }

  /** Expected time on the T425 in microseconds. */
  function EstUs(op: char, n: nat): nat {
    match op
    case 'b' => n * 63
    case 'z' => n * 50
    case 'g' => n * 50
    case 'r' => n * 50
    case 'i' => n * 5
    case 'X' => 2800000
    case 'V' => 6500000 + n * 14
    case 'S' => n * 14
    case 'C' => n * 5
    case '5' => n * 56
    case '6' => n * 56
    case 'd' => n * 45
    case 'p' => n * 150
    case 'q' => 55000000 + n * 300
    case 'c' => 300000000
    case 'J' => n * 30
    case 'j' => n * 300
    case _ => n / 2
  }

  predicate Compresses(op: char) {
    op == 'b' || op == 'z' || op == 'g' || op == 'r' || op == 'i' || op == '5' || op == '6' || op == 'd' || op == 'p'
    || op == 'q' || op == 'J' || op == 'j'
  }

  function EstMs(op: char, n: nat, tram: bool): (ms: nat)
    ensures tram && OnlyT425(op, n) ==> ms == NEVER
  {
    if tram && OnlyT425(op, n) then NEVER
    else if tram then (if Compresses(op) then EstUs(op, n) / 10 * 28 else EstUs(op, n) * 2) / 1000
    else EstUs(op, n) / 1000
  }

  /** A TRAM is taken to need 2.8 times the T425's time for compression, and twice its time for everything else that it
      has a kernel for, to the millisecond and the ten microseconds that the division drops. */
  lemma TramFactor(op: char, n: nat)
    requires !OnlyT425(op, n)
    ensures var here, tram := EstMs(op, n, false), EstMs(op, n, true);
            if Compresses(op) then 28 * here - 38 <= 10 * tram < 28 * (here + 1)
            else 2 * here <= tram < 2 * (here + 1)
  {
    hide EstUs;
    assert EstUs(op, n) % 10 == EstUs(op, n) - EstUs(op, n) / 10 * 10;
  }

  /** The times measured on the machine that the rates were taken from. */
  lemma MeasuredTimes()
    ensures EstMs('b', 262144, false) / 100 == 165 && EstMs('b', 262144, true) / 1000 == 46   // bzip2 -1: 16.5 s, 46 s
    ensures EstMs('X', 0, false) == 2800 && EstMs('X', 0, true) == 5600                      // X25519: 2.8 s, 5.6 s
    ensures EstMs('q', 90000, false) == 82000                                                // ppmquant, 200x150: 82 s
    ensures (3 * EstMs('c', 0, false) + 5000) / 1000 == 905                                  // bc: 905 s to the watchdog
  {
  }

  /** No estimate, and no deadline made from one, leaves the 32-bit long: every intermediate value of est_ms and of
      send_jobs' deadline products is in range for any payload a node is given. */
  lemma EstimatesFit(op: char, n: nat, tram: bool)
    requires n <= JOB_BIG
    ensures EstUs(op, n) <= INT32_MAX
    ensures tram && !OnlyT425(op, n) ==>
              (if Compresses(op) then EstUs(op, n) / 10 * 28 else EstUs(op, n) * 2) <= INT32_MAX
    ensures EstMs(op, n, tram) <= NEVER
    ensures EstMs(op, n, false) * CLOCKS <= INT32_MAX
    ensures (3 * EstMs(op, n, tram) + 5000) * CLOCKS <= INT32_MAX
  {
    assert EstUs(op, n) <= 841432000;
    if tram && !OnlyT425(op, n) {
      assert n <= JOB_MAX;
      assert Compresses(op) ==> EstUs(op, n) <= 25804800;
      assert !Compresses(op) ==> EstUs(op, n) <= 12234400;
    }
  }

  // ---- pick ------------------------------------------------------------------------------------

  /** The T425 backlog as the walk reaches queue place q. */
  function Backlog(queue: seq<Item>, b0: nat, q: nat): nat
    requires q <= |queue| && forall i :: 0 <= i < |queue| ==> queue[i].n >= 0
  {
    if q == 0 then b0
    else Backlog(queue, b0, q - 1)
         + (if queue[q - 1].want == NODE_ANY then EstMs(queue[q - 1].op, queue[q - 1].n, false) else 0)
  }

  predicate Idle(busy: seq<bool>, absent: seq<bool>, k: int)
    requires |busy| == |absent| == NODES
  {
    0 <= k < NODES && !busy[k] && !absent[k]
  }

  /** A NODE_ANY job is worth a TRAM: the TRAM would finish it before the T425 could. */
  predicate TramWins(job: Item, backlog: nat)
    requires job.n >= 0
  {
    EstMs(job.op, job.n, true) < backlog + EstMs(job.op, job.n, false)
  }

  /** Whether the job at place q may start now, and where. */
  predicate MayStart(queue: seq<Item>, busy: seq<bool>, absent: seq<bool>, b0: nat, q: nat, node: int)
    requires |busy| == |absent| == NODES && forall i :: 0 <= i < |queue| ==> queue[i].n >= 0
  {
    && q < |queue|
    && var job, b := queue[q], Backlog(queue, b0, q);
       if job.want != NODE_ANY then node == job.want && Idle(busy, absent, node)
       else if !busy[0] && b == 0 then node == 0
       else node != 0 && Idle(busy, absent, node) && TramWins(job, b)
            && forall k :: 1 <= k < node ==> !Idle(busy, absent, k)
  }

  ghost predicate StartsNowhere(queue: seq<Item>, busy: seq<bool>, absent: seq<bool>, b0: nat, q: nat)
    requires |busy| == |absent| == NODES && forall i :: 0 <= i < |queue| ==> queue[i].n >= 0
  {
    forall node :: !MayStart(queue, busy, absent, b0, q, node)
  }

  /** The first place from q on whose job may start, and its node; -1 when there is none. */
  function Chosen(queue: seq<Item>, busy: seq<bool>, absent: seq<bool>, b0: nat, q: nat): (r: (int, int))
    requires |busy| == |absent| == NODES && q <= |queue| && forall i :: 0 <= i < |queue| ==> queue[i].n >= 0
    ensures r.0 == -1 || (q <= r.0 < |queue| && MayStart(queue, busy, absent, b0, r.0, r.1) && 0 <= r.1 < NODES && !busy[r.1])
    decreases |queue| - q
  {
    if q == |queue| then (-1, 0)
    else if MayStart(queue, busy, absent, b0, q, 0) then (q, 0)
    else if MayStart(queue, busy, absent, b0, q, 1) then (q, 1)
    else if MayStart(queue, busy, absent, b0, q, 2) then (q, 2)
    else Chosen(queue, busy, absent, b0, q + 1)
  }

  lemma {:induction false} ChosenIs(queue: seq<Item>, busy: seq<bool>, absent: seq<bool>, b0: nat, k: nat, q: int, node: int)
    requires |busy| == |absent| == NODES && forall i :: 0 <= i < |queue| ==> queue[i].n >= 0
    requires -1 <= q < |queue| && k <= (if q < 0 then |queue| else q)
    requires q >= 0 ==> MayStart(queue, busy, absent, b0, q, node)
    requires forall i :: k <= i < (if q < 0 then |queue| else q) ==> StartsNowhere(queue, busy, absent, b0, i)
    ensures if q < 0 then Chosen(queue, busy, absent, b0, k).0 == -1 else Chosen(queue, busy, absent, b0, k) == (q, node)
    decreases |queue| - k
  {
    hide EstMs, Backlog;
    if k < (if q < 0 then |queue| else q) {
      assert StartsNowhere(queue, busy, absent, b0, k);
      ChosenIs(queue, busy, absent, b0, k + 1, q, node);
    }
  }

  /** pick: the first job in the queue that may start, and its node; -1 when none may. */
  method Pick(queue: seq<Item>, busy: seq<bool>, absent: seq<bool>, b0: nat) returns (q: int, node: int)
    requires |busy| == |absent| == NODES && forall i :: 0 <= i < |queue| ==> queue[i].n >= 0
    requires !busy[0] ==> b0 == 0
    ensures -1 <= q < |queue|
    ensures q >= 0 ==> MayStart(queue, busy, absent, b0, q, node)
    ensures forall i :: 0 <= i < (if q < 0 then |queue| else q) ==> StartsNowhere(queue, busy, absent, b0, i)
    ensures if q < 0 then Chosen(queue, busy, absent, b0, 0).0 == -1 else Chosen(queue, busy, absent, b0, 0) == (q, node)
  {
    q, node := Walk(queue, busy, absent, b0);
    ChosenIs(queue, busy, absent, b0, 0, q, node);
  }

  method Walk(queue: seq<Item>, busy: seq<bool>, absent: seq<bool>, b0: nat) returns (q: int, node: int)
    requires |busy| == |absent| == NODES && forall i :: 0 <= i < |queue| ==> queue[i].n >= 0
    requires !busy[0] ==> b0 == 0
    ensures -1 <= q < |queue|
    ensures q >= 0 ==> MayStart(queue, busy, absent, b0, q, node)
    ensures forall i :: 0 <= i < (if q < 0 then |queue| else q) ==> StartsNowhere(queue, busy, absent, b0, i)
  {
    var backlog := b0;
    q, node := 0, 0;
    while q < |queue|
      invariant 0 <= q <= |queue| && backlog == Backlog(queue, b0, q)
      invariant forall i :: 0 <= i < q ==> StartsNowhere(queue, busy, absent, b0, i)
    {
      var job := queue[q];
      if job.want != NODE_ANY {
        if 0 <= job.want < NODES && !absent[job.want] && !busy[job.want] {
          node := job.want;
          return;
        }
      } else {
        if !busy[0] && backlog == 0 {
          node := 0;
          return;
        }
        var t425 := backlog + EstMs(job.op, job.n, false);
        var k := 1;
        while k < NODES
          invariant 1 <= k <= NODES
          invariant forall j :: 1 <= j < k ==> !(Idle(busy, absent, j) && TramWins(job, backlog))
        {
          if !absent[k] && !busy[k] && EstMs(job.op, job.n, true) < t425 {
            node := k;
            return;
          }
          k := k + 1;
        }
        backlog := t425;
      }
      q := q + 1;
    }
    q := -1;
  }

  // ---- what the rule promises ------------------------------------------------------------------

  /** May this job run on node 0? */
  predicate For0(job: Item) { job.want == NODE_ANY || job.want == 0 }

  lemma {:induction false} NoBacklogBefore(queue: seq<Item>, q: nat)
    requires q <= |queue| && (forall i :: 0 <= i < |queue| ==> queue[i].n >= 0)
    requires forall i :: 0 <= i < q ==> queue[i].want != NODE_ANY
    ensures Backlog(queue, 0, q) == 0
  {
    if q > 0 {
      NoBacklogBefore(queue, q - 1);
    }
  }

  /** An idle T425 gets the earliest job that may run on it, whatever is queued around it: that job may start there,
      and no later job is sent to node 0 before it. */
  lemma T425GetsEarliest(queue: seq<Item>, busy: seq<bool>, absent: seq<bool>, q: nat)
    requires |busy| == |absent| == NODES && (forall i :: 0 <= i < |queue| ==> queue[i].n >= 0)
    requires !busy[0] && !absent[0] && q < |queue| && For0(queue[q])
    requires forall i :: 0 <= i < q ==> !For0(queue[i])
    ensures MayStart(queue, busy, absent, 0, q, 0)
    ensures forall i :: 0 <= i < q ==> !MayStart(queue, busy, absent, 0, i, 0)
  {
    NoBacklogBefore(queue, q);
  }

  /** So pick never leaves node 0 idle while a job that may run there waits. */
  lemma NeverIdleOn0(queue: seq<Item>, busy: seq<bool>, absent: seq<bool>)
    requires |busy| == |absent| == NODES && (forall i :: 0 <= i < |queue| ==> queue[i].n >= 0)
    requires !absent[0] && forall i :: 0 <= i < |queue| ==> StartsNowhere(queue, busy, absent, 0, i)
    ensures busy[0] || forall i :: 0 <= i < |queue| ==> !For0(queue[i])
  {
    if !busy[0] {
      for q := 0 to |queue|
        invariant forall i :: 0 <= i < q ==> !For0(queue[i])
      {
        assert StartsNowhere(queue, busy, absent, 0, q);
        if For0(queue[q]) {
          T425GetsEarliest(queue, busy, absent, q);
        }
      }
    }
  }

  /** The T425 time of the NODE_ANY jobs in a list. */
  function T425Work(jobs: seq<Item>): nat
    requires forall i :: 0 <= i < |jobs| ==> jobs[i].n >= 0
  {
    if jobs == [] then 0
    else (if jobs[0].want == NODE_ANY then EstMs(jobs[0].op, jobs[0].n, false) else 0) + T425Work(jobs[1..])
  }

  lemma {:induction false} WorkSnoc(jobs: seq<Item>, j: Item)
    requires (forall i :: 0 <= i < |jobs| ==> jobs[i].n >= 0) && j.n >= 0
    ensures T425Work(jobs + [j]) == T425Work(jobs) + (if j.want == NODE_ANY then EstMs(j.op, j.n, false) else 0)
  {
    hide EstMs;
    if jobs == [] {
      assert jobs + [j] == [j] && [j][1..] == [];
      assert T425Work([]) == 0;
    } else {
      WorkSnoc(jobs[1..], j);
      assert (jobs + [j])[1..] == jobs[1..] + [j];
    }
  }

  /** The running backlog is the work ahead. */
  lemma {:induction false} BacklogIsWork(queue: seq<Item>, b0: nat, q: nat)
    requires q <= |queue| && forall i :: 0 <= i < |queue| ==> queue[i].n >= 0
    ensures Backlog(queue, b0, q) == b0 + T425Work(queue[..q])
    decreases q
  {
    hide EstMs;
    if q > 0 {
      BacklogIsWork(queue, b0, q - 1);
      WorkSnoc(queue[..q - 1], queue[q - 1]);
      assert queue[..q] == queue[..q - 1] + [queue[q - 1]];
    }
  }

  /** pick sends a NODE_ANY job to a TRAM exactly when it is the first job that may start, a TRAM is idle, the T425 is taken
      or has work ahead of the job, and the TRAM's estimate beats all the T425's work ahead, what is left of its running
      job included, plus the job's own time there. */
  method PickTram(queue: seq<Item>, busy: seq<bool>, absent: seq<bool>, b0: nat) returns (q: int, node: int)
    requires |busy| == |absent| == NODES && (forall i :: 0 <= i < |queue| ==> queue[i].n >= 0)
    requires !busy[0] ==> b0 == 0
    ensures -1 <= q < |queue|
    ensures q >= 0 && queue[q].want == NODE_ANY ==>
              var ahead := b0 + T425Work(queue[..q]);
              node != 0 <==> busy[0] || ahead > 0
    ensures q >= 0 && queue[q].want == NODE_ANY && node != 0 ==>
              Idle(busy, absent, node)
              && EstMs(queue[q].op, queue[q].n, true) < b0 + T425Work(queue[..q]) + EstMs(queue[q].op, queue[q].n, false)
    ensures forall i :: 0 <= i < (if q < 0 then |queue| else q) && queue[i].want == NODE_ANY ==>
              && (busy[0] || b0 + T425Work(queue[..i]) > 0)
              && ((!Idle(busy, absent, 1) && !Idle(busy, absent, 2))
                  || EstMs(queue[i].op, queue[i].n, true) >= b0 + T425Work(queue[..i]) + EstMs(queue[i].op, queue[i].n, false))
  {
    hide EstMs;
    q, node := Pick(queue, busy, absent, b0);
    if q >= 0 {
      BacklogIsWork(queue, b0, q);
    }
    forall i | 0 <= i < (if q < 0 then |queue| else q) && queue[i].want == NODE_ANY
      ensures busy[0] || b0 + T425Work(queue[..i]) > 0
      ensures (!Idle(busy, absent, 1) && !Idle(busy, absent, 2))
              || EstMs(queue[i].op, queue[i].n, true) >= b0 + T425Work(queue[..i]) + EstMs(queue[i].op, queue[i].n, false)
    {
      BacklogIsWork(queue, b0, i);
      var k := if Idle(busy, absent, 1) then 1 else 2;
      assert StartsNowhere(queue, busy, absent, b0, i);
      assert !MayStart(queue, busy, absent, b0, i, 0) && !MayStart(queue, busy, absent, b0, i, k);
    }
  }

  /** A T425-only NODE_ANY job may start on a TRAM exactly when an idle TRAM exists, the T425 is taken or has work ahead of
      it, and that work plus its own time exceed 2,147,483 ms: the "never" of est_ms is finite. */
  lemma T425OnlyOnTram(queue: seq<Item>, busy: seq<bool>, absent: seq<bool>, b0: nat, q: nat)
    requires |busy| == |absent| == NODES && (forall i :: 0 <= i < |queue| ==> queue[i].n >= 0)
    requires q < |queue| && queue[q].want == NODE_ANY && OnlyT425(queue[q].op, queue[q].n)
    ensures var ahead := b0 + T425Work(queue[..q]);
            (exists node :: node != 0 && MayStart(queue, busy, absent, b0, q, node)) <==>
            (busy[0] || ahead > 0) && (Idle(busy, absent, 1) || Idle(busy, absent, 2))
            && ahead + EstMs(queue[q].op, queue[q].n, false) > NEVER
  {
    BacklogIsWork(queue, b0, q);
    hide EstUs, T425Work;
    var first := if Idle(busy, absent, 1) then 1 else 2;
    if (busy[0] || Backlog(queue, b0, q) > 0) && Idle(busy, absent, first)
       && Backlog(queue, b0, q) + EstMs(queue[q].op, queue[q].n, false) > NEVER {
      assert MayStart(queue, busy, absent, b0, q, first);
    }
  }

  /** ... and it does happen: behind a running job, three 2560 KB ppmquant jobs are 2,524,296 ms of T425 work, so the
      third of them is sent to TRAM 1, whose image has no ppmquant and whose buffer is too small. */
  lemma PpmquantReachesTram()
    ensures var j := Item('q', NODE_ANY, JOB_BIG);
            MayStart([j, j, j], [true, false, false], [false, false, false], 0, 2, 1)
  {
  }
}
