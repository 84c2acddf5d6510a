/** The checksum of both ends of the link (sam-yum-tt/src/t4adler.c) and the reply that carries it
    (sam-job-tt/llvm/jobnode.c). */
module Adler {
  import opened Wire
  import opened Bytes

  const BASE := 65521
  const BLOCK := 5552

  // ---- section 2.2 of RFC 1950 -------------------------------------------------------------------

  /** s1: one more than the sum of the bytes. */
  function S1(s: seq<byte>): (r: int)
    ensures 0 <= r < BASE
  {
    if s == [] then 1 else (S1(s[..|s| - 1]) + s[|s| - 1]) % BASE
  }

  /** s2: the sum of all s1 so far. */
  function S2(s: seq<byte>): (r: int)
    ensures 0 <= r < BASE
  {
    if s == [] then 0 else (S2(s[..|s| - 1]) + S1(s)) % BASE
  }

  function Adler32(s: seq<byte>): (r: u32) { S2(s) * 65536 + S1(s) }

  /** The sum of the bytes, and the sum in which the last byte counts once, the one before it twice, and so on. */
  function Plain(s: seq<byte>): nat { if s == [] then 0 else s[0] + Plain(s[1..]) }

  function Weighed(s: seq<byte>): nat { if s == [] then 0 else |s| * s[0] + Weighed(s[1..]) }

  lemma {:induction false} PlainSnoc(s: seq<byte>, x: byte)
    ensures Plain(s + [x]) == Plain(s) + x && Weighed(s + [x]) == Weighed(s) + Plain(s) + x
  {
    var t := s + [x];
    if s == [] {
      assert t[1..] == [] && Plain([]) == 0 && Weighed([]) == 0;
    } else {
      assert t[1..] == s[1..] + [x];
      PlainSnoc(s[1..], x);
      assert (|s| + 1) * s[0] == |s| * s[0] + s[0];
    }
  }

  /** Both halves of the checksum in closed form. */
  lemma {:induction false} AdlerMeans(s: seq<byte>)
    ensures Adler32(s) % 65536 == (1 + Plain(s)) % 65521
    ensures Adler32(s) / 65536 == (|s| + Weighed(s)) % 65521
  {
    hide S1, S2, Plain, Weighed;
    SumsMean(s);
    Halves(S2(s), S1(s));
  }

  lemma Halves(a: nat, b: nat)
    requires b < 65536
    ensures (a * 65536 + b) % 65536 == b && (a * 65536 + b) / 65536 == a
  {
  }

  lemma {:induction false} SumsMean(s: seq<byte>)
    ensures S1(s) == (1 + Plain(s)) % 65521 && S2(s) == (|s| + Weighed(s)) % 65521
  {
    if s != [] {
      hide Plain, Weighed, S1, S2;
      var t, x := s[..|s| - 1], s[|s| - 1];
      SumsMean(t);
      PlainSnoc(t, x);
      assert s == t + [x];
      SumsLast(s);
      OneMore(1 + Plain(t), |t| + Weighed(t), x);
    }
  }

  lemma SumsLast(s: seq<byte>)
    requires s != []
    ensures var t, x := s[..|s| - 1], s[|s| - 1]; S1(s) == (S1(t) + x) % BASE && S2(s) == (S2(t) + S1(s)) % BASE
  {
  }

  lemma OneMore(a: nat, b: nat, x: nat)
    ensures (a % BASE + x) % BASE == (a + x) % BASE
    ensures (b % BASE + (a + x) % BASE) % BASE == (b + a + x) % BASE
  {
    ModAdd(a, x);
    ModAdd(b, (a + x) % BASE);
    ModAdd(a + x, b);
  }

  // ---- sums whose modulo is put off --------------------------------------------------------------

  /** a + b modulo BASE does not care when a is reduced. */
  lemma ModAdd(a: int, b: int)
    ensures (a % BASE + b) % BASE == (a + b) % BASE
  {
    var q := a / BASE;
    assert a == BASE * q + a % BASE;
    ModMul(a % BASE + b, q);
  }

  lemma ModMul(x: int, q: int)
    ensures (x + BASE * q) % BASE == x % BASE
  {
    var y := x / BASE;
    assert x + BASE * q == BASE * (y + q) + x % BASE;
  }

  /** Twice the largest b that k bytes can reach from reduced sums. */
  function Worst2(k: int): int { 2 * 65520 * (k + 1) + 255 * (k * (k + 1)) }

  /** a and b after k bytes of a block that started reduced, i bytes into s. */
  predicate Deferred(s: seq<byte>, i: nat, k: nat, a: int, b: int) {
    && i <= |s| && k <= BLOCK
    && a % BASE == S1(s[..i]) && b % BASE == S2(s[..i])
    && 0 <= a <= 65520 + 255 * k
    && 0 <= b && 2 * b <= Worst2(k)
  }

  lemma WorstStep(k: int)
    ensures Worst2(k + 1) == Worst2(k) + 2 * (65520 + 255 * (k + 1))
  {
  }

  lemma MulUp(a: int, b: int, c: int)
    requires a <= b && 0 <= c
    ensures c * a <= c * b && a * c <= b * c
  {
  }

  lemma WorstFits(k: int)
    requires 0 <= k <= BLOCK
    ensures 0 <= Worst2(k) < 2 * 0x1_0000_0000
  {
    MulUp(k, BLOCK, k + 1);
    MulUp(k + 1, BLOCK + 1, BLOCK);
    assert Worst2(k) <= Worst2(BLOCK);
  }

  /** One byte of the unrolled loop; both accumulators stay within 32 bits. */
  method Add(s: seq<byte>, i: nat, ghost k: nat, a0: u32, b0: u32) returns (a: u32, b: u32)
    requires i < |s| && k < BLOCK && Deferred(s, i, k, a0, b0)
    ensures Deferred(s, i + 1, k + 1, a, b)
  {
    WorstStep(k);
    WorstFits(k + 1);
    a := a0 + s[i];
    b := b0 + a;
    var t := s[..i + 1];
    assert t[..|t| - 1] == s[..i];
    ModAdd(a0, s[i]);
    ModAdd(b0, a);
    ModAdd(a, b0 % BASE);
  }

  /** Half a turn of the unrolled loop. */
  method Add8(s: seq<byte>, i: nat, ghost k: nat, a0: u32, b0: u32) returns (a: u32, b: u32)
    requires i + 8 <= |s| && k + 8 <= BLOCK && Deferred(s, i, k, a0, b0)
    ensures Deferred(s, i + 8, k + 8, a, b)
  {
    hide Deferred;
    a, b := Add(s, i, k, a0, b0);
    a, b := Add(s, i + 1, k + 1, a, b);
    a, b := Add(s, i + 2, k + 2, a, b);
    a, b := Add(s, i + 3, k + 3, a, b);
    a, b := Add(s, i + 4, k + 4, a, b);
    a, b := Add(s, i + 5, k + 5, a, b);
    a, b := Add(s, i + 6, k + 6, a, b);
    a, b := Add(s, i + 7, k + 7, a, b);
  }

  /** t4_adler32: sixteen bytes a turn, one modulo per 5552 bytes, and the result is the byte-by-byte Adler-32. */
  method T4Adler32(s: seq<byte>) returns (r: u32)
    ensures r == Adler32(s)
  {
    hide S1, S2, Deferred;
    var a: u32, b: u32, i := 1, 0, 0;
    Begin(s);
    while i < |s|
      invariant i <= |s| && Deferred(s, i, 0, a, b)
    {
      var k := if |s| - i < BLOCK then |s| - i else BLOCK;
      ghost var start, end := i, i + k;
      while k >= 16
        invariant 0 <= k && start <= i && i + k == end <= |s| && end - start <= BLOCK
        invariant Deferred(s, i, i - start, a, b)
      {
        a, b := Add8(s, i, i - start, a, b);
        a, b := Add8(s, i + 8, i + 8 - start, a, b);
        i, k := i + 16, k - 16;
      }
      while k > 0
        invariant 0 <= k && start <= i && i + k == end <= |s| && end - start <= BLOCK
        invariant Deferred(s, i, i - start, a, b)
      {
        a, b := Add(s, i, i - start, a, b);
        i, k := i + 1, k - 1;
      }
      Reduce(s, i, i - start, a, b);
      a, b := a % BASE, b % BASE;
    }
    Done(s, a, b);
    r := b * 65536 + a;
  }

  lemma Begin(s: seq<byte>)
    ensures Deferred(s, 0, 0, 1, 0)
  {
  }

  lemma Reduce(s: seq<byte>, i: nat, k: nat, a: int, b: int)
    requires Deferred(s, i, k, a, b)
    ensures Deferred(s, i, 0, a % BASE, b % BASE)
  {
    hide S1, S2;
    ModAdd(a, 0);
    ModAdd(b, 0);
  }

  lemma Done(s: seq<byte>, a: int, b: int)
    requires Deferred(s, |s|, 0, a, b)
    ensures a == S1(s) && b == S2(s)
  {
    hide S1, S2;
    assert s[..|s|] == s;
  }

  // ---- why 5552 ----------------------------------------------------------------------------------

  /** The sums without any modulo. */
  function Raw(a: nat, b: nat, s: seq<byte>): (nat, nat)
    decreases |s|
  {
    if s == [] then (a, b) else Raw(a + s[0], b + a + s[0], s[1..])
  }

  lemma {:induction false} RawOfOnes(a: nat, b: nat, n: nat)
    ensures Raw(a, b, seq(n, _ => 255 as byte)).0 == a + 255 * n
    ensures 2 * Raw(a, b, seq(n, _ => 255 as byte)).1 == 2 * b + 2 * a * n + 255 * (n * (n + 1))
    decreases n
  {
    if n > 0 {
      var s := seq(n, _ => 255 as byte);
      assert s[1..] == seq(n - 1, _ => 255 as byte);
      RawOfOnes(a + 255, b + a + 255, n - 1);
      assert 2 * (a + 255) * (n - 1) == 2 * a * n - 2 * a + 510 * (n - 1);
      assert (n - 1) * n == n * (n + 1) - 2 * n;
    }
  }

  /** No longer block would do: 5553 bytes of 255 after reduced sums of 65520 pass 32 bits. */
  lemma BlockIsLargest()
    ensures Raw(65520, 65520, seq(BLOCK + 1, _ => 255 as byte)).1 >= 0x1_0000_0000
  {
    RawOfOnes(65520, 65520, BLOCK + 1);
  }

  // ---- the reply of one job ----------------------------------------------------------------------

  /** job_exec as its caller sees it: the bytes it put after the reply header, or a negated status. */
  datatype Outcome = Output(bytes: seq<byte>) | Failed(status: nat)

  /** The four bytes at o are v. */
  predicate Field(s: seq<byte>, o: nat, v: nat) {
    o + 4 <= |s| && s[o..o + 4] == P4(v)
  }

  /** p4, in place. */
  method Put4(b: array<byte>, o: nat, v: nat)
    requires o + 4 <= b.Length
    modifies b
    ensures Field(b[..], o, v)
    ensures forall i :: 0 <= i < b.Length && !(o <= i < o + 4) ==> b[i] == old(b[i])
  {
    b[o], b[o + 1], b[o + 2], b[o + 3] := v % 256, v / 256 % 256, v / 256 / 256 % 256, v / 256 / 256 / 256 % 256;
  }

  lemma FieldReads(s: seq<byte>, o: nat, v: nat)
    requires Field(s, o, v) && v < 0x1_0000_0000
    ensures G4(s, o) == v
  {
    G4P4(v, s[..o], s[o + 4..]);
    assert s == s[..o] + P4(v) + s[o + 4..];
  }

  lemma FieldKept(s: seq<byte>, t: seq<byte>, o: nat, v: nat)
    requires Field(s, o, v) && o + 4 <= |t| && forall i :: o <= i < o + 4 ==> t[i] == s[i]
    ensures Field(t, o, v)
  {
  }

  /** job_exec: what the kernel of an operation at a level makes of a payload. */
  type Exec = (byte, byte, seq<byte>) -> Outcome

  /** None is a payload that was too big to read. */
  function Status(hdr: seq<byte>, payload: Option<seq<byte>>, exec: Exec): byte
    requires |hdr| == JOB_HDR
  {
    if payload.None? then ST_TOOBIG
    else if Adler32(payload.value) != G4(hdr, H_ADLER) then ST_BADREQ
    else
      var k := exec(hdr[2], hdr[H_LEVEL], payload.value);
      if k.Failed? then k.status % 256 else ST_OK
  }

  /** The kernel is asked only when the payload arrived as it was sent. */
  predicate Runs(hdr: seq<byte>, payload: Option<seq<byte>>)
    requires |hdr| == JOB_HDR
  {
    payload.Some? && Adler32(payload.value) == G4(hdr, H_ADLER)
  }

  function Answered(hdr: seq<byte>, payload: Option<seq<byte>>, exec: Exec): seq<byte>
    requires |hdr| == JOB_HDR
  {
    if !Runs(hdr, payload) then []
    else
      var k := exec(hdr[2], hdr[H_LEVEL], payload.value);
      if k.Output? then k.bytes else []
  }

  /** job_reply: a well-formed reply to that header, from this node, whose length field, checksums and body agree.  A
      job whose payload did not arrive as it was sent is not run: nothing is written behind the reply header. */
  method JobReply(hdr: seq<byte>, payload: Option<seq<byte>>, rep: array<byte>, node: nat, cap: nat, exec: Exec)
    returns (len: nat)
    requires |hdr| == JOB_HDR && node < 256 && rep.Length >= LREP_HDR + cap && cap < 0x1_0000_0000
    requires Runs(hdr, payload) ==> |Answered(hdr, payload, exec)| <= cap
    modifies rep
    ensures len <= rep.Length && IsReply(rep[..len], hdr, node, cap)
    ensures rep[2] == Status(hdr, payload, exec) && rep[LREP_HDR..len] == Answered(hdr, payload, exec)
    ensures G4(rep[..len], 7) == if payload.Some? then Adler32(payload.value) else 0
    ensures G4(rep[..len], 11) == Adler32(rep[LREP_HDR..len])
    ensures !Runs(hdr, payload) ==> rep[LREP_HDR..] == old(rep[LREP_HDR..])
  {
    hide Adler32, P4, G4, Field, Over;
    var areq: u32, olen, st: byte := 0, 0, ST_OK;
    if payload.None? {
      st := ST_TOOBIG;
    } else {
      areq := T4Adler32(payload.value);
      if areq != G4(hdr, H_ADLER) {
        st := ST_BADREQ;
      } else {
        match exec(hdr[2], hdr[H_LEVEL], payload.value) {
          case Output(bytes) =>
            OverLaid(rep[..], LREP_HDR, bytes);
            Put(rep, LREP_HDR, bytes);
            olen := |bytes|;
          case Failed(status) => st := status % 256;
        }
      }
    }
    ghost var body := rep[LREP_HDR..LREP_HDR + olen];
    assert body == Answered(hdr, payload, exec);
    var sum: u32 := 1;
    if olen > 0 {
      sum := T4Adler32(rep[LREP_HDR..LREP_HDR + olen]);
    }
    EmptySum();
    WriteHeader(rep, hdr, st, olen, areq, sum, node);
    len := LREP_HDR + olen;
    assert rep[LREP_HDR..len] == body;
    HeaderReads(rep[..], len, olen, areq, sum);
  }

  method WriteHeader(rep: array<byte>, hdr: seq<byte>, st: byte, olen: nat, areq: nat, sum: nat, node: byte)
    requires |hdr| == JOB_HDR && rep.Length >= LREP_HDR
    modifies rep
    ensures rep[0] == hdr[0] && rep[1] == hdr[1] && rep[2] == st && rep[R_NODE] == node
    ensures Field(rep[..], 3, olen) && Field(rep[..], 7, areq) && Field(rep[..], 11, sum)
    ensures forall i :: LREP_HDR <= i < rep.Length ==> rep[i] == old(rep[i])
  {
    hide Field;
    rep[0], rep[1], rep[2], rep[R_NODE] := hdr[0], hdr[1], st, node;
    Put4(rep, 3, olen);
    ghost var s := rep[..];
    Put4(rep, 7, areq);
    FieldKept(s, rep[..], 3, olen);
    ghost var t := rep[..];
    Put4(rep, 11, sum);
    FieldKept(t, rep[..], 3, olen);
    FieldKept(t, rep[..], 7, areq);
  }

  lemma HeaderReads(s: seq<byte>, len: nat, olen: u32, areq: u32, sum: u32)
    requires LREP_HDR <= len <= |s| && Field(s, 3, olen) && Field(s, 7, areq) && Field(s, 11, sum)
    ensures G4(s[..len], 3) == olen && G4(s[..len], 7) == areq && G4(s[..len], 11) == sum
  {
    hide Field, G4;
    FieldKept(s, s[..len], 3, olen);
    FieldKept(s, s[..len], 7, areq);
    FieldKept(s, s[..len], 11, sum);
    FieldReads(s[..len], 3, olen);
    FieldReads(s[..len], 7, areq);
    FieldReads(s[..len], 11, sum);
  }

  lemma EmptySum()
    ensures Adler32([]) == 1
  {
  }
}
