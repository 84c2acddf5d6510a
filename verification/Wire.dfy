/** The job wire format shared by the daemon and the transputers (sam-job-tt/jobwire.h). */
module Wire {
  datatype Option<T> = None | Some(value: T)

  type byte = b: int | 0 <= b < 256 witness 0

  type u16 = x: int | 0 <= x < 0x1_0000

  type u32 = x: int | 0 <= x < 0x1_0000_0000

  const JOB_HDR := 13
  const H_LEVEL := 4
  const H_LEN := 5
  const H_ADLER := 9
  const REP_HDR := 15        // client protocol
  const LREP_HDR := 16       // link protocol: one more byte, the node
  const R_NODE := 15
  const NODE_ANY := 255
  const NODES := 3
  const JOB_MAX := 400 * 1024
  const JOB_BIG := 2560 * 1024

  const ST_OK := 0
  const ST_BADREQ := 1
  const ST_TOOBIG := 2
  const ST_DOWN := 3
  const ST_NONODE := 5

  /** g4: four bytes from offset o, little-endian. */
  function G4(b: seq<byte>, o: nat): int
    requires o + 4 <= |b|
  {
    var b0: int, b1: int, b2: int, b3: int := b[o], b[o + 1], b[o + 2], b[o + 3];
    b0 + 256 * b1 + 65536 * b2 + 16777216 * b3
  }

  /** p4: the low 32 bits of v. */
  function P4(v: nat): seq<byte> {
    [v % 256, v / 256 % 256, v / 256 / 256 % 256, v / 256 / 256 / 256 % 256]
  }

  lemma G4P4(v: nat, pre: seq<byte>, post: seq<byte>)
    requires v < 0x1_0000_0000
    ensures G4(pre + P4(v) + post, |pre|) == v
  {
    var s, w, x, y := pre + P4(v) + post, v / 256, v / 256 / 256, v / 256 / 256 / 256;
    assert s[|pre|] == v % 256 && s[|pre| + 1] == w % 256 && s[|pre| + 2] == x % 256 && s[|pre| + 3] == y % 256;
    assert v == 256 * w + v % 256 && w == 256 * x + w % 256 && x == 256 * y + x % 256 && y < 256;
  }

  /** A request as the daemon puts it on the link. */
  datatype Req = Req(hdr: seq<byte>, payload: seq<byte>)

  function Frame(r: Req): seq<byte> { r.hdr + r.payload }

  /** What ttjobd sends: a named node, and a payload the node can take. */
  predicate ValidReq(r: Req) {
    && |r.hdr| == JOB_HDR
    && 0 <= r.hdr[3] < NODES
    && G4(r.hdr, H_LEN) == |r.payload|
    && |r.payload| <= (if r.hdr[3] == 0 then JOB_BIG else JOB_MAX)
  }

  function Node(r: Req): int
    requires ValidReq(r)
  {
    r.hdr[3]
  }

  /** A link reply to the request with header hdr, made by the given node, with at most cap bytes of output. */
  predicate IsReply(rep: seq<byte>, hdr: seq<byte>, node: int, cap: int) {
    && |rep| >= LREP_HDR && |hdr| == JOB_HDR
    && rep[0] == hdr[0] && rep[1] == hdr[1]
    && rep[R_NODE] == node
    && G4(rep, 3) == |rep| - LREP_HDR <= cap
  }
}
