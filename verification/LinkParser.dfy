/** Splitting the link's byte stream into replies (the incremental parser inside ttjobd.c's poll_link). */
module LinkParser {
  import opened Wire

  /** The whole replies at the front of a stream, what is left, and whether what is left starts with a header
      whose length no reply can have. */
  datatype Parsed = Parsed(frames: seq<seq<byte>>, rest: seq<byte>, bad: bool)

  predicate BadLength(s: seq<byte>) { |s| >= LREP_HDR && G4(s, 3) > JOB_BIG }

  /** The length of the frame that s starts with; a header must be complete to know more than its own length. */
  function FrameLen(s: seq<byte>): nat { if |s| < LREP_HDR then LREP_HDR else LREP_HDR + G4(s, 3) }

  function Parse(s: seq<byte>): Parsed
    decreases |s|
  {
    if BadLength(s) then Parsed([], s, true)
    else if |s| < FrameLen(s) then Parsed([], s, false)
    else
      var p := Parse(s[FrameLen(s)..]);
      Parsed([s[..FrameLen(s)]] + p.frames, p.rest, p.bad)
  }

  /** What is left of a good stream is the beginning of a single frame. */
  lemma {:induction false} RestIsPartial(s: seq<byte>)
    ensures !Parse(s).bad ==> !BadLength(Parse(s).rest) && |Parse(s).rest| < FrameLen(Parse(s).rest)
    decreases |s|
  {
    if !BadLength(s) && |s| >= FrameLen(s) {
      RestIsPartial(s[FrameLen(s)..]);
    }
  }

  lemma HeadStable(s: seq<byte>, x: seq<byte>)
    requires !BadLength(s) && |s| >= FrameLen(s)
    ensures FrameLen(s + x) == FrameLen(s) && !BadLength(s + x)
    ensures (s + x)[..FrameLen(s)] == s[..FrameLen(s)] && (s + x)[FrameLen(s)..] == s[FrameLen(s)..] + x
  {
  }

  lemma ParseUnfold(s: seq<byte>)
    ensures !BadLength(s) && |s| >= FrameLen(s) ==>
              var p := Parse(s[FrameLen(s)..]);
              Parse(s) == Parsed([s[..FrameLen(s)]] + p.frames, p.rest, p.bad)
    ensures !BadLength(s) && |s| < FrameLen(s) ==> Parse(s) == Parsed([], s, false)
    ensures BadLength(s) ==> Parse(s).bad
  {
  }

  /** A stream that has gone bad stays so, and gives no more replies. */
  lemma {:induction false} BadStays(s: seq<byte>, x: seq<byte>)
    requires Parse(s).bad
    ensures Parse(s + x).bad && Parse(s + x).frames == Parse(s).frames
    decreases |s|
  {
    if !BadLength(s) {
      HeadStable(s, x);
      BadStays(s[FrameLen(s)..], x);
    }
  }

  /** Parsing may stop anywhere and go on later: only the unfinished frame has to be kept. */
  lemma {:induction false} ParseMore(s: seq<byte>, x: seq<byte>)
    requires !Parse(s).bad
    ensures var p, q := Parse(s), Parse(Parse(s).rest + x);
            Parse(s + x) == Parsed(p.frames + q.frames, q.rest, q.bad)
    decreases |s|
  {
    hide G4, BadLength, FrameLen, Parse;
    ParseUnfold(s);
    ParseUnfold(s + x);
    if |s| < FrameLen(s) {
      assert [] + Parse(s + x).frames == Parse(s + x).frames;
    } else {
      var n := FrameLen(s);
      HeadStable(s, x);
      ParseMore(s[n..], x);
      var p, q := Parse(s[n..]), Parse(Parse(s[n..]).rest + x);
      assert [s[..n]] + (p.frames + q.frames) == ([s[..n]] + p.frames) + q.frames;
    }
  }

  /** One read of the incremental parser: it never asks for more than the current frame still lacks, so a read
      either leaves the frame unfinished, or finishes exactly it, or completes a header that is bad. */
  lemma ReadStep(s: seq<byte>, x: seq<byte>)
    requires !Parse(s).bad && |Parse(s).rest| + |x| <= FrameLen(Parse(s).rest)
    ensures var rest, next := Parse(s).rest, Parse(s + x);
            if BadLength(rest + x) then next == Parsed(Parse(s).frames, rest + x, true)
            else if |rest + x| < FrameLen(rest + x) then next == Parsed(Parse(s).frames, rest + x, false)
            else next == Parsed(Parse(s).frames + [rest + x], [], false) && |rest + x| == FrameLen(rest + x)
  {
    RestIsPartial(s);
    ParseMore(s, x);
    var t := Parse(s).rest + x;
    if !BadLength(t) && |t| >= FrameLen(t) {
      assert |t| == FrameLen(t);
      assert t[..|t|] == t && t[|t|..] == [];
      assert Parse(t) == Parsed([t], [], false);
    }
  }

  // ---- the network's stream, read back ---------------------------------------------------------

  /** A frame is whole: its length field says how long it is. */
  predicate Whole(f: seq<byte>) { |f| >= LREP_HDR && G4(f, 3) == |f| - LREP_HDR <= JOB_BIG }

  function Joined(fs: seq<seq<byte>>): seq<byte> {
    if fs == [] then [] else Joined(fs[..|fs| - 1]) + fs[|fs| - 1]
  }

  /** Any sequence of whole frames, cut off anywhere inside one more, parses back into those frames. */
  lemma {:induction false} ParseJoined(fs: seq<seq<byte>>, f: seq<byte>, cut: nat)
    requires (forall i :: 0 <= i < |fs| ==> Whole(fs[i])) && Whole(f) && cut < |f|
    ensures Parse(Joined(fs) + f[..cut]) == Parsed(fs, f[..cut], false)
    decreases |fs|
  {
    hide G4, Parse;
    if fs == [] {
      PartialFrame(f, cut);
      assert Joined(fs) + f[..cut] == f[..cut];
    } else {
      var init, last := fs[..|fs| - 1], fs[|fs| - 1];
      ParseJoined(init, last, 0);
      assert Joined(init) + last[..0] == Joined(init);
      assert Joined(fs) + f[..cut] == Joined(init) + (last + f[..cut]);
      ParseMore(Joined(init), last + f[..cut]);
      WholeThenPartial(last, f, cut);
      assert [] + (last + f[..cut]) == last + f[..cut];
      assert init + [last] == fs;
    }
  }

  lemma PartialFrame(f: seq<byte>, cut: nat)
    requires Whole(f) && cut < |f|
    ensures Parse(f[..cut]) == Parsed([], f[..cut], false)
  {
  }

  lemma WholeThenPartial(g: seq<byte>, f: seq<byte>, cut: nat)
    requires Whole(g) && Whole(f) && cut < |f|
    ensures Parse(g + f[..cut]) == Parsed([g], f[..cut], false)
  {
    var t := g + f[..cut];
    assert G4(t, 3) == G4(g, 3);
    assert t[..|g|] == g && t[|g|..] == f[..cut];
    PartialFrame(f, cut);
    assert Parse(t[FrameLen(t)..]) == Parsed([], f[..cut], false);
  }

  // ---- a stream read behind a leftover ----------------------------------------------------------

  /** Whole replies fs and cut bytes of one more, read behind stale, come out as they are. */
  predicate InStep(stale: seq<byte>, fs: seq<seq<byte>>, f: seq<byte>, cut: nat) {
    (forall i :: 0 <= i < |fs| ==> Whole(fs[i])) && Whole(f) && cut < |f| ==>
      Parse(stale + (Joined(fs) + f[..cut])) == Parsed(fs, f[..cut], false)
  }

  /** An empty reply whose first byte is b. */
  function Empty(b: byte): (f: seq<byte>)
    ensures Whole(f) && f[0] == b
  {
    [b, 0, 0, 0, 0, 0, 0, 0, 0, 0, 0, 0, 0, 0, 0, 0]
  }

  /** A leftover puts one reply out of step. */
  lemma LeftoverMisreads(stale: seq<byte>)
    requires !BadLength(stale) && |stale| < FrameLen(stale) && stale != []
    ensures var f := Empty(if stale[0] == 0 then 1 else 0); !InStep(stale, [f], f, 0)
  {
    var f := Empty(if stale[0] == 0 then 1 else 0);
    assert Joined([f]) == f by { assert Joined([]) + f == f; }
    assert f + f[..0] == f;
    hide Parse, G4, BadLength, FrameLen;
    FirstStays(stale, f);
  }

  /** The first reply read begins with the first byte left over. */
  lemma FirstStays(stale: seq<byte>, x: seq<byte>)
    requires stale != []
    ensures var p := Parse(stale + x); p.frames == [] || p.frames[0] == [] || p.frames[0][0] == stale[0]
  {
  }

  /** After a re-boot that left a half-read reply in the buffer, every stream of replies is read in step if and only if
      nothing was left. */
  lemma StaleMisreads(stale: seq<byte>)
    requires !BadLength(stale) && |stale| < FrameLen(stale)
    ensures (forall fs, f, cut: nat :: InStep(stale, fs, f, cut)) <==> stale == []
  {
    hide Parse, G4, BadLength, FrameLen;
    if stale == [] {
      forall fs, f, cut: nat ensures InStep(stale, fs, f, cut) {
        if (forall i :: 0 <= i < |fs| ==> Whole(fs[i])) && Whole(f) && cut < |f| {
          ParseJoined(fs, f, cut);
          assert stale + (Joined(fs) + f[..cut]) == Joined(fs) + f[..cut];
        }
      }
    } else {
      LeftoverMisreads(stale);
    }
  }

  /** One byte left over: the empty reply with id 1 is not read as that. */
  lemma OneStaleByte()
    ensures var f := Empty(1); Parse([9] + f).frames != [f] && Parse([] + f).frames == [f]
  {
    var f := Empty(1);
    var t := [9] + f;
    assert [] + f == f && f[..16] == f && f[16..] == [];
    assert Parse([]) == Parsed([], [], false);
    assert Parse(f).frames == [f];
    if |t| >= FrameLen(t) && !BadLength(t) {
      assert Parse(t).frames[0][0] == 9;
    }
  }
}
