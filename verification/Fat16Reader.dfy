/** Part._read: the tree in an Atari FAT16 partition (scripts/atari_fat16.py). */
module Fat16Reader {
  import opened Wire
  import opened Fat16Names
  import opened Fat16Layout

  // ---- the parser --------------------------------------------------------------------------------

  datatype Kind = End | Skip | Bad | Label | Item

  /** What _read makes of the next (up to) 32 bytes of a directory; Bad is an IndexError or struct.error. */
  function Classify(e: seq<byte>): Kind
    requires e != []
  {
    if e[0] == 0 then End
    else if e[0] == 0xE5 then Skip
    else if |e| < 12 then Bad
    else if e[11] == 0x0F || e[..2] == [DOT, SPACE] || e[..2] == [DOT, DOT] then Skip
    else if IsLabelAttr(e[11]) then Label
    else if |e| < ENTRY then Bad
    else Item
  }

  /** The clusters of the chain from c on; None when the FAT ends before the chain does. */
  function Chain(fat: seq<byte>, c: int, seen: nat): Option<seq<int>>
    decreases 65536 - seen
  {
    if !(2 <= c < 0xFFF0 && seen < 65536) then Some([])
    else if 2 * c + 2 > |fat| then None
    else
      var r := Chain(fat, U16(fat, 2 * c), seen + 1);
      if r.Some? then Some([c] + r.value) else None
  }

  /** A Python slice: clipped to the sequence. */
  function Slice(s: seq<byte>, a: nat, b: nat): seq<byte>
    requires a <= b
  {
    s[Min(a, |s|)..Min(b, |s|)]
  }

  function Cluster(g: Geo, img: seq<byte>, c: int): seq<byte>
    requires c >= 2
  {
    OffAdd(g, c, 1);
    MulMono(0, c - 2, g.csize);
    Slice(img, Off(g, c), Off(g, c + 1))
  }

  function Body(g: Geo, img: seq<byte>, cs: seq<int>): seq<byte>
    requires forall i :: 0 <= i < |cs| ==> cs[i] >= 2
  {
    if cs == [] then [] else Cluster(g, img, cs[0]) + Body(g, img, cs[1..])
  }

  lemma {:induction false} ChainData(fat: seq<byte>, c: int, seen: nat)
    requires Chain(fat, c, seen).Some?
    ensures forall i :: 0 <= i < |Chain(fat, c, seen).value| ==> Chain(fat, c, seen).value[i] >= 2
    decreases 65536 - seen
  {
    if 2 <= c < 0xFFF0 && seen < 65536 {
      ChainData(fat, U16(fat, 2 * c), seen + 1);
    }
  }

  /** The bytes an entry points at. */
  function EntryBody(g: Geo, img: seq<byte>, fat: seq<byte>, e: seq<byte>): Option<seq<byte>>
    requires |e| == ENTRY
  {
    var cs := Chain(fat, U16(e, 26), 0);
    if cs.None? then None
    else
      ChainData(fat, U16(e, 26), 0);
      Some(Body(g, img, cs.value))
  }

  function Head(raw: seq<byte>): seq<byte> { raw[..Min(ENTRY, |raw|)] }
  function Tail(raw: seq<byte>): seq<byte> { raw[Min(ENTRY, |raw|)..] }

  function Prepend<T>(a: seq<T>, b: Option<seq<T>>): Option<seq<T>> {
    if b.Some? then Some(a + b.value) else None
  }

  /** _read, on a directory's bytes.  depth is how much deeper Python lets the recursion go. */
  function ReadDir(g: Geo, img: seq<byte>, fat: seq<byte>, raw: seq<byte>, depth: nat): Option<seq<Node>>
    decreases depth, |raw| + 1
  {
    if raw == [] then Some([])
    else
      match Classify(Head(raw))
      case End => Some([])
      case Bad => None
      case Skip => ReadDir(g, img, fat, Tail(raw), depth)
      case Label => ReadDir(g, img, fat, Tail(raw), depth)
      case Item =>
        var n := ReadNode(g, img, fat, Head(raw), depth);
        if n.None? then None else Prepend([n.value], ReadDir(g, img, fat, Tail(raw), depth))
  }

  function ReadNode(g: Geo, img: seq<byte>, fat: seq<byte>, e: seq<byte>, depth: nat): Option<Node>
    requires |e| == ENTRY
    decreases depth, 0
  {
    var body := EntryBody(g, img, fat, e);
    if body.None? then None
    else if IsDirAttr(e[11]) then
      if depth == 0 then None
      else
        var kids := ReadDir(g, img, fat, body.value, depth - 1);
        if kids.None? then None else Some(Node(Name83(e[..11]), e[11], e, [], kids.value, 0))
    else Some(Node(Name83(e[..11]), e[11], e, Slice(body.value, 0, G4(e, 28)), [], 0))
  }

  /** The label entries that _read collects from the root directory. */
  function Labels(raw: seq<byte>): seq<seq<byte>>
    decreases |raw|
  {
    if raw == [] then []
    else
      match Classify(Head(raw))
      case End => []
      case Bad => []
      case Skip => Labels(Tail(raw))
      case Item => Labels(Tail(raw))
      case Label => [Head(raw)] + Labels(Tail(raw))
  }

  datatype Part = Part(labels: seq<seq<byte>>, kids: seq<Node>)

  function FatOf(img: seq<byte>, g: Geo): seq<byte> { Slice(img, g.fatOff, g.fatOff + g.fatSz) }

  function RootOf(img: seq<byte>, g: Geo): seq<byte> { Slice(img, g.rootOff, g.rootOff + g.rootSz) }

  /** Part(blob): None where the source raises. */
  function Parse(img: seq<byte>, stamp: seq<byte>, depth: nat): Option<Part>
    requires |img| >= 36
  {
    var g := Geometry(img, stamp);
    var kids := ReadDir(g, img, FatOf(img, g), RootOf(img, g), depth);
    if g.csize == 0 || kids.None? then None else Some(Part(Labels(RootOf(img, g)), kids.value))
  }

  // ---- the loops of the source -------------------------------------------------------------------

  method ChainLoop(fat: seq<byte>, first: int) returns (r: Option<seq<int>>)
    ensures r == Chain(fat, first, 0)
  {
    var c, seen, out := first, 0, [];
    PrependNil(Chain(fat, first, 0));
    while 2 <= c < 0xFFF0 && seen < 65536
      invariant seen <= 65536
      invariant Chain(fat, first, 0) == Prepend(out, Chain(fat, c, seen))
      decreases 65536 - seen
    {
      if 2 * c + 2 > |fat| {
        return None;
      }
      ghost var next := Chain(fat, U16(fat, 2 * c), seen + 1);
      assert next.Some? ==> out + ([c] + next.value) == (out + [c]) + next.value;
      out := out + [c];
      c, seen := U16(fat, 2 * c), seen + 1;
    }
    assert out + [] == out;
    return Some(out);
  }

  method ReadLoop(g: Geo, img: seq<byte>, fat: seq<byte>, raw: seq<byte>, top: bool, depth: nat)
    returns (r: Option<seq<Node>>, labels: seq<seq<byte>>)
    ensures r == ReadDir(g, img, fat, raw, depth)
    ensures r.Some? ==> labels == if top then Labels(raw) else []
    decreases depth, |raw| + 1
  {
    hide ReadNode, Chain, EntryBody, Body;
    var rest, out := raw, [];
    labels := [];
    PrependNil(ReadDir(g, img, fat, raw, depth));
    while rest != []
      invariant |rest| <= |raw|
      invariant ReadDir(g, img, fat, raw, depth) == Prepend(out, ReadDir(g, img, fat, rest, depth))
      invariant top ==> Labels(raw) == labels + Labels(rest)
      invariant !top ==> labels == []
      decreases |rest|
    {
      var e := Head(rest);
      if e[0] == 0 {
        break;
      }
      if e[0] != 0xE5 {
        if |e| < 12 {
          return None, labels;
        }
        if e[11] != 0x0F && e[..2] != [46, 32] && e[..2] != [46, 46] {
          if e[11] / 8 % 2 == 1 {
            if top {
              assert labels + ([e] + Labels(Tail(rest))) == (labels + [e]) + Labels(Tail(rest));
              labels := labels + [e];
            }
          } else {
            if |e| < ENTRY {
              return None, labels;
            }
            var n := ReadItem(g, img, fat, e, depth);
            if n.None? {
              return None, labels;
            }
            PrependTwice(out, n.value, ReadDir(g, img, fat, Tail(rest), depth));
            out := out + [n.value];
          }
        }
      }
      rest := Tail(rest);
    }
    assert out + [] == out && labels + [] == labels;
    r := Some(out);
  }

  lemma PrependNil<T>(b: Option<seq<T>>)
    ensures Prepend([], b) == b
  {
    assert b.Some? ==> [] + b.value == b.value;
  }

  lemma PrependTwice<T>(a: seq<T>, x: T, b: Option<seq<T>>)
    ensures Prepend(a, Prepend([x], b)) == Prepend(a + [x], b)
  {
    if b.Some? {
      assert a + ([x] + b.value) == (a + [x]) + b.value;
    }
  }

  method ReadItem(g: Geo, img: seq<byte>, fat: seq<byte>, e: seq<byte>, depth: nat) returns (r: Option<Node>)
    requires |e| == ENTRY
    ensures r == ReadNode(g, img, fat, e, depth)
    decreases depth, 0
  {
    var cs := ChainLoop(fat, U16(e, 26));
    if cs.None? {
      return None;
    }
    ChainData(fat, U16(e, 26), 0);
    var body := Body(g, img, cs.value);
    if IsDirAttr(e[11]) {
      if depth == 0 {
        return None;
      }
      var kids, _ := ReadLoop(g, img, fat, body, false, depth - 1);
      return if kids.None? then None else Some(Node(Name83(e[..11]), e[11], e, [], kids.value, 0));
    }
    return Some(Node(Name83(e[..11]), e[11], e, Slice(body, 0, G4(e, 28)), [], 0));
  }
}
