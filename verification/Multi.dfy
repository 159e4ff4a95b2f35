/**
 The Multi unpacker (src/session/connection.rs): a batch of length-prefixed frames,
 optionally gzip-compressed, whose members may be batches themselves.
 */
module Multi {
  import opened Wrappers
  import opened LittleEndian
  import opened Codec

  const EMSG_MULTI: nat := 1
  const MAX_MULTI_UNZIPPED: nat := 8 * 1024 * 1024
  const MAX_MULTI_DEPTH: nat := 4

  datatype MultiBody = MultiBody(sizeUnzipped: Option<U32>, messageBody: Option<Bytes>)

  /** What a gzip stream produces: its output, and whether it then ended cleanly. */
  datatype Inflated = Inflated(output: Bytes, clean: bool)

  /** The decoders this code calls into, left abstract. */
  datatype Wire = Wire(
    decodeHeader: Bytes -> Option<Header>,
    decodeMulti: Bytes -> Option<MultiBody>,
    inflate: Bytes -> Inflated)

  type Unpacked = Result<seq<SteamMessage>, CodecError>

  /** Inflation reads at most one byte past the cap, so a later stream error is never seen. */
  function Gunzip(w: Wire, data: Bytes): (r: Result<Bytes, CodecError>)
    ensures r.Ok? ==> |r.value| <= MAX_MULTI_UNZIPPED
  {
    var inflated := w.inflate(data);
    if |inflated.output| > MAX_MULTI_UNZIPPED then Err(InflatedPastCap)
    else if !inflated.clean then Err(BadGzip)
    else Ok(inflated.output)
  }

  /** The bytes of the embedded frames. A zero or absent size means uncompressed. */
  function Payload(w: Wire, multi: MultiBody): Result<Bytes, CodecError> {
    var raw := if multi.messageBody.Some? then multi.messageBody.value else [];
    var size := if multi.sizeUnzipped.Some? then multi.sizeUnzipped.value else 0;
    if size == 0 then Ok(raw)
    else if size > MAX_MULTI_UNZIPPED then Err(SizeOverCap)
    else Gunzip(w, raw)
  }

  /** Levels still allowed below `depth`. Inflation can grow the input, so this comes first. */
  function Headroom(depth: nat): nat {
    if depth > MAX_MULTI_DEPTH then 0 else MAX_MULTI_DEPTH + 1 - depth
  }

  function Unpack(w: Wire, body: Bytes, depth: nat): Unpacked
    decreases Headroom(depth), 1
  {
    if depth > MAX_MULTI_DEPTH then Err(TooDeep)
    else
      match w.decodeMulti(body)
      case None => Err(BadMulti)
      case Some(multi) =>
        match Payload(w, multi)
        case Err(e) => Err(e)
        case Ok(payload) => Split(w, payload, depth)
  }

  /** Messages found so far followed by those still to come. */
  function Prepend(done: seq<SteamMessage>, rest: Unpacked): Unpacked {
    match rest
    case Err(e) => Err(e)
    case Ok(more) => Ok(done + more)
  }

  /** One embedded frame. */
  function Member(w: Wire, frame: Bytes, depth: nat): Unpacked
    requires depth <= MAX_MULTI_DEPTH
    decreases Headroom(depth), 0, 0
  {
    match TryDecode(w.decodeHeader, frame)
    case Err(e) => Err(e)
    case Ok(None) => Ok([])
    case Ok(Some(sub)) =>
      if sub.emsg == EMSG_MULTI then Unpack(w, sub.body, depth + 1) else Ok([sub])
  }

  function Split(w: Wire, cur: Bytes, depth: nat): Unpacked
    requires depth <= MAX_MULTI_DEPTH
    decreases Headroom(depth), 0, 1 + |cur|
  {
    if |cur| < 4 then Ok([])
    else
      var len := FromLe32(cur[..4]);
      var rest := cur[4..];
      if |rest| < len then Err(Truncated)
      else
        match Member(w, rest[..len], depth)
        case Err(e) => Err(e)
        case Ok(found) => Prepend(found, Split(w, rest[len..], depth))
  }

  /** The source's loop over `cur`, growing `out`, recursing on nested batches. */
  method DecodeMulti(w: Wire, body: Bytes, depth: nat) returns (r: Unpacked)
    ensures r == Unpack(w, body, depth)
    decreases Headroom(depth)
  {
    if depth > MAX_MULTI_DEPTH {
      return Err(TooDeep);
    }
    var decoded := w.decodeMulti(body);
    if decoded.None? {
      return Err(BadMulti);
    }
    var payload := Payload(w, decoded.value);
    if payload.Err? {
      return Err(payload.error);
    }
    var out: seq<SteamMessage> := [];
    var cur := payload.value;
    PrependNothing(Split(w, cur, depth));
    while |cur| >= 4
      invariant Unpack(w, body, depth) == Prepend(out, Split(w, cur, depth))
      decreases |cur|
    {
      var len := FromLe32(cur[..4]);
      ghost var before := cur;
      cur := cur[4..];
      if |cur| < len {
        return Err(Truncated);
      }
      var sub := TryDecode(w.decodeHeader, cur[..len]);
      match sub {
        case Err(e) =>
          return Err(e);
        case Ok(Some(msg)) =>
          if msg.emsg == EMSG_MULTI {
            var nested := DecodeMulti(w, msg.body, depth + 1);
            if nested.Err? {
              return Err(nested.error);
            }
            PrependTwice(out, nested.value, Split(w, cur[len..], depth));
            out := out + nested.value;
          } else {
            PrependTwice(out, [msg], Split(w, cur[len..], depth));
            out := out + [msg];
          }
        case Ok(None) =>
          PrependTwice(out, [], Split(w, cur[len..], depth));
          assert out + [] == out;
      }
      cur := cur[len..];
    }
    assert out + [] == out;
    return Ok(out);
  }

  lemma PrependNothing(r: Unpacked)
    ensures Prepend([], r) == r
  {
    if r.Ok? {
      assert [] + r.value == r.value;
    }
  }

  lemma PrependTwice(a: seq<SteamMessage>, b: seq<SteamMessage>, r: Unpacked)
    ensures Prepend(a, Prepend(b, r)) == Prepend(a + b, r)
  {
    if r.Ok? {
      assert a + (b + r.value) == (a + b) + r.value;
    }
  }

  // ------------------------------------------------------------------
  // What comes out is never a batch
  // ------------------------------------------------------------------

  ghost predicate Flat(ms: seq<SteamMessage>) {
    forall i :: 0 <= i < |ms| ==> ms[i].emsg != EMSG_MULTI
  }

  /** Whatever the bytes, no batch survives among the unpacked messages. */
  lemma {:induction false} UnpackIsFlat(w: Wire, body: Bytes, depth: nat)
    ensures Unpack(w, body, depth).Ok? ==> Flat(Unpack(w, body, depth).value)
    decreases Headroom(depth), 1
  {
    if depth <= MAX_MULTI_DEPTH && w.decodeMulti(body).Some? {
      var payload := Payload(w, w.decodeMulti(body).value);
      if payload.Ok? {
        SplitIsFlat(w, payload.value, depth);
      }
    }
  }

  lemma {:induction false} SplitIsFlat(w: Wire, cur: Bytes, depth: nat)
    requires depth <= MAX_MULTI_DEPTH
    ensures Split(w, cur, depth).Ok? ==> Flat(Split(w, cur, depth).value)
    decreases Headroom(depth), 0, |cur|
  {
    if |cur| >= 4 {
      var len := FromLe32(cur[..4]);
      var rest := cur[4..];
      if len <= |rest| {
        SplitIsFlat(w, rest[len..], depth);
        var sub := TryDecode(w.decodeHeader, rest[..len]);
        if sub.Ok? && sub.value.Some? && sub.value.value.emsg == EMSG_MULTI {
          UnpackIsFlat(w, sub.value.value.body, depth + 1);
        }
      }
    }
  }

  // ------------------------------------------------------------------
  // Printing trees of messages
  // ------------------------------------------------------------------

  /** How a batch is put on the wire: no size, a zero size, or compressed with some size. */
  datatype Packing = NoSize | ZeroSize | Gzip(declared: nat)

  /** A message tree. `trailing` bytes after the last member are too few for a length. */
  datatype Node =
    | Leaf(emsg: U32, header: Header, body: Bytes)
    | Legacy(frame: Bytes)
    | Batch(header: Header, packing: Packing, children: seq<Node>, trailing: Bytes)

  datatype Printer = Printer(
    encodeHeader: Header -> Bytes,
    encodeMulti: MultiBody -> Bytes,
    deflate: Bytes -> Bytes)

  /** The law asked of the foreign encoders: each decoder undoes its encoder. */
  ghost predicate Inverse(w: Wire, p: Printer) {
    && (forall h :: w.decodeHeader(p.encodeHeader(h)) == Some(h))
    && (forall m :: w.decodeMulti(p.encodeMulti(m)) == Some(m))
    && (forall b :: w.inflate(p.deflate(b)) == Inflated(b, true))
  }

  function Pack(p: Printer, packing: Packing, payload: Bytes): MultiBody {
    match packing
    case NoSize => MultiBody(None, Some(payload))
    case ZeroSize => MultiBody(Some(0), Some(payload))
    case Gzip(declared) => MultiBody(Some(declared % U32_LIMIT), Some(p.deflate(payload)))
  }

  function PrintNode(p: Printer, node: Node): Bytes
    decreases node, 1
  {
    match node
    case Leaf(emsg, header, body) => Frame(emsg, p.encodeHeader(header), body)
    case Legacy(frame) => frame
    case Batch(header, packing, children, trailing) =>
      Frame(EMSG_MULTI, p.encodeHeader(header), PrintBatch(p, packing, children, trailing))
  }

  function PrintBatch(p: Printer, packing: Packing, children: seq<Node>, trailing: Bytes): Bytes
    decreases children, 1
  {
    p.encodeMulti(Pack(p, packing, PrintAll(p, children) + trailing))
  }

  function PrintAll(p: Printer, nodes: seq<Node>): Bytes
    decreases nodes, 0
  {
    if nodes == [] then []
    else
      var frame := PrintNode(p, nodes[0]);
      Le32(|frame| % U32_LIMIT) + frame + PrintAll(p, nodes[1..])
  }

  ghost predicate Printable(p: Printer, node: Node)
    decreases node, 1
  {
    && |PrintNode(p, node)| < U32_LIMIT
    && match node
       case Leaf(emsg, header, body) =>
         emsg < U31_LIMIT && emsg != EMSG_MULTI && |p.encodeHeader(header)| < U32_LIMIT
       case Legacy(frame) => |frame| >= PREFIX_LEN && FromLe32(frame[..4]) < U31_LIMIT
       case Batch(header, packing, children, trailing) =>
         && |p.encodeHeader(header)| < U32_LIMIT
         && PrintableBatch(p, packing, children, trailing)
  }

  ghost predicate PrintableBatch(p: Printer, packing: Packing, children: seq<Node>, trailing: Bytes)
    decreases children, 1
  {
    && AllPrintable(p, children)
    && |trailing| < 4
    && (packing.Gzip? ==>
          && 1 <= packing.declared <= MAX_MULTI_UNZIPPED
          && |PrintAll(p, children) + trailing| <= MAX_MULTI_UNZIPPED)
  }

  ghost predicate AllPrintable(p: Printer, nodes: seq<Node>)
    decreases nodes, 0
  {
    nodes != [] ==> Printable(p, nodes[0]) && AllPrintable(p, nodes[1..])
  }

  /** The protobuf messages of a forest, left to right. */
  function Leaves(nodes: seq<Node>): seq<SteamMessage> {
    if nodes == [] then []
    else
      (match nodes[0]
       case Leaf(emsg, header, body) => [SteamMessage(emsg, header, body)]
       case Legacy(_) => []
       case Batch(_, _, children, _) => Leaves(children))
      + Leaves(nodes[1..])
  }

  /** How many levels of batches the forest holds. */
  function Height(nodes: seq<Node>): nat {
    if nodes == [] then 0
    else
      var here := if nodes[0].Batch? then 1 + Height(nodes[0].children) else 0;
      var rest := Height(nodes[1..]);
      if here > rest then here else rest
  }

  // ------------------------------------------------------------------
  // Unpacking undoes printing, up to the depth bound and not beyond
  // ------------------------------------------------------------------

  /** What unpacking a printed forest at `depth` must give. */
  function Expected(nodes: seq<Node>, depth: nat): Unpacked {
    if depth + Height(nodes) <= MAX_MULTI_DEPTH then Ok(Leaves(nodes)) else Err(TooDeep)
  }

  /**
   A printed batch unpacks to its messages in order when it nests no deeper than the
   bound, and is rejected as a whole when it nests deeper.
   */
  lemma {:induction false} BatchRoundTrip(
    w: Wire, p: Printer, packing: Packing, children: seq<Node>, trailing: Bytes, depth: nat)
    requires Inverse(w, p) && PrintableBatch(p, packing, children, trailing)
    ensures Unpack(w, PrintBatch(p, packing, children, trailing), depth) == Expected(children, depth)
    decreases children, 1
  {
    if depth <= MAX_MULTI_DEPTH {
      var payload := PrintAll(p, children) + trailing;
      assert w.decodeMulti(p.encodeMulti(Pack(p, packing, payload))) == Some(Pack(p, packing, payload));
      assert w.inflate(p.deflate(payload)) == Inflated(payload, true);
      assert Payload(w, Pack(p, packing, payload)) == Ok(payload);
      ForestRoundTrip(w, p, children, trailing, depth);
    }
  }

  lemma {:induction false} ForestRoundTrip(w: Wire, p: Printer, nodes: seq<Node>, trailing: Bytes, depth: nat)
    requires Inverse(w, p) && AllPrintable(p, nodes) && |trailing| < 4
    requires depth <= MAX_MULTI_DEPTH
    ensures Split(w, PrintAll(p, nodes) + trailing, depth) == Expected(nodes, depth)
    decreases nodes, 0
  {
    if nodes == [] {
      assert PrintAll(p, nodes) + trailing == trailing;
    } else {
      ForestStep(w, p, nodes, trailing, depth);
      NodeRoundTrip(w, p, nodes[0], depth);
      ForestRoundTrip(w, p, nodes[1..], trailing, depth);
      ExpectedStep(nodes, depth);
    }
  }

  /** What one member contributes, followed by the rest. */
  function Join(first: Unpacked, rest: Unpacked): Unpacked {
    match first
    case Err(e) => Err(e)
    case Ok(found) => Prepend(found, rest)
  }

  lemma SplitStep(w: Wire, frame: Bytes, tail: Bytes, depth: nat)
    requires |frame| < U32_LIMIT && depth <= MAX_MULTI_DEPTH
    ensures Split(w, Le32(|frame|) + frame + tail, depth)
            == Join(Member(w, frame, depth), Split(w, tail, depth))
  {
    var cur := Le32(|frame|) + frame + tail;
    assert cur[..4] == Le32(|frame|);
    assert cur[4..] == frame + tail;
    assert cur[4..][..|frame|] == frame && cur[4..][|frame|..] == tail;
    ReadsBack(|frame|);
  }

  lemma TailJoins(length: Bytes, frame: Bytes, rest: Bytes, more: Bytes)
    ensures length + frame + rest + more == length + frame + (rest + more)
  {
  }

  lemma ShortLength(frame: Bytes)
    requires |frame| < U32_LIMIT
    ensures |frame| % U32_LIMIT == |frame|
  {
  }

  lemma PrintAllStep(p: Printer, nodes: seq<Node>, more: Bytes)
    requires nodes != [] && AllPrintable(p, nodes)
    ensures var frame := PrintNode(p, nodes[0]);
            |frame| < U32_LIMIT
            && PrintAll(p, nodes) + more == Le32(|frame|) + frame + (PrintAll(p, nodes[1..]) + more)
  {
    var frame := PrintNode(p, nodes[0]);
    ShortLength(frame);
    TailJoins(Le32(|frame|), frame, PrintAll(p, nodes[1..]), more);
  }

  /** A printed forest is split one node at a time, whatever follows it. */
  lemma ForestStep(w: Wire, p: Printer, nodes: seq<Node>, more: Bytes, depth: nat)
    requires nodes != [] && AllPrintable(p, nodes) && depth <= MAX_MULTI_DEPTH
    ensures Split(w, PrintAll(p, nodes) + more, depth)
            == Join(Member(w, PrintNode(p, nodes[0]), depth), Split(w, PrintAll(p, nodes[1..]) + more, depth))
  {
    PrintAllStep(p, nodes, more);
    SplitStep(w, PrintNode(p, nodes[0]), PrintAll(p, nodes[1..]) + more, depth);
  }

  /** What a single node contributes at `depth`. */
  function ExpectedNode(node: Node, depth: nat): Unpacked {
    match node
    case Leaf(emsg, header, body) => Ok([SteamMessage(emsg, header, body)])
    case Legacy(_) => Ok([])
    case Batch(_, _, children, _) => Expected(children, depth + 1)
  }

  lemma ExpectedStep(nodes: seq<Node>, depth: nat)
    requires nodes != [] && depth <= MAX_MULTI_DEPTH
    ensures Expected(nodes, depth) == Join(ExpectedNode(nodes[0], depth), Expected(nodes[1..], depth))
  {
  }

  lemma {:induction false} NodeRoundTrip(w: Wire, p: Printer, node: Node, depth: nat)
    requires Inverse(w, p) && Printable(p, node)
    requires depth <= MAX_MULTI_DEPTH
    ensures Member(w, PrintNode(p, node), depth) == ExpectedNode(node, depth)
    decreases node, 2
  {
    match node
    case Leaf(emsg, header, body) =>
      LeafRoundTrip(w, p, emsg, header, body, depth);
    case Legacy(frame) =>
      MemberOfLegacy(w, frame, depth);
    case Batch(header, packing, children, trailing) =>
      BatchRoundTrip(w, p, packing, children, trailing, depth + 1);
      NestedRoundTrip(w, p, header, packing, children, trailing, depth);
  }

  lemma MemberOfLegacy(w: Wire, frame: Bytes, depth: nat)
    requires |frame| >= PREFIX_LEN && FromLe32(frame[..4]) < U31_LIMIT && depth <= MAX_MULTI_DEPTH
    ensures Member(w, frame, depth) == Ok([])
  {
  }

  lemma MemberOfFrame(w: Wire, p: Printer, emsg: nat, header: Header, body: Bytes, depth: nat)
    requires Inverse(w, p) && emsg < U31_LIMIT && |p.encodeHeader(header)| < U32_LIMIT
    requires depth <= MAX_MULTI_DEPTH
    ensures Member(w, Frame(emsg, p.encodeHeader(header), body), depth)
            == if emsg == EMSG_MULTI then Unpack(w, body, depth + 1)
               else Ok([SteamMessage(emsg, header, body)])
  {
    PlainRoundTrip(emsg, p.encodeHeader(header), body);
    assert w.decodeHeader(p.encodeHeader(header)) == Some(header);
  }

  lemma LeafRoundTrip(w: Wire, p: Printer, emsg: U32, header: Header, body: Bytes, depth: nat)
    requires Inverse(w, p) && Printable(p, Leaf(emsg, header, body))
    requires depth <= MAX_MULTI_DEPTH
    ensures Member(w, PrintNode(p, Leaf(emsg, header, body)), depth) == Ok([SteamMessage(emsg, header, body)])
  {
    MemberOfFrame(w, p, emsg, header, body, depth);
  }

  lemma NestedRoundTrip(
    w: Wire, p: Printer, header: Header, packing: Packing, children: seq<Node>, trailing: Bytes, depth: nat)
    requires Inverse(w, p) && |p.encodeHeader(header)| < U32_LIMIT && depth <= MAX_MULTI_DEPTH
    requires Unpack(w, PrintBatch(p, packing, children, trailing), depth + 1) == Expected(children, depth + 1)
    ensures Member(w, PrintNode(p, Batch(header, packing, children, trailing)), depth) == Expected(children, depth + 1)
  {
    MemberOfFrame(w, p, EMSG_MULTI, header, PrintBatch(p, packing, children, trailing), depth);
  }

  // ------------------------------------------------------------------
  // One bad part rejects the whole batch
  // ------------------------------------------------------------------

  /** Neither a legacy frame nor a printed one whose header decodes. */
  ghost predicate Undecodable(w: Wire, frame: Bytes) {
    && !(|frame| >= 8 && frame[3] < 128)
    && forall msgType: U32, header, body ::
         |header| < U32_LIMIT && frame == Frame(msgType, header, body) ==> w.decodeHeader(header).None?
  }

  lemma UndecodableFails(w: Wire, frame: Bytes)
    requires Undecodable(w, frame)
    ensures TryDecode(w.decodeHeader, frame).Err?
  {
    UnframeCases(frame);
    if Framed(frame) {
      var msgType: U32, header, body :| |header| < U32_LIMIT && frame == Frame(msgType, header, body);
      FrameRoundTrip(msgType, header, body);
    }
  }

  /** Bytes that cannot be members: cut short of their length, or a member that does not decode. */
  ghost predicate Spoiled(w: Wire, bad: Bytes) {
    || (|bad| >= 4 && |bad| - 4 < FromLe32(bad[..4]))
    || exists frame, more ::
         |frame| < U32_LIMIT && bad == Le32(|frame|) + frame + more && Undecodable(w, frame)
  }

  lemma SpoiledFails(w: Wire, bad: Bytes, depth: nat)
    requires Spoiled(w, bad) && depth <= MAX_MULTI_DEPTH
    ensures Split(w, bad, depth).Err?
  {
    if !(|bad| >= 4 && |bad| - 4 < FromLe32(bad[..4])) {
      var frame, more :| |frame| < U32_LIMIT && bad == Le32(|frame|) + frame + more && Undecodable(w, frame);
      UndecodableFails(w, frame);
      SplitStep(w, frame, more, depth);
    }
  }

  lemma {:induction false} SpoiledForest(w: Wire, p: Printer, nodes: seq<Node>, bad: Bytes, depth: nat)
    requires AllPrintable(p, nodes) && Spoiled(w, bad) && depth <= MAX_MULTI_DEPTH
    ensures Split(w, PrintAll(p, nodes) + bad, depth).Err?
    decreases |nodes|
  {
    if nodes == [] {
      assert PrintAll(p, nodes) + bad == bad;
      SpoiledFails(w, bad, depth);
    } else {
      ForestStep(w, p, nodes, bad, depth);
      SpoiledForest(w, p, nodes[1..], bad, depth);
    }
  }

  /** Whatever good members come first and however it is packed, a spoiled batch yields nothing. */
  lemma SpoiledBatchRejected(w: Wire, p: Printer, packing: Packing, nodes: seq<Node>, bad: Bytes, depth: nat)
    requires Inverse(w, p) && AllPrintable(p, nodes) && Spoiled(w, bad)
    requires packing.Gzip? ==> 0 < packing.declared < U32_LIMIT
    ensures Unpack(w, p.encodeMulti(Pack(p, packing, PrintAll(p, nodes) + bad)), depth).Err?
  {
    var payload := PrintAll(p, nodes) + bad;
    assert w.decodeMulti(p.encodeMulti(Pack(p, packing, payload))) == Some(Pack(p, packing, payload));
    if depth <= MAX_MULTI_DEPTH {
      SpoiledForest(w, p, nodes, bad, depth);
      if packing.Gzip? {
        assert w.inflate(p.deflate(payload)) == Inflated(payload, true);
      }
    }
  }

  /** So is a body that is no batch, and a compressed one that is over the cap or broken. */
  lemma BadPayloadRejected(w: Wire, body: Bytes, depth: nat)
    ensures w.decodeMulti(body).None? ==> Unpack(w, body, depth).Err?
    ensures w.decodeMulti(body).Some? && w.decodeMulti(body).value.sizeUnzipped.Some? ==>
              var size := w.decodeMulti(body).value.sizeUnzipped.value;
              var packed := w.decodeMulti(body).value.messageBody;
              var inflated := w.inflate(if packed.Some? then packed.value else []);
              size > 0 && (size > 8 * 1024 * 1024 || |inflated.output| > 8 * 1024 * 1024 || !inflated.clean) ==>
                Unpack(w, body, depth).Err?
  {
  }
}
