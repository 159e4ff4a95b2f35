/**
 What a reader makes of a socket, stated over what was sent: trees of messages printed into
 binary frames, control frames, and everything else.
 */
module PrintedStream {
  import opened Wrappers
  import opened LittleEndian
  import opened Codec
  import opened Multi
  import opened Connection

  // ------------------------------------------------------------------
  // One frame
  // ------------------------------------------------------------------

  /** A plain message arrives as itself. */
  lemma LeafArrives(w: Wire, p: Printer, emsg: U32, header: Header, body: Bytes)
    requires Inverse(w, p) && Printable(p, Leaf(emsg, header, body))
    ensures Classify(w, Binary(PrintNode(p, Leaf(emsg, header, body)))) == Decoded([SteamMessage(emsg, header, body)])
  {
    LeafDecodes(w, p, emsg, header, body);
  }

  lemma LeafDecodes(w: Wire, p: Printer, emsg: U32, header: Header, body: Bytes)
    requires Inverse(w, p) && emsg < U31_LIMIT && |p.encodeHeader(header)| < U32_LIMIT
    ensures TryDecode(w.decodeHeader, Frame(emsg, p.encodeHeader(header), body))
            == Ok(Some(SteamMessage(emsg, header, body)))
  {
    PlainRoundTrip(emsg, p.encodeHeader(header), body);
    assert w.decodeHeader(p.encodeHeader(header)) == Some(header);
  }

  /** A legacy frame is skipped. */
  lemma LegacyArrives(w: Wire, frame: Bytes)
    requires |frame| >= 8 && frame[3] < 128
    ensures Classify(w, Binary(frame)) == Decoded([])
  {
    UnframeCases(frame);
  }

  /** A batch arrives as its messages in order, or ends the connection when it nests too deep. */
  lemma BatchArrives(w: Wire, p: Printer, header: Header, packing: Packing, children: seq<Node>, trailing: Bytes)
    requires Inverse(w, p) && Printable(p, Batch(header, packing, children, trailing))
    ensures var what := Classify(w, Binary(PrintNode(p, Batch(header, packing, children, trailing))));
            if Height(children) <= 4 then what == Decoded(Leaves(children)) else Fatal(what)
  {
    LeafDecodes(w, p, EMSG_MULTI, header, PrintBatch(p, packing, children, trailing));
    BatchRoundTrip(w, p, packing, children, trailing, 0);
  }

  /** Bytes that do not decode end the connection, alone or in a batch. */
  lemma BadBytesArrive(w: Wire, p: Printer, header: Header, data: Bytes, body: Bytes)
    ensures Undecodable(w, data) ==> Fatal(Classify(w, Binary(data)))
    ensures Inverse(w, p) && |p.encodeHeader(header)| < U32_LIMIT && Unpack(w, body, 0).Err? ==>
              Fatal(Classify(w, Binary(Frame(1, p.encodeHeader(header), body))))
  {
    if Undecodable(w, data) {
      UndecodableFails(w, data);
    }
    if Inverse(w, p) && |p.encodeHeader(header)| < U32_LIMIT {
      LeafDecodes(w, p, EMSG_MULTI, header, body);
    }
  }

  /** Frames without messages: control frames pass, the others end the connection. */
  lemma OthersArrive(w: Wire)
    ensures !Fatal(Classify(w, Control)) && Yield(Classify(w, Control)) == []
    ensures Fatal(Classify(w, Close)) && Fatal(Classify(w, Text)) && Fatal(Classify(w, Gone))
  {
  }

  /** Every frame counts as a sign of life, whatever it holds; only a lost socket does not. */
  lemma EveryFrameTouches(w: Wire, event: WsEvent)
    ensures Touches(Classify(w, event)) <==> event != Gone
  {
  }

  // ------------------------------------------------------------------
  // A whole socket
  // ------------------------------------------------------------------

  /** What is sent: a tree of messages in one frame, or a control frame. */
  datatype Piece = Tree(node: Node) | Ping

  function EventOf(p: Printer, piece: Piece): WsEvent {
    match piece
    case Tree(node) => Binary(PrintNode(p, node))
    case Ping => Control
  }

  function MessagesIn(piece: Piece): seq<SteamMessage> {
    match piece
    case Tree(node) => Leaves([node])
    case Ping => []
  }

  /** All the messages from piece `pos` on, in the order they were sent. */
  function Said(pieces: seq<Piece>, pos: nat): seq<SteamMessage>
    requires pos <= |pieces|
    decreases |pieces| - pos
  {
    if pos == |pieces| then [] else MessagesIn(pieces[pos]) + Said(pieces, pos + 1)
  }

  ghost predicate Sendable(p: Printer, piece: Piece) {
    piece.Tree? ==> Printable(p, piece.node) && (piece.node.Batch? ==> Height(piece.node.children) <= 4)
  }

  /** The socket delivers exactly these pieces, at whatever times. */
  ghost predicate Delivers(p: Printer, pieces: seq<Piece>, script: seq<Arrival>) {
    && |script| == |pieces|
    && forall i :: 0 <= i < |pieces| ==> Sendable(p, pieces[i]) && script[i].event == EventOf(p, pieces[i])
  }

  lemma OnlyLeaf(node: Node)
    ensures Leaves([node])
            == match node
               case Leaf(emsg, header, body) => [SteamMessage(emsg, header, body)]
               case Legacy(_) => []
               case Batch(_, _, children, _) => Leaves(children)
  {
    assert [node][1..] == [];
  }

  lemma PieceArrives(w: Wire, p: Printer, piece: Piece)
    requires Inverse(w, p) && Sendable(p, piece)
    ensures var what := Classify(w, EventOf(p, piece)); !Fatal(what) && Yield(what) == MessagesIn(piece)
  {
    if piece.Tree? {
      OnlyLeaf(piece.node);
      match piece.node
      case Leaf(emsg, header, body) => LeafArrives(w, p, emsg, header, body);
      case Legacy(frame) =>
        FlagIsTopBit(frame[..4]);
        LegacyArrives(w, frame);
      case Batch(header, packing, children, trailing) => BatchArrives(w, p, header, packing, children, trailing);
    }
  }

  /** Arrival `i` yields the messages of piece `i` and lets the reader go on. */
  ghost predicate ReadsAs(read: Classifier, pieces: seq<Piece>, script: seq<Arrival>) {
    && |script| == |pieces|
    && forall i :: 0 <= i < |pieces| ==>
         !Fatal(read(script[i].event)) && Yield(read(script[i].event)) == MessagesIn(pieces[i])
  }

  lemma {:induction false} FlattenReads(read: Classifier, pieces: seq<Piece>, script: seq<Arrival>, pos: nat)
    requires ReadsAs(read, pieces, script) && pos <= |script|
    ensures Flatten(read, script, pos) == Said(pieces, pos)
    decreases |script| - pos
  {
    if pos < |script| {
      FlattenReads(read, pieces, script, pos + 1);
    }
  }

  /** The stream a reader can get is what was said, from any position on. */
  lemma FlattenIsSaid(w: Wire, p: Printer, pieces: seq<Piece>, script: seq<Arrival>, pos: nat)
    requires Inverse(w, p) && Delivers(p, pieces, script) && pos <= |script|
    ensures Flatten(ClassifyBy(w), script, pos) == Said(pieces, pos)
  {
    forall i | 0 <= i < |pieces|
      ensures !Fatal(ClassifyBy(w)(script[i].event))
      ensures Yield(ClassifyBy(w)(script[i].event)) == MessagesIn(pieces[i])
    {
      PieceArrives(w, p, pieces[i]);
    }
    FlattenReads(ClassifyBy(w), pieces, script, pos);
  }
}
