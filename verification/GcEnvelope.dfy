/** The Game Coordinator relay envelope (src/gc/envelope.rs). */
module GcEnvelope {
  import opened Wrappers
  import opened LittleEndian
  import opened Codec

  datatype GcHeader = GcHeader(jobTarget: Option<nat>, rest: Bytes)

  datatype GcClient = GcClient(appId: Option<U32>, msgType: Option<U32>, payload: Option<Bytes>)

  datatype GcMessage = GcMessage(appId: nat, msgType: nat, header: GcHeader, body: Bytes) {
    /** The job this message answers; both sentinels read as none. */
    function JobTarget(): Option<nat> {
      RealJob(header.jobTarget)
    }
  }

  /** Protobuf coding of the two GC types, left abstract. */
  datatype GcWire = GcWire(
    encodeHeader: GcHeader -> Bytes,
    decodeHeader: Bytes -> Option<GcHeader>,
    encodeClient: GcClient -> Bytes,
    decodeClient: Bytes -> Option<GcClient>)

  ghost predicate Inverse(w: GcWire) {
    && (forall h :: w.decodeHeader(w.encodeHeader(h)) == Some(h))
    && (forall c :: w.decodeClient(w.encodeClient(c)) == Some(c))
  }

  function Wrap(w: GcWire, appId: U32, msgType: U32, header: GcHeader, body: Bytes): GcClient {
    GcClient(
      Some(appId),
      Some(TypeWord(msgType)),
      Some(Frame(msgType, w.encodeHeader(header), body)))
  }

  function Unwrap(w: GcWire, msg: SteamMessage): Result<Option<GcMessage>, CodecError> {
    match w.decodeClient(msg.body)
    case None => Err(BadEnvelope)
    case Some(client) =>
      var appId := if client.appId.Some? then client.appId.value else 0;
      var payload := if client.payload.Some? then client.payload.value else [];
      match Unframe(payload)
      case Err(e) => Err(e)
      case Ok(None) => Ok(None)
      case Ok(Some(parts)) =>
        match w.decodeHeader(parts.header)
        case None => Err(BadHeader)
        case Some(header) => Ok(Some(GcMessage(appId, parts.msgType, header, parts.body)))
  }

  /** A wrapped message carried in any relay message comes back unchanged, type masked. */
  lemma WrapRoundTrip(w: GcWire, appId: U32, msgType: U32, header: GcHeader, body: Bytes, relay: SteamMessage)
    requires Inverse(w) && |w.encodeHeader(header)| < U32_LIMIT
    requires relay.body == w.encodeClient(Wrap(w, appId, msgType, header, body))
    ensures Unwrap(w, relay) == Ok(Some(GcMessage(appId, Masked(msgType), header, body)))
    ensures Unwrap(w, relay).value.value.JobTarget().Some? <==>
            header.jobTarget.Some? && header.jobTarget.value !in {0, U64_MAX}
    ensures Wrap(w, appId, msgType, header, body).msgType == Some(Masked(msgType) + U31_LIMIT)
  {
    FrameRoundTrip(msgType, w.encodeHeader(header), body);
  }
}
