/** Little-endian words, as the frame prefix and the Multi length prefixes use them. */
module LittleEndian {

  type Byte = b: int | 0 <= b < 256
  type Bytes = seq<Byte>

  const U32_LIMIT: nat := 0x1_0000_0000
  const U31_LIMIT: nat := 0x8000_0000

  type U32 = x: int | 0 <= x < U32_LIMIT

  function Le32(x: U32): (b: Bytes)
    ensures |b| == 4
  {
    [x % 256, x / 256 % 256, x / 65536 % 256, x / 16777216]
  }

  function FromLe32(b: Bytes): (x: U32)
    requires |b| == 4
  {
    var b0: int, b1: int, b2: int, b3: int := b[0], b[1], b[2], b[3];
    b0 + 256 * b1 + 65536 * b2 + 16777216 * b3
  }

  lemma ReadsBack(x: U32)
    ensures FromLe32(Le32(x)) == x
  {
    assert x / 65536 == x / 256 / 256 && x / 16777216 == x / 65536 / 256;
  }

  lemma WritesBack(b: Bytes)
    requires |b| == 4
    ensures Le32(FromLe32(b)) == b
  {
    var x := FromLe32(b);
    var b1: int, b2: int, b3: int := b[1], b[2], b[3];
    assert x / 256 == b1 + 256 * b2 + 65536 * b3;
    assert x / 65536 == b2 + 256 * b3;
    assert x / 16777216 == b3;
  }
}

/**
 Steam message framing (src/codec.rs): a type word with the protobuf flag in its
 top bit, a header length, the header and the body.
 */
module Codec {
  import opened Wrappers
  import opened LittleEndian

  const PREFIX_LEN: nat := 8

  /** The routing header. `rest` stands for every field this model does not read. */
  datatype Header = Header(
    steamId: Option<nat>,
    sessionId: Option<int>,
    jobSource: Option<nat>,
    jobTarget: Option<nat>,
    rest: Bytes)

  const U64_MAX: nat := 0xFFFF_FFFF_FFFF_FFFF

  /** Two job ids stand for no job at all. */
  predicate Sentinel(job: nat) {
    job == 0 || job == U64_MAX
  }

  /** The job a header's target names, with the sentinels read as none. */
  function RealJob(target: Option<nat>): Option<nat> {
    if target.Some? && !Sentinel(target.value) then target else None
  }

  datatype SteamMessage = SteamMessage(emsg: nat, header: Header, body: Bytes)

  datatype CodecError =
    | ShortFrame
    | HeaderTooLong
    | BadHeader
    | BadEnvelope
    | BadMulti
    | BadGzip
    | SizeOverCap
    | InflatedPastCap
    | TooDeep
    | Truncated

  datatype FrameParts = FrameParts(msgType: nat, header: Bytes, body: Bytes)

  /** `msg_type & EMSG_MASK`. */
  function Masked(msgType: U32): (r: nat)
    ensures r < U31_LIMIT
  {
    msgType % U31_LIMIT
  }

  /** The type word with the protobuf flag set and stray high bits cleared. */
  function TypeWord(msgType: U32): (r: U32)
    ensures r >= U31_LIMIT
  {
    Masked(msgType) + U31_LIMIT
  }

  /** The bytes of a frame. The length word keeps the source's truncating cast. */
  function Frame(msgType: U32, header: Bytes, body: Bytes): (f: Bytes)
    ensures |f| == PREFIX_LEN + |header| + |body|
  {
    Le32(TypeWord(msgType)) + Le32(|header| % U32_LIMIT) + header + body
  }

  /**
   Two words appended: the first reads back as the masked type with the protobuf flag set,
   the second as the header length as far as 32 bits carry it.
   */
  method PutPrefix(buffer: Bytes, msgType: U32, headerLen: nat) returns (out: Bytes)
    ensures |out| == |buffer| + PREFIX_LEN && buffer <= out
    ensures FromLe32(out[|buffer|..|buffer| + 4]) == Masked(msgType) + U31_LIMIT
    ensures FromLe32(out[|buffer| + 4..]) == headerLen % U32_LIMIT
  {
    var word, length := TypeWord(msgType), headerLen % U32_LIMIT;
    out := buffer + Le32(word);
    out := out + Le32(length);
    assert out[|buffer|..|buffer| + 4] == Le32(word) && out[|buffer| + 4..] == Le32(length);
    ReadsBack(word);
    ReadsBack(length);
  }

  /** No other prefix reads back as the same type word and length. */
  lemma PrefixIsUnique(prefix: Bytes, msgType: U32, headerLen: U32)
    requires |prefix| == PREFIX_LEN
    requires FromLe32(prefix[..4]) == TypeWord(msgType) && FromLe32(prefix[4..]) == headerLen
    ensures prefix == Le32(TypeWord(msgType)) + Le32(headerLen)
  {
    WritesBack(prefix[..4]);
    WritesBack(prefix[4..]);
    assert prefix == prefix[..4] + prefix[4..];
  }

  method EncodeRaw(msgType: U32, header: Bytes, body: Bytes) returns (out: Bytes)
    ensures out == Frame(msgType, header, body)
    ensures |header| < U32_LIMIT ==>
              Unframe(out) == Ok(Some(FrameParts(Masked(msgType), header, body)))
  {
    out := PutPrefix([], msgType, |header|);
    PrefixIsUnique(out, msgType, |header| % U32_LIMIT);
    out := out + header;
    out := out + body;
    FrameRoundTrip(msgType, header, body);
  }

  /** Split a frame; `Ok(None)` is a legacy frame without the protobuf flag. */
  function Unframe(bytes: Bytes): Result<Option<FrameParts>, CodecError> {
    if |bytes| < PREFIX_LEN then Err(ShortFrame)
    else
      var raw := FromLe32(bytes[..4]);
      if raw < U31_LIMIT then Ok(None)
      else
        var headerLen := FromLe32(bytes[4..PREFIX_LEN]);
        var rest := bytes[PREFIX_LEN..];
        if |rest| < headerLen then Err(HeaderTooLong)
        else Ok(Some(FrameParts(Masked(raw), rest[..headerLen], rest[headerLen..])))
  }

  /** What a frame splits into, whatever the header length was truncated to. */
  lemma UnframeOfFrame(msgType: U32, header: Bytes, body: Bytes)
    ensures var n := |header| % U32_LIMIT;
            n <= |header + body|
            && Unframe(Frame(msgType, header, body))
               == Ok(Some(FrameParts(Masked(msgType), (header + body)[..n], (header + body)[n..])))
  {
    FrameSlices(Le32(TypeWord(msgType)), Le32(|header| % U32_LIMIT), header, body);
    ReadsBack(TypeWord(msgType));
    ReadsBack(|header| % U32_LIMIT);
  }

  lemma FrameSlices(word: Bytes, length: Bytes, header: Bytes, body: Bytes)
    requires |word| == 4 && |length| == 4
    ensures var f := word + length + header + body;
            f[..4] == word && f[4..PREFIX_LEN] == length && f[PREFIX_LEN..] == header + body
  {
  }

  /** Splitting undoes framing exactly when the header length fits its 32-bit word. */
  lemma FrameRoundTrip(msgType: U32, header: Bytes, body: Bytes)
    ensures Unframe(Frame(msgType, header, body)) == Ok(Some(FrameParts(Masked(msgType), header, body)))
            <==> |header| < U32_LIMIT
  {
    UnframeOfFrame(msgType, header, body);
    if |header| < U32_LIMIT {
      assert (header + body)[..|header|] == header;
      assert (header + body)[|header|..] == body;
    }
  }

  /** A type without stray bits comes back as it is. */
  lemma PlainRoundTrip(msgType: U32, header: Bytes, body: Bytes)
    requires msgType < U31_LIMIT && |header| < U32_LIMIT
    ensures Unframe(Frame(msgType, header, body)) == Ok(Some(FrameParts(msgType, header, body)))
  {
    FrameRoundTrip(msgType, header, body);
    assert Masked(msgType) == msgType;
  }

  /** A word with the flag set is the type word of the type it masks to. */
  lemma FlaggedWord(raw: U32)
    requires raw >= U31_LIMIT
    ensures TypeWord(Masked(raw)) == raw
  {
  }

  lemma BytesJoin(bytes: Bytes, n: nat)
    requires PREFIX_LEN + n <= |bytes|
    ensures var rest := bytes[PREFIX_LEN..]; bytes[..4] + bytes[4..PREFIX_LEN] + rest[..n] + rest[n..] == bytes
  {
  }

  lemma ShortHeader(msgType: U32, header: Bytes, body: Bytes)
    requires |header| < U32_LIMIT
    ensures Frame(msgType, header, body) == Le32(TypeWord(msgType)) + Le32(|header|) + header + body
  {
  }

  lemma Reframe(bytes: Bytes, word: U32, n: U32)
    requires |bytes| >= PREFIX_LEN + n && word >= U31_LIMIT
    requires word == FromLe32(bytes[..4]) && n == FromLe32(bytes[4..PREFIX_LEN])
    ensures var rest := bytes[PREFIX_LEN..]; Frame(Masked(word), rest[..n], rest[n..]) == bytes
  {
    WritesBack(bytes[..4]);
    WritesBack(bytes[4..PREFIX_LEN]);
    FlaggedWord(word);
    BytesJoin(bytes, n);
    ShortHeader(Masked(word), bytes[PREFIX_LEN..][..n], bytes[PREFIX_LEN..][n..]);
  }

  /** Framing undoes splitting: an accepted protobuf frame re-encodes to the same bytes. */
  lemma UnframeRoundTrip(bytes: Bytes)
    requires Unframe(bytes).Ok? && Unframe(bytes).value.Some?
    ensures var p := Unframe(bytes).value.value; Frame(p.msgType, p.header, p.body) == bytes
  {
    Reframe(bytes, FromLe32(bytes[..4]), FromLe32(bytes[4..PREFIX_LEN]));
  }

  /**
   Which bytes are what: a legacy frame has the top bit of its fourth byte clear, a protobuf
   one is what framing prints, and everything else is malformed.
   */
  lemma UnframeCases(bytes: Bytes)
    ensures Unframe(bytes) == Ok(None) <==> |bytes| >= 8 && bytes[3] < 128
    ensures Unframe(bytes).Ok? && Unframe(bytes).value.Some? <==> Framed(bytes)
    ensures Unframe(bytes).Err? <==> !(|bytes| >= 8 && bytes[3] < 128) && !Framed(bytes)
  {
    if |bytes| >= 8 {
      FlagIsTopBit(bytes[..4]);
    }
    if Unframe(bytes).Ok? && Unframe(bytes).value.Some? {
      var p := Unframe(bytes).value.value;
      UnframeRoundTrip(bytes);
      assert bytes == Frame(p.msgType, p.header, p.body) && |p.header| < U32_LIMIT;
    }
    if Framed(bytes) {
      var msgType: U32, header, body :| |header| < U32_LIMIT && bytes == Frame(msgType, header, body);
      FrameRoundTrip(msgType, header, body);
    }
  }

  /** The bytes are what some type, header and body print to. */
  ghost predicate Framed(bytes: Bytes) {
    exists msgType: U32, header, body :: |header| < U32_LIMIT && bytes == Frame(msgType, header, body)
  }

  lemma FlagIsTopBit(b: Bytes)
    requires |b| == 4
    ensures FromLe32(b) >= U31_LIMIT <==> b[3] >= 128
  {
  }

  /** A legacy frame is skipped, a protobuf one has its header decoded. */
  function TryDecode(decodeHeader: Bytes -> Option<Header>, bytes: Bytes)
    : Result<Option<SteamMessage>, CodecError>
  {
    match Unframe(bytes)
    case Err(e) => Err(e)
    case Ok(None) => Ok(None)
    case Ok(Some(parts)) =>
      match decodeHeader(parts.header)
      case None => Err(BadHeader)
      case Some(header) => Ok(Some(SteamMessage(parts.msgType, header, parts.body)))
  }
}
