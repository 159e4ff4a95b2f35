/**
 The pump stated over what was wrapped and sent: which messages it relays, which make it
 ready and which reset it, with types and codes by number.
 */
module GcPumpWire {
  import opened Wrappers
  import opened LittleEndian
  import opened Codec
  import opened GcEnvelope
  import opened GcPump

  /** What an event carries: a GC message in its envelope, something that is none, or no message at all. */
  datatype Content =
    | FromGc(app: U32, msgType: U32, header: GcHeader, body: Bytes)
    | Noise
    | NoMessage

  /** The envelope's payload is the frame of this type, header and body. */
  ghost predicate Holds(w: GcWire, client: GcClient, msgType: U32, header: GcHeader, body: Bytes) {
    exists bytes ::
      && |bytes| < U32_LIMIT
      && client.payload == Some(Frame(msgType, bytes, body))
      && w.decodeHeader(bytes) == Some(header)
  }

  /** Bytes that are no envelope, or one that holds no GC message with a header that decodes. */
  ghost predicate NoEnvelope(w: GcWire, bytes: Bytes) {
    w.decodeClient(bytes).Some? ==>
      forall msgType: U32, header, body :: !Holds(w, w.decodeClient(bytes).value, msgType, header, body)
  }

  /** An envelope that names no app counts as app 0. */
  ghost predicate Carries(w: GcWire, e: PumpEvent, content: Content) {
    match content
    case FromGc(app, msgType, header, body) =>
      && e.Received? && e.msg.emsg == 5453
      && w.decodeClient(e.msg.body).Some?
      && var client := w.decodeClient(e.msg.body).value;
      && app == (if client.appId.Some? then client.appId.value else 0)
      && Holds(w, client, msgType, header, body)
    case Noise => e.Received? && (e.msg.emsg != 5453 || NoEnvelope(w, e.msg.body))
    case NoMessage => !e.Received?
  }

  /** Every event carries something, so the theorems below speak of every run. */
  lemma EveryEventCarries(w: GcWire, e: PumpEvent)
    ensures exists content :: Carries(w, e, content)
  {
    if !e.Received? {
      assert Carries(w, e, NoMessage);
    } else if e.msg.emsg != 5453 || NoEnvelope(w, e.msg.body) {
      assert Carries(w, e, Noise);
    } else {
      var client := w.decodeClient(e.msg.body).value;
      var msgType: U32, header, body :| Holds(w, client, msgType, header, body);
      assert Carries(w, e, FromGc(if client.appId.Some? then client.appId.value else 0, msgType, header, body));
    }
  }

  /** What was wrapped is what is carried. */
  lemma WrappedCarries(w: GcWire, app: U32, msgType: U32, header: GcHeader, body: Bytes, msg: SteamMessage)
    requires Inverse(w) && |w.encodeHeader(header)| < U32_LIMIT
    requires msg.emsg == 5453 && msg.body == w.encodeClient(Wrap(w, app, msgType, header, body))
    ensures Carries(w, Received(msg), FromGc(app, msgType, header, body))
  {
    assert Wrap(w, app, msgType, header, body).payload == Some(Frame(msgType, w.encodeHeader(header), body));
  }

  /** The type without its top bit. */
  function Plain(msgType: U32): nat {
    if msgType < 0x8000_0000 then msgType else msgType - 0x8000_0000
  }

  predicate Ours(c: Config, content: Content) {
    content.FromGc? && content.app == c.appId
  }

  /** What subscribers should be sent for it. */
  function Relay(c: Config, content: Content): seq<GcMessage> {
    if Ours(c, content)
    then [GcMessage(content.app, Plain(content.msgType), content.header, content.body)]
    else []
  }

  predicate Welcomes(c: Config, content: Content) {
    Ours(c, content) && Plain(content.msgType) == 4004
  }

  /** A connection status that does not decode, or names a status other than 0. */
  predicate DeniesSession(c: Config, content: Content) {
    && Ours(c, content) && Plain(content.msgType) == 4009
    && var status := c.decodeStatus(content.body);
       status.None? || (status.value.Some? && status.value.value != 0)
  }

  predicate ResetsBy(c: Config, e: PumpEvent, content: Content) {
    e.Borrow? || DeniesSession(c, content)
  }

  // ------------------------------------------------------------------
  // One event
  // ------------------------------------------------------------------

  lemma PlainIsMasked(msgType: U32)
    ensures Masked(msgType) == Plain(msgType)
  {
  }

  lemma NoEnvelopeFails(w: GcWire, msg: SteamMessage)
    requires NoEnvelope(w, msg.body)
    ensures !(Unwrap(w, msg).Ok? && Unwrap(w, msg).value.Some?)
  {
    if w.decodeClient(msg.body).Some? {
      var client := w.decodeClient(msg.body).value;
      var payload := if client.payload.Some? then client.payload.value else [];
      UnframeCases(payload);
      if Framed(payload) {
        var msgType: U32, header, inner :| |header| < U32_LIMIT && payload == Frame(msgType, header, inner);
        FrameRoundTrip(msgType, header, inner);
        assert client.payload == Some(Frame(msgType, header, inner));
        if w.decodeHeader(header).Some? {
          assert Holds(w, client, msgType, w.decodeHeader(header).value, inner);
        }
      }
    }
  }

  /** The pump sees of a message what it should relay. */
  predicate Sees(c: Config, msg: SteamMessage, content: Content) {
    AppMessage(c, msg) == if Relay(c, content) == [] then None else Some(Relay(c, content)[0])
  }

  lemma HeldIsSeen(c: Config, msg: SteamMessage, client: GcClient, content: Content)
    requires msg.emsg == 5453 && c.wire.decodeClient(msg.body) == Some(client) && content.FromGc?
    requires content.app == if client.appId.Some? then client.appId.value else 0
    requires Holds(c.wire, client, content.msgType, content.header, content.body)
    ensures Sees(c, msg, content)
  {
    var bytes :|
      && |bytes| < U32_LIMIT
      && client.payload == Some(Frame(content.msgType, bytes, content.body))
      && c.wire.decodeHeader(bytes) == Some(content.header);
    FrameRoundTrip(content.msgType, bytes, content.body);
    PlainIsMasked(content.msgType);
  }

  /** The message the pump sees is the one its envelope holds, if it is this app's. */
  lemma SeesRelay(c: Config, e: PumpEvent, content: Content)
    requires Carries(c.wire, e, content) && e.Received?
    ensures Sees(c, e.msg, content)
  {
    if content.FromGc? {
      HeldIsSeen(c, e.msg, c.wire.decodeClient(e.msg.body).value, content);
    } else if e.msg.emsg == 5453 {
      NoEnvelopeFails(c.wire, e.msg);
    }
  }

  /**
   What one received message does. This app's are relayed with their type masked; type 4004
   makes the pump ready, type 4009 without a session clears readiness and renews the budget,
   and any other changes neither. Everything else passes without effect.
   */
  ghost predicate Hears(c: Config, p: Pump, content: Content, q: Pump) {
    && q.relayed == p.relayed + Relay(c, content)
    && (!Ours(c, content) ==> q == p.(turns := p.turns + 1))
    && (Welcomes(c, content) ==>
          q.ready && q.readiness == p.readiness + [true] && q.helloAttempts == p.helloAttempts)
    && (DeniesSession(c, content) ==>
          !q.ready && q.readiness == p.readiness + [false] && q.helloAttempts == 0)
    && (!Welcomes(c, content) && !DeniesSession(c, content) ==>
          q.ready == p.ready && q.readiness == p.readiness && q.helloAttempts == p.helloAttempts)
    && q.launches == p.launches && q.retries == p.retries && q.place == p.place && q.seen == p.seen
  }

  lemma GcMessageHeard(c: Config, p: Pump, content: Content)
    requires Ours(c, content)
    ensures Hears(c, p, content, OnGcMessage(c, p.(turns := p.turns + 1), Relay(c, content)[0]))
  {
  }

  lemma SeenHeard(c: Config, p: Pump, msg: SteamMessage, content: Content)
    requires Sees(c, msg, content) && Can(p, Received(msg))
    ensures Hears(c, p, content, Turn(c, p, Received(msg)))
  {
    if Ours(c, content) {
      GcMessageHeard(c, p, content);
    } else {
      assert p.relayed + [] == p.relayed;
    }
  }

  lemma ReceivedMeans(c: Config, p: Pump, e: PumpEvent, content: Content)
    requires Carries(c.wire, e, content) && e.Received? && Can(p, e)
    ensures Hears(c, p, content, Turn(c, p, e))
  {
    SeesRelay(c, e, content);
    SeenHeard(c, p, e.msg, content);
  }

  lemma KindsOfSeen(c: Config, e: PumpEvent, content: Content)
    requires e.Received? && content.FromGc? && Sees(c, e.msg, content)
    ensures IsWelcome(c, e) <==> Welcomes(c, content)
    ensures IsNoSession(c, e) <==> DeniesSession(c, content)
  {
  }

  lemma SameKinds(c: Config, e: PumpEvent, content: Content)
    requires Carries(c.wire, e, content)
    ensures IsWelcome(c, e) <==> Welcomes(c, content)
    ensures IsReset(c, e) <==> ResetsBy(c, e, content)
  {
    if e.Received? {
      SeesRelay(c, e, content);
      if content.FromGc? {
        KindsOfSeen(c, e, content);
      }
    }
  }

  // ------------------------------------------------------------------
  // Whole runs
  // ------------------------------------------------------------------

  ghost predicate CarriesAll(w: GcWire, es: seq<PumpEvent>, contents: seq<Content>) {
    |contents| == |es| && forall i :: 0 <= i < |es| ==> Carries(w, es[i], contents[i])
  }

  /** A welcome of this app's came, and nothing since has reset it. */
  ghost predicate WelcomedBy(c: Config, es: seq<PumpEvent>, contents: seq<Content>, n: nat)
    requires n <= |es| == |contents|
  {
    exists i :: 0 <= i < n && Welcomes(c, contents[i])
                && forall k :: i < k < n ==> !ResetsBy(c, es[k], contents[k])
  }

  function ResetCount(c: Config, es: seq<PumpEvent>, contents: seq<Content>, n: nat): nat
    requires n <= |es| == |contents|
  {
    if n == 0 then 0
    else ResetCount(c, es, contents, n - 1) + if ResetsBy(c, es[n - 1], contents[n - 1]) then 1 else 0
  }

  function RelayAll(c: Config, contents: seq<Content>, n: nat): seq<GcMessage>
    requires n <= |contents|
  {
    if n == 0 then [] else RelayAll(c, contents, n - 1) + Relay(c, contents[n - 1])
  }

  lemma SameWelcome(c: Config, es: seq<PumpEvent>, contents: seq<Content>, n: nat)
    requires CarriesAll(c.wire, es, contents) && n <= |es|
    ensures Welcomed(c, es[..n]) <==> WelcomedBy(c, es, contents, n)
  {
    forall i | 0 <= i < n
      ensures IsWelcome(c, es[..n][i]) <==> Welcomes(c, contents[i])
      ensures IsReset(c, es[..n][i]) <==> ResetsBy(c, es[i], contents[i])
    {
      SameKinds(c, es[i], contents[i]);
    }
    if Welcomed(c, es[..n]) {
      var i :| 0 <= i < n && IsWelcome(c, es[..n][i]) && forall k :: i < k < n ==> !IsReset(c, es[..n][k]);
      assert Welcomes(c, contents[i]);
      forall k | i < k < n ensures !ResetsBy(c, es[k], contents[k]) {
        assert !IsReset(c, es[..n][k]);
      }
    }
    if WelcomedBy(c, es, contents, n) {
      var i :| 0 <= i < n && Welcomes(c, contents[i]) && forall k :: i < k < n ==> !ResetsBy(c, es[k], contents[k]);
      assert IsWelcome(c, es[..n][i]);
    }
  }

  lemma {:induction false} SameResets(c: Config, es: seq<PumpEvent>, contents: seq<Content>, n: nat)
    requires CarriesAll(c.wire, es, contents) && n <= |es|
    ensures Resets(c, es[..n]) == ResetCount(c, es, contents, n)
  {
    if n > 0 {
      SameKinds(c, es[n - 1], contents[n - 1]);
      SameResets(c, es, contents, n - 1);
      assert es[..n][..n - 1] == es[..n - 1];
    }
  }

  lemma {:induction false} SameRelays(c: Config, es: seq<PumpEvent>, contents: seq<Content>, n: nat)
    requires CarriesAll(c.wire, es, contents) && n <= |es|
    ensures AppMessages(c, es[..n]) == RelayAll(c, contents, n)
  {
    if n > 0 {
      if es[n - 1].Received? {
        SeesRelay(c, es[n - 1], contents[n - 1]);
      }
      SameRelays(c, es, contents, n - 1);
      assert es[..n][..n - 1] == es[..n - 1];
    }
  }

  /**
   Over every run of the pump, from what was sent to it: it is ready exactly when a welcome
   of its own app came since the last reset, and that is what it last published; every retry
   went out on a tick with no welcome in force; r resets allow at most 20 (r + 1) of them;
   and subscribers got exactly its own app's messages, types masked, in order.
   */
  lemma PumpMeans(c: Config, states: seq<bool>, seen: nat, es: seq<PumpEvent>, contents: seq<Content>)
    requires CanAll(c, Attached(states, seen), es) && CarriesAll(c.wire, es, contents)
    ensures var p := TurnAll(c, Attached(states, seen), es);
            && (p.ready <==> WelcomedBy(c, es, contents, |es|))
            && p.readiness != [] && p.ready == p.readiness[|p.readiness| - 1]
            && (forall r :: 0 <= r < |p.retries| ==>
                  && p.retries[r] < |es| && es[p.retries[r]].Tick?
                  && !WelcomedBy(c, es, contents, p.retries[r]))
            && |p.retries| <= 20 * (ResetCount(c, es, contents, |es|) + 1)
            && p.relayed == RelayAll(c, contents, |es|)
  {
    ReadinessAndBudget(c, states, seen, es);
    RelaysInOrder(c, states, seen, es);
    assert es[..|es|] == es;
    SameWelcome(c, es, contents, |es|);
    SameResets(c, es, contents, |es|);
    SameRelays(c, es, contents, |es|);
    var p := TurnAll(c, Attached(states, seen), es);
    forall r | 0 <= r < |p.retries|
      ensures p.retries[r] < |es| && es[p.retries[r]].Tick? && !WelcomedBy(c, es, contents, p.retries[r])
    {
      SameWelcome(c, es, contents, p.retries[r]);
    }
  }
}
