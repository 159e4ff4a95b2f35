/**
 One Connection Manager socket (src/session/connection.rs): the frame reader with its
 liveness clock, the inbox that flattens batches, and the logon loop.
 */
module Connection {
  import opened Wrappers
  import EResult
  import opened LittleEndian
  import opened Codec
  import opened Multi

  const EMSG_LOGON_RESPONSE: nat := 751
  const EMSG_LOGGED_OFF: nat := 757
  const DEFAULT_HEARTBEAT_SECS: int := 9
  const LOGON_HEADER_STEAMID: nat := 0x0110_0001_0000_0000

  /** What the socket hands the reader. `Gone` is the end of the stream or a socket error. */
  datatype WsEvent = Binary(data: Bytes) | Control | Close | Text | Gone

  /** The same, seen through the codec. */
  datatype Inbound =
    | Decoded(messages: seq<SteamMessage>)
    | Quiet
    | Garbled
    | Closing
    | Lost

  function Classify(w: Wire, event: WsEvent): Inbound {
    match event
    case Control => Quiet
    case Close => Closing
    case Text => Closing
    case Gone => Lost
    case Binary(data) =>
      match TryDecode(w.decodeHeader, data)
      case Err(_) => Garbled
      case Ok(None) => Decoded([])
      case Ok(Some(msg)) =>
        if msg.emsg != EMSG_MULTI then Decoded([msg])
        else
          match Unpack(w, msg.body, 0)
          case Err(_) => Garbled
          case Ok(messages) => Decoded(messages)
  }

  /** Every frame stamps the liveness clock, also one that then ends the connection. */
  predicate Touches(what: Inbound) {
    !what.Lost?
  }

  predicate Fatal(what: Inbound) {
    what.Garbled? || what.Closing? || what.Lost?
  }

  function Yield(what: Inbound): seq<SteamMessage> {
    if what.Decoded? then what.messages else []
  }

  /** How one arrival ends a `read_message` poll that found the inbox empty. */
  datatype Got = Message(msg: SteamMessage) | Waiting | Failed

  function Receive(what: Inbound): (r: (seq<SteamMessage>, Got)) {
    if Fatal(what) then ([], Failed)
    else if Yield(what) == [] then ([], Waiting)
    else (Yield(what)[1..], Message(Yield(what)[0]))
  }

  /** The codec as a reader uses it. */
  type Classifier = WsEvent -> Inbound

  function ClassifyBy(w: Wire): Classifier {
    event => Classify(w, event)
  }

  /** Arrival times paired with what arrived. */
  datatype Arrival = Arrival(at: nat, event: WsEvent)

  /** Every message the reader can get out of the arrivals from `pos` on, in wire order. */
  function Flatten(read: Classifier, script: seq<Arrival>, pos: nat): seq<SteamMessage>
    requires pos <= |script|
    decreases |script| - pos
  {
    if pos == |script| then []
    else
      var what := read(script[pos].event);
      if Fatal(what) then [] else Yield(what) + Flatten(read, script, pos + 1)
  }

  /** When the last frame among arrivals `lo` to `hi` came in, or `since` when none did. */
  function LastTouch(read: Classifier, script: seq<Arrival>, lo: nat, hi: nat, since: nat): nat
    requires lo <= hi <= |script|
  {
    if lo == hi then since
    else if Touches(read(script[hi - 1].event)) then script[hi - 1].at
    else LastTouch(read, script, lo, hi - 1, since)
  }

  lemma MoveHead(a: seq<SteamMessage>, b: seq<SteamMessage>, c: seq<SteamMessage>)
    requires b != []
    ensures a + (b + c) == (a + [b[0]]) + (b[1..] + c)
  {
  }

  /** No batch ever reaches a reader. */
  lemma {:induction false} FlattenIsFlat(w: Wire, script: seq<Arrival>, pos: nat)
    requires pos <= |script|
    ensures Flat(Flatten(ClassifyBy(w), script, pos))
    decreases |script| - pos
  {
    if pos < |script| {
      FlattenIsFlat(w, script, pos + 1);
      YieldIsFlat(w, script[pos].event);
    }
  }

  lemma YieldIsFlat(w: Wire, event: WsEvent)
    ensures Flat(Yield(Classify(w, event)))
  {
    if event.Binary? {
      var sub := TryDecode(w.decodeHeader, event.data);
      if sub.Ok? && sub.value.Some? {
        UnpackIsFlat(w, sub.value.value.body, 0);
      }
    }
  }

  datatype LogonResponse = LogonResponse(eresult: Option<int>, heartbeatSeconds: Option<int>)

  datatype LoggedOn = LoggedOn(steamId: nat, sessionId: int, heartbeatSecs: nat)

  /** `Starved` is a read still waiting when the scripted socket has nothing more. */
  datatype ConnectError =
    | AuthRejected(code: int)
    | LogonRetryable(code: int)
    | BadResponse
    | SendFailed
    | SocketFailed
    | Starved

  predicate LogonRetryableCode(code: int) {
    code in {EResult.NO_CONNECTION, EResult.BUSY, EResult.TIMEOUT, EResult.SERVICE_UNAVAILABLE,
             EResult.TRY_ANOTHER_CM, EResult.RATE_LIMIT_EXCEEDED}
  }

  function LogonRejection(code: int): ConnectError {
    if LogonRetryableCode(code) then LogonRetryable(code) else AuthRejected(code)
  }

  datatype LogonWire = LogonWire(
    decodeResponse: Bytes -> Option<LogonResponse>,
    decodeLoggedOff: Bytes -> Option<Option<int>>)

  function OrElse(o: Option<int>, default: int): int {
    if o.Some? then o.value else default
  }

  predicate Decides(msg: SteamMessage) {
    msg.emsg == EMSG_LOGON_RESPONSE || msg.emsg == EMSG_LOGGED_OFF
  }

  /** What the first decisive message of a logon makes of it. */
  function LogonVerdict(lw: LogonWire, msg: SteamMessage, steamId: nat, sessionId: int)
    : (r: Result<LoggedOn, ConnectError>)
    requires Decides(msg)
    ensures r.Ok? ==> r.value.heartbeatSecs >= 1
    ensures r.Err? ==> r.error.AuthRejected? || r.error.LogonRetryable? || r.error.BadResponse?
  {
    if msg.emsg == EMSG_LOGGED_OFF then
      var body := lw.decodeLoggedOff(msg.body);
      Err(LogonRejection(if body.Some? then OrElse(body.value, EResult.FAIL) else EResult.FAIL))
    else
      match lw.decodeResponse(msg.body)
      case None => Err(BadResponse)
      case Some(resp) =>
        var code := OrElse(resp.eresult, EResult.FAIL);
        if code != EResult.OK then Err(LogonRejection(code))
        else
          var hb := OrElse(resp.heartbeatSeconds, DEFAULT_HEARTBEAT_SECS);
          Ok(LoggedOn(
               if msg.header.steamId.Some? then msg.header.steamId.value else steamId,
               if msg.header.sessionId.Some? then msg.header.sessionId.value else sessionId,
               if hb < 1 then 1 else hb))
  }

  /** The error for a code the server gave: six of them are worth another try. */
  predicate RefusedWith(r: Result<LoggedOn, ConnectError>, code: int) {
    r == Err(if code == 3 || code == 10 || code == 16 || code == 20 || code == 48 || code == 84
             then LogonRetryable(code) else AuthRejected(code))
  }

  /**
   The verdict case by case, codes and types by number. A logoff refuses with its code, or 2
   when it has none or does not decode; a response refuses with any code but 1, an absent one
   counting as 2; an accepted one assigns the ids its header carries and keeps the others, and
   beats as often as it says, nine seconds by default and at least every second.
   */
  lemma LogonMeans(lw: LogonWire, msg: SteamMessage, steamId: nat, sessionId: int)
    ensures Decides(msg) <==> msg.emsg == 751 || msg.emsg == 757
    ensures msg.emsg == 757 ==>
              var d := lw.decodeLoggedOff(msg.body);
              RefusedWith(LogonVerdict(lw, msg, steamId, sessionId),
                          if d.Some? && d.value.Some? then d.value.value else 2)
    ensures msg.emsg == 751 && lw.decodeResponse(msg.body).None? ==>
              LogonVerdict(lw, msg, steamId, sessionId) == Err(BadResponse)
    ensures msg.emsg == 751 && lw.decodeResponse(msg.body).Some? ==>
              var resp := lw.decodeResponse(msg.body).value;
              var code := if resp.eresult.Some? then resp.eresult.value else 2;
              var r := LogonVerdict(lw, msg, steamId, sessionId);
              && (code != 1 ==> RefusedWith(r, code))
              && (code == 1 ==>
                    && r.Ok?
                    && (msg.header.steamId.Some? ==> r.value.steamId == msg.header.steamId.value)
                    && (msg.header.steamId.None? ==> r.value.steamId == steamId)
                    && (msg.header.sessionId.Some? ==> r.value.sessionId == msg.header.sessionId.value)
                    && (msg.header.sessionId.None? ==> r.value.sessionId == sessionId)
                    && (resp.heartbeatSeconds.None? ==> r.value.heartbeatSecs == 9)
                    && (resp.heartbeatSeconds.Some? && resp.heartbeatSeconds.value >= 1 ==>
                          r.value.heartbeatSecs == resp.heartbeatSeconds.value)
                    && (resp.heartbeatSeconds.Some? && resp.heartbeatSeconds.value < 1 ==>
                          r.value.heartbeatSecs == 1))
  {
  }

  /** The socket gave out before anything decided. */
  predicate Silent(r: Result<LoggedOn, ConnectError>) {
    r.Err? && (r.error.SocketFailed? || r.error.Starved?)
  }

  /** Messages a logon ignores. */
  ghost predicate Undecided(ms: seq<SteamMessage>, lo: nat, hi: nat) {
    forall i :: lo <= i < hi && i < |ms| ==> !Decides(ms[i])
  }

  /**
   The result is the verdict on the last message returned, which is the first since `from`
   that decides; with a silent socket none of them does.
   */
  ghost predicate DecidedBy(
    lw: LogonWire, returned: seq<SteamMessage>, from: nat, steamId: nat, sessionId: int,
    r: Result<LoggedOn, ConnectError>)
  {
    if Silent(r) then Undecided(returned, from, |returned|)
    else
      && from < |returned|
      && Undecided(returned, from, |returned| - 1)
      && Decides(returned[|returned| - 1])
      && r == LogonVerdict(lw, returned[|returned| - 1], steamId, sessionId)
  }

  /** The messages not yet taken off the wire. */
  ghost function Unread(read: Classifier, script: seq<Arrival>, pos: nat, failed: bool): seq<SteamMessage>
    requires pos <= |script|
  {
    if failed then [] else Flatten(read, script, pos)
  }

  ghost predicate Conserved(
    read: Classifier, script: seq<Arrival>, returned: seq<SteamMessage>, inbox: seq<SteamMessage>, pos: nat,
    failed: bool)
    requires pos <= |script|
  {
    returned + (inbox + Unread(read, script, pos, failed)) == Flatten(read, script, 0)
  }

  /** Reading a frame moves its messages from the wire to the inbox. */
  lemma ConservedRead(read: Classifier, script: seq<Arrival>, returned: seq<SteamMessage>, pos: nat)
    requires pos < |script| && Conserved(read, script, returned, [], pos, false)
    ensures var what := read(script[pos].event);
            Conserved(read, script, returned, if Fatal(what) then [] else Yield(what), pos + 1, Fatal(what))
  {
    var what := read(script[pos].event);
    assert [] + Flatten(read, script, pos) == Flatten(read, script, pos);
    if Fatal(what) {
      assert [] + Unread(read, script, pos + 1, true) == Flatten(read, script, pos);
    }
  }

  /** Returning a message moves it off the head of the inbox. */
  lemma ConservedTake(
    read: Classifier, script: seq<Arrival>, returned: seq<SteamMessage>, inbox: seq<SteamMessage>, pos: nat,
    failed: bool)
    requires pos <= |script| && inbox != [] && Conserved(read, script, returned, inbox, pos, failed)
    ensures Conserved(read, script, returned + [inbox[0]], inbox[1..], pos, failed)
  {
    MoveHead(returned, inbox, Unread(read, script, pos, failed));
  }

  /** A live socket; `script` is everything it will ever deliver. */
  class CmConnection {
    const classify: Classifier
    const script: seq<Arrival>
    var pos: nat
    var failed: bool
    var steamId: nat
    var sessionId: int
    var inbox: seq<SteamMessage>
    var lastFrame: nat
    ghost var returned: seq<SteamMessage>

    /** Returned so far, then buffered, then still to come, is all the script ever held. */
    ghost predicate Valid()
      reads this`pos, this`failed, this`inbox, this`returned
    {
      pos <= |script| && Conserved(classify, script, returned, inbox, pos, failed)
    }

    constructor (wire: Wire, script: seq<Arrival>, at: nat)
      ensures Valid()
      ensures classify == ClassifyBy(wire) && this.script == script && pos == 0 && !failed
      ensures steamId == LOGON_HEADER_STEAMID && sessionId == 0
      ensures inbox == [] && returned == [] && lastFrame == at
    {
      classify := ClassifyBy(wire);
      this.script := script;
      pos := 0;
      failed := false;
      steamId := LOGON_HEADER_STEAMID;
      sessionId := 0;
      inbox := [];
      lastFrame := at;
      returned := [];
    }

    /** One arrival on an empty inbox: stamp the clock, then fail or buffer what it yields. */
    method ReadFrame()
      requires Valid() && !failed && inbox == [] && pos < |script|
      modifies this`lastFrame, this`pos, this`failed, this`inbox
      ensures Valid() && pos == old(pos) + 1
      ensures failed <==> Fatal(classify(script[old(pos)].event))
      ensures inbox == if failed then [] else Yield(classify(script[old(pos)].event))
      ensures lastFrame == if Touches(classify(script[old(pos)].event)) then script[old(pos)].at
                           else old(lastFrame)
    {
      var arrival := script[pos];
      var what := classify(arrival.event);
      ConservedRead(classify, script, returned, pos);
      if Touches(what) {
        lastFrame := arrival.at;
      }
      pos := pos + 1;
      if Fatal(what) {
        failed := true;
      } else {
        inbox := Yield(what);
      }
    }

    /**
     Read the next message: the inbox first, then frames until one yields a message.
     Nothing is lost, repeated or reordered, whatever the frames hold.
     */
    method ReadMessage() returns (r: Got)
      requires Valid() && !failed
      modifies this`lastFrame, this`pos, this`failed, this`inbox, this`returned
      ensures Valid() && old(pos) <= pos
      ensures r.Message? ==> returned == old(returned) + [r.msg] && !failed
      ensures !r.Message? ==> returned == old(returned) && inbox == [] && Unread(classify, script, pos, failed) == []
      ensures r.Failed? <==> failed
      ensures r.Waiting? ==> pos == |script|
      ensures lastFrame == LastTouch(classify, script, old(pos), pos, old(lastFrame))
    {
      while true
        invariant Valid() && !failed && old(pos) <= pos
        invariant returned == old(returned)
        invariant lastFrame == LastTouch(classify, script, old(pos), pos, old(lastFrame))
        decreases |script| - pos
      {
        if inbox != [] {
          r := Message(inbox[0]);
          ConservedTake(classify, script, returned, inbox, pos, failed);
          returned := returned + [inbox[0]];
          inbox := inbox[1..];
          return;
        }
        if pos == |script| {
          return Waiting;
        }
        ReadFrame();
        if failed {
          return Failed;
        }
      }
    }

    /** Read on until a message decides the logon. */
    method AwaitVerdict() returns (r: Got)
      requires Valid() && !failed
      modifies this`lastFrame, this`pos, this`failed, this`inbox, this`returned
      ensures Valid() && old(pos) <= pos
      ensures old(returned) <= returned
      ensures r.Message? ==>
                && !failed && Decides(r.msg)
                && |old(returned)| < |returned| && returned[|returned| - 1] == r.msg
                && Undecided(returned, |old(returned)|, |returned| - 1)
      ensures !r.Message? ==>
                && inbox == [] && Unread(classify, script, pos, failed) == []
                && Undecided(returned, |old(returned)|, |returned|)
    {
      while true
        invariant Valid() && !failed && old(pos) <= pos
        invariant old(returned) <= returned && Undecided(returned, |old(returned)|, |returned|)
        decreases |Flatten(classify, script, 0)| - |returned|
      {
        r := ReadMessage();
        if !r.Message? || Decides(r.msg) {
          return;
        }
      }
    }

    /** Act on the deciding message: the ids change only when it accepts the logon. */
    method Judge(lw: LogonWire, msg: SteamMessage) returns (r: Result<LoggedOn, ConnectError>)
      requires Decides(msg)
      modifies this`steamId, this`sessionId
      ensures r == LogonVerdict(lw, msg, old(steamId), old(sessionId))
      ensures r.Ok? ==> r.value.steamId == steamId && r.value.sessionId == sessionId
      ensures r.Err? ==> steamId == old(steamId) && sessionId == old(sessionId)
    {
      if msg.emsg == EMSG_LOGGED_OFF {
        var body := lw.decodeLoggedOff(msg.body);
        var code := if body.Some? then OrElse(body.value, EResult.FAIL) else EResult.FAIL;
        return Err(LogonRejection(code));
      }
      var resp := lw.decodeResponse(msg.body);
      if resp.None? {
        return Err(BadResponse);
      }
      var code := OrElse(resp.value.eresult, EResult.FAIL);
      if code != EResult.OK {
        return Err(LogonRejection(code));
      }
      if msg.header.steamId.Some? {
        steamId := msg.header.steamId.value;
      }
      if msg.header.sessionId.Some? {
        sessionId := msg.header.sessionId.value;
      }
      var hb := OrElse(resp.value.heartbeatSeconds, DEFAULT_HEARTBEAT_SECS);
      return Ok(LoggedOn(steamId, sessionId, if hb < 1 then 1 else hb));
    }

    /** Wait for the response and act on it. */
    method Respond(lw: LogonWire) returns (r: Result<LoggedOn, ConnectError>)
      requires Valid() && !failed
      modifies this`lastFrame, this`pos, this`failed, this`inbox, this`returned
      modifies this`steamId, this`sessionId
      ensures Valid() && old(pos) <= pos
      ensures old(returned) <= returned
      ensures DecidedBy(lw, returned, |old(returned)|, old(steamId), old(sessionId), r)
      ensures Silent(r) ==> inbox == [] && Unread(classify, script, pos, failed) == []
      ensures r.Ok? ==> r.value.steamId == steamId && r.value.sessionId == sessionId && !failed
      ensures r.Err? ==> steamId == old(steamId) && sessionId == old(sessionId)
    {
      var got := AwaitVerdict();
      if got.Message? {
        r := Judge(lw, got.msg);
      } else {
        r := Err(if got.Failed? then SocketFailed else Starved);
      }
    }

    /**
     Send the logon (`sent` says whether the write went through), then wait for the response,
     dropping what precedes it. Everything after the response stays in the inbox or on the
     wire, for the driver to take over.
     */
    method Logon(lw: LogonWire, sent: bool) returns (r: Result<LoggedOn, ConnectError>)
      requires Valid() && !failed
      modifies this`lastFrame, this`pos, this`failed, this`inbox, this`returned
      modifies this`steamId, this`sessionId
      ensures Valid() && old(pos) <= pos
      ensures r == Err(SendFailed) <==> !sent
      ensures !sent ==> unchanged(this)
      ensures sent ==> DecidedBy(lw, returned, |old(returned)|, old(steamId), old(sessionId), r)
      ensures old(returned) <= returned
      ensures Silent(r) ==> inbox == [] && Unread(classify, script, pos, failed) == []
      ensures r.Ok? ==> r.value.steamId == steamId && r.value.sessionId == sessionId && !failed
      ensures r.Err? ==> steamId == old(steamId) && sessionId == old(sessionId)
    {
      if sent {
        r := Respond(lw);
      } else {
        r := Err(SendFailed);
      }
    }
  }
}
