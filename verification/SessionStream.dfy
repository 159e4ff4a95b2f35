/**
 What a connection decodes is routed once each, in wire order, and the snapshot cache
 is what the first broadcasts of this logon left in it.
 */
module SessionStream {
  import opened Wrappers
  import opened LittleEndian
  import opened Codec
  import opened Connection
  import opened SessionModel
  import opened SessionBasics

  function Messages(routed: seq<Routed>): (ms: seq<SteamMessage>)
    ensures |ms| == |routed|
    ensures forall i :: 0 <= i < |ms| ==> ms[i] == routed[i].msg
  {
    seq(|routed|, i requires 0 <= i < |routed| => routed[i].msg)
  }

  /** The messages that arrived, in order. */
  function Received(io: seq<Io>): seq<SteamMessage> {
    if io == [] then []
    else
      var last := io[|io| - 1];
      Received(io[..|io| - 1]) + (if last.Arrived? then Yield(last.what) else [])
  }

  /** Everything decoded on a connection since its logon response. */
  function DecodedOn(conn: Conn): seq<SteamMessage> {
    conn.link.inbox + Received(conn.io)
  }

  function Without(ms: seq<SteamMessage>, i: nat): seq<SteamMessage>
    requires i < |ms|
  {
    ms[..i] + ms[i + 1..]
  }

  /** The logoff the driver acted on is one of the decoded messages, and a logoff. */
  ghost predicate LogoffOk(conn: Conn) {
    conn.logoff.Some? ==>
      conn.logoff.value < |DecodedOn(conn)| && DecodedOn(conn)[conn.logoff.value].emsg == EMSG_LOGGED_OFF
  }

  /** What was routed, then `rest`, is what was decoded, but for a logoff acted upon. */
  ghost predicate Accounted(conn: Conn, rest: seq<SteamMessage>) {
    && LogoffOk(conn)
    && Messages(conn.routed) + rest
       == if conn.logoff.Some? then Without(DecodedOn(conn), conn.logoff.value) else DecodedOn(conn)
  }

  ghost predicate Streamed(s: State) {
    && Accounted(s.conn, s.inbox)
    && (s.phase.Connected? ==> s.conn.logoff.None?)
    && (s.phase.Sleeping? || s.phase.Attempting? ==> s.inbox == [])
    && (forall k :: 0 <= k < |s.past| ==> Accounted(s.past[k], []))
  }

  // ------------------------------------------------------------------
  // Steps
  // ------------------------------------------------------------------

  lemma ReceivedMore(io: seq<Io>, x: Io)
    ensures Received(io + [x]) == Received(io) + (if x.Arrived? then Yield(x.what) else [])
  {
    assert (io + [x])[..|io|] == io;
  }

  /** Routing the head of what is left over. */
  lemma RouteHead(conn: Conn, r: Routed, rest: seq<SteamMessage>)
    requires Accounted(conn, [r.msg] + rest)
    ensures Accounted(conn.(routed := conn.routed + [r]), rest)
  {
    var next := conn.(routed := conn.routed + [r]);
    assert Messages(next.routed) + rest == Messages(conn.routed) + ([r.msg] + rest);
  }

  lemma DispatchAccounted(s: State, msg: SteamMessage, rest: seq<SteamMessage>)
    requires Accounted(s.conn, [msg] + rest)
    ensures Accounted(Dispatch(s, msg).conn, rest)
    ensures Dispatch(s, msg).conn.logoff == s.conn.logoff
    ensures Dispatch(s, msg).past == s.past && Dispatch(s, msg).inbox == s.inbox
  {
    var slot := Slot(s.desk, msg);
    if slot.Some? {
      RouteHead(s.conn, ToCaller(s.desk.pending[slot.value].cmd, msg), rest);
    } else {
      RouteHead(s.conn, Broadcast(msg), rest);
    }
  }

  lemma {:induction false} DispatchAllAccounted(s: State, ms: seq<SteamMessage>)
    requires Accounted(s.conn, ms)
    ensures Accounted(DispatchAll(s, ms).conn, [])
    ensures DispatchAll(s, ms).past == s.past && DispatchAll(s, ms).inbox == s.inbox
    decreases |ms|
  {
    if ms != [] {
      assert [ms[0]] + ms[1..] == ms;
      DispatchAccounted(s, ms[0], ms[1..]);
      DispatchAllAccounted(Dispatch(s, ms[0]), ms[1..]);
    }
  }

  /** Acting on a logoff takes exactly that message out of the account. */
  lemma LogoffAccounted(conn: Conn, msg: SteamMessage, rest: seq<SteamMessage>)
    requires Accounted(conn, [msg] + rest) && conn.logoff.None? && msg.emsg == EMSG_LOGGED_OFF
    ensures Accounted(conn.(logoff := Some(|conn.routed|)), rest)
  {
    var n := |conn.routed|;
    var next := conn.(logoff := Some(n));
    var all := DecodedOn(conn);
    assert all == Messages(conn.routed) + ([msg] + rest);
    assert all[n] == msg;
    assert all[..n] == Messages(conn.routed) && all[n + 1..] == rest;
    assert DecodedOn(next) == all;
  }

  lemma MessageAccounted(s: State, msg: SteamMessage)
    requires Accounted(s.conn, [msg] + s.inbox) && s.conn.logoff.None?
    ensures var turn := OnMessage(s, msg);
            && Accounted(turn.s.conn, turn.s.inbox)
            && turn.s.past == s.past
            && (turn.Again? ==> turn.s.conn.logoff.None?)
  {
    if msg.emsg == EMSG_LOGGED_OFF {
      LogoffAccounted(s.conn, msg, s.inbox);
    } else {
      DispatchAccounted(s, msg, s.inbox);
    }
  }

  /** Logging an arrival adds what it yields to the end of the account. */
  lemma LogAccounted(conn: Conn, x: Io, rest: seq<SteamMessage>)
    requires Accounted(conn, rest) && conn.logoff.None?
    ensures Accounted(conn.(io := conn.io + [x]), rest + (if x.Arrived? then Yield(x.what) else []))
  {
    var more := if x.Arrived? then Yield(x.what) else [];
    DecodedMore(conn, x);
    Appended(Messages(conn.routed), rest, more, DecodedOn(conn));
  }

  lemma DecodedMore(conn: Conn, x: Io)
    ensures DecodedOn(conn.(io := conn.io + [x])) == DecodedOn(conn) + (if x.Arrived? then Yield(x.what) else [])
  {
    ReceivedMore(conn.io, x);
  }

  lemma Appended(a: seq<SteamMessage>, b: seq<SteamMessage>, more: seq<SteamMessage>, all: seq<SteamMessage>)
    requires a + b == all
    ensures a + (b + more) == all + more
  {
  }

  lemma WireAccounted(s: State, what: Inbound)
    requires Accounted(s.conn, s.inbox) && s.conn.logoff.None? && s.phase.Connected? && s.inbox == []
    ensures var turn := OnWire(s, what);
            && Accounted(turn.s.conn, turn.s.inbox)
            && turn.s.past == s.past
            && (turn.Again? ==> turn.s.conn.logoff.None?)
  {
    ArrivalAccounted(s.conn, s.now, what);
    var seen := Log(s, Arrived(s.now, what))
                .(phase := if Touches(what) then s.phase.(lastFrame := s.now) else s.phase);
    var (rest, got) := Receive(what);
    if got.Message? {
      MessageAccounted(seen.(inbox := rest), got.msg);
    }
  }

  /** With nothing buffered, an arrival leaves its own messages to be routed. */
  lemma ArrivalAccounted(conn: Conn, at: nat, what: Inbound)
    requires Accounted(conn, []) && conn.logoff.None?
    ensures var next := conn.(io := conn.io + [Arrived(at, what)]);
            && Accounted(next, Yield(what))
            && (Yield(what) != [] ==> Accounted(next, [Yield(what)[0]] + Yield(what)[1..]))
  {
    LogAccounted(conn, Arrived(at, what), []);
    assert [] + Yield(what) == Yield(what);
    if Yield(what) != [] {
      assert [Yield(what)[0]] + Yield(what)[1..] == Yield(what);
    }
  }

  /** Writing never changes what was decoded. */
  lemma SendAccounted(s: State, emsg: nat, job: Option<nat>, body: Bytes)
    requires Accounted(s.conn, s.inbox) && s.conn.logoff.None?
    ensures Accounted(Send(s, emsg, job, body).conn, s.inbox)
  {
    LogAccounted(s.conn, Sent(s.now, Outgoing(s.steamId, s.sessionId, emsg, job, body)), s.inbox);
    assert s.inbox + [] == s.inbox;
  }

  lemma CommandAccounted(s: State, kind: Kind, wrote: bool)
    requires Accounted(s.conn, s.inbox) && s.conn.logoff.None?
    ensures var u := OnCommand(s, kind, wrote).s;
            Accounted(u.conn, u.inbox) && u.past == s.past && u.conn.logoff.None?
  {
    match kind
    case Notify(emsg, body) => SendAccounted(s, emsg, None, body);
    case Logoff => SendAccounted(s, EMSG_CLIENT_LOGOFF, None, []);
    case Request(emsg, body, _) => SendAccounted(s, emsg, Some(s.desk.nextJob), body);
  }

  lemma HeartbeatAccounted(s: State, wrote: bool, pinged: bool)
    requires Accounted(s.conn, s.inbox) && s.conn.logoff.None? && s.phase.Connected?
    ensures var u := OnHeartbeat(s, wrote, pinged).s;
            Accounted(u.conn, u.inbox) && u.past == s.past && u.conn.logoff.None?
  {
    SendAccounted(s, EMSG_CLIENT_HEARTBEAT, None, []);
    var beat := Send(s, EMSG_CLIENT_HEARTBEAT, None, []);
    LogAccounted(beat.conn, Pinged(s.now), s.inbox);
    assert s.inbox + [] == s.inbox;
  }

  lemma TurnAccounted(s: State, arm: Arm)
    requires Accounted(s.conn, s.inbox) && s.conn.logoff.None? && s.phase.Connected?
    requires (arm.Buffered? ==> s.inbox != []) && (arm.Wire? ==> s.inbox == [])
    ensures var turn := ConnectedTurn(s, arm);
            && Accounted(turn.s.conn, turn.s.inbox)
            && turn.s.past == s.past
            && (turn.Again? ==> turn.s.conn.logoff.None?)
  {
    match arm
    case Take(kind, wrote) => CommandAccounted(s, kind, wrote);
    case Buffered =>
      assert [s.inbox[0]] + s.inbox[1..] == s.inbox;
      MessageAccounted(s.(inbox := s.inbox[1..]), s.inbox[0]);
    case Wire(what) => WireAccounted(s, what);
    case Heartbeat(wrote, pinged) => HeartbeatAccounted(s, wrote, pinged);
    case _ =>
  }

  lemma StepStreamed(s: State, e: Event)
    requires Streamed(s) && Enabled(s, e)
    ensures Streamed(Step(s, e))
  {
    var t := s.(now := e.at);
    if e.arm.CallerGone? {
    } else if s.phase.Connected? {
      TurnAccounted(t, e.arm);
      TurnKeeps(t, e.arm);
      var turn := ConnectedTurn(t, e.arm);
      if turn.Leave? && turn.exit.Disconnected? {
        DispatchAllAccounted(turn.s.(inbox := []), turn.s.inbox);
      }
    } else {
      DownStreamed(t, e.arm);
    }
  }

  lemma DownStreamed(s: State, arm: Arm)
    requires Streamed(s) && (s.phase.Sleeping? || s.phase.Attempting?)
    ensures Streamed(DownStep(s, arm))
  {
    var t := DownStep(s, arm);
    if arm.AttemptOk? {
      assert Messages(t.conn.routed) + t.inbox == DecodedOn(t.conn);
    } else {
      assert t.conn == s.conn && t.inbox == s.inbox && t.past == s.past;
    }
  }

  lemma StartStreamed(link: Link, at: nat, decode: Bytes -> Option<Option<int>>)
    ensures Streamed(Start(link, at, decode))
  {
    var s := Start(link, at, decode);
    assert Messages(s.conn.routed) + s.inbox == DecodedOn(s.conn);
  }

  lemma {:induction false} RunStreamed(s: State, es: seq<Event>)
    requires Streamed(s) && Legal(s, es)
    ensures Streamed(Run(s, es))
    decreases |es|
  {
    if es != [] {
      StepStreamed(s, es[0]);
      RunStreamed(Step(s, es[0]), es[1..]);
    }
  }

  // ------------------------------------------------------------------
  // Whole runs
  // ------------------------------------------------------------------

  /**
   In every run: a connection that ended in a transport drop routed every message decoded
   on it, each once and in wire order; one that ended in a transient server logoff routed
   all but that logoff; on the live connection the same holds of what the inbox does not
   still hold.
   */
  lemma EveryMessageRouted(link: Link, at: nat, decode: Bytes -> Option<Option<int>>, es: seq<Event>)
    requires Legal(Start(link, at, decode), es)
    ensures var s := Run(Start(link, at, decode), es);
            && (forall k :: 0 <= k < |s.past| ==> LogoffOk(s.past[k]))
            && (forall k :: 0 <= k < |s.past| && s.past[k].logoff.None? ==>
                  Messages(s.past[k].routed) == DecodedOn(s.past[k]))
            && (forall k :: 0 <= k < |s.past| && s.past[k].logoff.Some? ==>
                  Messages(s.past[k].routed) == Without(DecodedOn(s.past[k]), s.past[k].logoff.value))
            && ((s.phase.Sleeping? || s.phase.Attempting?) && s.conn.logoff.None? ==>
                  Messages(s.conn.routed) == DecodedOn(s.conn))
            && (s.phase.Connected? ==> Messages(s.conn.routed) + s.inbox == DecodedOn(s.conn))
  {
    StartStreamed(link, at, decode);
    RunStreamed(Start(link, at, decode), es);
    var s := Run(Start(link, at, decode), es);
    forall k | 0 <= k < |s.past|
      ensures Accounted(s.past[k], []) && Messages(s.past[k].routed) + [] == Messages(s.past[k].routed)
    {
    }
    assert Messages(s.conn.routed) + [] == Messages(s.conn.routed);
  }

  // ------------------------------------------------------------------
  // The snapshot cache
  // ------------------------------------------------------------------

  predicate Pushes(r: Routed, emsg: nat) {
    r.Broadcast? && r.msg.emsg == emsg
  }

  /** The body of the first broadcast of `emsg`, if there was one. */
  function FirstPush(routed: seq<Routed>, emsg: nat): (b: Option<Bytes>)
    ensures b.None? ==> forall i :: 0 <= i < |routed| ==> !Pushes(routed[i], emsg)
    ensures b.Some? ==> exists i :: 0 <= i < |routed| && Pushes(routed[i], emsg) && routed[i].msg.body == b.value
                                    && forall k :: 0 <= k < i ==> !Pushes(routed[k], emsg)
  {
    if routed == [] then None
    else
      var before := FirstPush(routed[..|routed| - 1], emsg);
      if before.Some? then before
      else if Pushes(routed[|routed| - 1], emsg) then Some(routed[|routed| - 1].msg.body)
      else None
  }

  function Lookup(cache: map<nat, Bytes>, emsg: nat): Option<Bytes> {
    if emsg in cache then Some(cache[emsg]) else None
  }

  /** The cache holds, for each snapshot type, the first push of this logon and nothing else. */
  ghost predicate CacheExact(cache: map<nat, Bytes>, routed: seq<Routed>) {
    forall emsg :: Lookup(cache, emsg) == if emsg in SNAPSHOT_EMSGS then FirstPush(routed, emsg) else None
  }

  lemma FirstPushMore(routed: seq<Routed>, r: Routed, emsg: nat)
    ensures FirstPush(routed + [r], emsg)
            == if FirstPush(routed, emsg).Some? then FirstPush(routed, emsg)
               else if Pushes(r, emsg) then Some(r.msg.body)
               else None
  {
    assert (routed + [r])[..|routed|] == routed;
  }

  /** A broadcast is remembered if it is the first of its type. */
  lemma BroadcastCache(cache: map<nat, Bytes>, routed: seq<Routed>, msg: SteamMessage)
    requires CacheExact(cache, routed)
    ensures CacheExact(Remember(cache, msg), routed + [Broadcast(msg)])
  {
    forall emsg
      ensures Lookup(Remember(cache, msg), emsg)
              == if emsg in SNAPSHOT_EMSGS then FirstPush(routed + [Broadcast(msg)], emsg) else None
    {
      assert Lookup(cache, emsg) == if emsg in SNAPSHOT_EMSGS then FirstPush(routed, emsg) else None;
      FirstPushMore(routed, Broadcast(msg), emsg);
    }
  }

  lemma CallerCache(cache: map<nat, Bytes>, routed: seq<Routed>, c: nat, msg: SteamMessage)
    requires CacheExact(cache, routed)
    ensures CacheExact(cache, routed + [ToCaller(c, msg)])
  {
    forall emsg
      ensures Lookup(cache, emsg)
              == if emsg in SNAPSHOT_EMSGS then FirstPush(routed + [ToCaller(c, msg)], emsg) else None
    {
      assert Lookup(cache, emsg) == if emsg in SNAPSHOT_EMSGS then FirstPush(routed, emsg) else None;
      FirstPushMore(routed, ToCaller(c, msg), emsg);
    }
  }

  lemma DispatchCache(s: State, msg: SteamMessage)
    requires CacheExact(s.cache, s.conn.routed)
    ensures CacheExact(Dispatch(s, msg).cache, Dispatch(s, msg).conn.routed)
  {
    match Slot(s.desk, msg)
    case Some(job) => CallerCache(s.cache, s.conn.routed, s.desk.pending[job].cmd, msg);
    case None => BroadcastCache(s.cache, s.conn.routed, msg);
  }

  lemma {:induction false} DispatchAllCache(s: State, ms: seq<SteamMessage>)
    requires CacheExact(s.cache, s.conn.routed)
    ensures CacheExact(DispatchAll(s, ms).cache, DispatchAll(s, ms).conn.routed)
    decreases |ms|
  {
    if ms != [] {
      DispatchCache(s, ms[0]);
      DispatchAllCache(Dispatch(s, ms[0]), ms[1..]);
    }
  }

  lemma MessageCache(s: State, msg: SteamMessage)
    requires CacheExact(s.cache, s.conn.routed)
    ensures var u := OnMessage(s, msg).s; CacheExact(u.cache, u.conn.routed)
  {
    DispatchCache(s, msg);
  }

  lemma WireCache(s: State, what: Inbound)
    requires CacheExact(s.cache, s.conn.routed) && s.phase.Connected?
    ensures var u := OnWire(s, what).s; CacheExact(u.cache, u.conn.routed)
  {
    var seen := Log(s, Arrived(s.now, what))
                .(phase := if Touches(what) then s.phase.(lastFrame := s.now) else s.phase);
    var (rest, got) := Receive(what);
    if got.Message? {
      MessageCache(seen.(inbox := rest), got.msg);
    }
  }

  /** The other arms of the connected loop route nothing. */
  lemma OtherTurnRoutesNothing(s: State, arm: Arm)
    requires s.phase.Connected? && !arm.Buffered? && !arm.Wire?
    ensures var u := ConnectedTurn(s, arm).s; u.cache == s.cache && u.conn.routed == s.conn.routed
  {
  }

  lemma TurnCache(s: State, arm: Arm)
    requires CacheExact(s.cache, s.conn.routed) && s.phase.Connected? && (arm.Buffered? ==> s.inbox != [])
    ensures var u := ConnectedTurn(s, arm).s; CacheExact(u.cache, u.conn.routed)
  {
    if arm.Buffered? {
      MessageCache(s.(inbox := s.inbox[1..]), s.inbox[0]);
    } else if arm.Wire? {
      WireCache(s, arm.what);
    } else {
      OtherTurnRoutesNothing(s, arm);
    }
  }

  lemma ExitCache(s: State, exit: LoopExit)
    requires CacheExact(s.cache, s.conn.routed)
    ensures CacheExact(OnExit(s, exit).cache, OnExit(s, exit).conn.routed)
  {
    DispatchAllCache(s.(inbox := []), s.inbox);
  }

  /** While down nothing is routed; a new logon starts with nothing cached and nothing routed. */
  lemma DownCache(s: State, arm: Arm)
    requires s.phase.Sleeping? || s.phase.Attempting?
    ensures var t := DownStep(s, arm);
            if arm.AttemptOk? then t.cache == map[] && t.conn.routed == []
            else t.cache == s.cache && t.conn.routed == s.conn.routed
  {
  }

  lemma StepCache(s: State, e: Event)
    requires CacheExact(s.cache, s.conn.routed) && Enabled(s, e)
    ensures CacheExact(Step(s, e).cache, Step(s, e).conn.routed)
  {
    var t := s.(now := e.at);
    if e.arm.CallerGone? {
    } else if s.phase.Connected? {
      TurnCache(t, e.arm);
      var turn := ConnectedTurn(t, e.arm);
      if turn.Leave? {
        ExitCache(turn.s, turn.exit);
      }
    } else {
      DownCache(t, e.arm);
    }
  }

  lemma {:induction false} RunCache(s: State, es: seq<Event>)
    requires CacheExact(s.cache, s.conn.routed) && Legal(s, es)
    ensures CacheExact(Run(s, es).cache, Run(s, es).conn.routed)
    decreases |es|
  {
    if es != [] {
      StepCache(s, es[0]);
      RunCache(Step(s, es[0]), es[1..]);
    }
  }

  /** At all times the cache is exactly the first broadcasts of the logon in force. */
  lemma CacheIsFirstPush(link: Link, at: nat, decode: Bytes -> Option<Option<int>>, es: seq<Event>, emsg: nat)
    requires Legal(Start(link, at, decode), es)
    ensures var s := Run(Start(link, at, decode), es);
            Lookup(s.cache, emsg)
            == if emsg == 767 || emsg == 5553 || emsg == 5587 then FirstPush(s.conn.routed, emsg) else None
  {
    RunCache(Start(link, at, decode), es);
  }
}
