/** At most one answer each, and connection isolation, over every run of the driver. */
module SessionSafety {
  import opened Wrappers
  import opened LittleEndian
  import opened Codec
  import opened Connection
  import opened SessionModel
  import opened SessionDesk
  import opened SessionRouting

  /** Every frame written on a connection carries that connection's ids. */
  ghost predicate Stamped(conn: Conn) {
    forall i :: 0 <= i < |conn.io| && conn.io[i].Sent? ==>
      conn.io[i].frame.steamId == conn.link.steamId && conn.io[i].frame.sessionId == conn.link.sessionId
  }

  ghost predicate Sound(s: State) {
    && Books(s.desk, s.conn, s.past)
    && s.steamId == s.conn.link.steamId
    && s.sessionId == s.conn.link.sessionId
    && s.heartbeat == s.conn.link.heartbeat
    && (forall k :: 0 <= k <= |s.past| ==> Stamped(ConnAt(s.conn, s.past, k)))
    && (!s.phase.Connected? ==> s.desk.pending == map[])
  }

  /** `Sound` looks only at these parts of the state. */
  lemma SameSound(s: State, t: State)
    requires Sound(s)
    requires t.desk == s.desk && t.conn == s.conn && t.past == s.past
    requires t.steamId == s.steamId && t.sessionId == s.sessionId && t.heartbeat == s.heartbeat
    requires s.phase.Connected? ==> t.phase.Connected? || t.desk.pending == map[]
    ensures Sound(t)
  {
  }

  lemma DeskSound(s: State, d: Desk)
    requires Sound(s) && Books(d, s.conn, s.past) && (!s.phase.Connected? ==> d.pending == map[])
    ensures Sound(s.(desk := d))
  {
  }

  lemma LogSound(s: State, io: Io)
    requires Sound(s)
    requires io.Sent? ==> io.frame.steamId == s.steamId && io.frame.sessionId == s.sessionId
    ensures Sound(Log(s, io))
  {
    var next := s.conn.(io := s.conn.io + [io]);
    LogBooks(s.desk, s.conn, next, s.past);
    assert Stamped(ConnAt(s.conn, s.past, |s.past|));
    forall k | 0 <= k <= |s.past| ensures Stamped(ConnAt(next, s.past, k)) {
      assert Stamped(ConnAt(s.conn, s.past, k));
    }
  }

  lemma DispatchSound(s: State, msg: SteamMessage)
    requires Sound(s) && s.phase.Connected?
    ensures Sound(Dispatch(s, msg)) && Dispatch(s, msg).phase == s.phase
  {
    var slot := Slot(s.desk, msg);
    if slot.Some? {
      DeliverBooks(s.desk, s.conn, s.past, slot.value, msg);
    } else {
      BroadcastBooks(s.desk, s.conn, s.past, msg);
    }
    var t := Dispatch(s, msg);
    assert Stamped(ConnAt(s.conn, s.past, |s.past|));
    forall k | 0 <= k <= |t.past| ensures Stamped(ConnAt(t.conn, t.past, k)) {
      assert Stamped(ConnAt(s.conn, s.past, k));
    }
  }

  lemma {:induction false} DispatchAllSound(s: State, ms: seq<SteamMessage>)
    requires Sound(s) && s.phase.Connected?
    ensures Sound(DispatchAll(s, ms)) && DispatchAll(s, ms).phase == s.phase
    decreases |ms|
  {
    if ms != [] {
      DispatchSound(s, ms[0]);
      DispatchAllSound(Dispatch(s, ms[0]), ms[1..]);
    }
  }

  // ------------------------------------------------------------------
  // One step
  // ------------------------------------------------------------------

  lemma CommandSound(s: State, kind: Kind, wrote: bool)
    requires Sound(s) && s.phase.Connected?
    ensures var u := OnCommand(s, kind, wrote).s; u.phase == s.phase && Sound(u)
  {
    match kind
    case Notify(emsg, body) =>
      AnswerNowBooks(s.desk, s.conn, s.past, kind, s.now, Acked(wrote));
      var t := s.(desk := AnswerNow(s.desk, kind, s.now, Acked(wrote)));
      DeskSound(s, t.desk);
      LogSound(t, Sent(s.now, Outgoing(s.steamId, s.sessionId, emsg, None, body)));
    case Logoff =>
      AnswerNowBooks(s.desk, s.conn, s.past, kind, s.now, LogoffAcked);
      var t := s.(desk := AnswerNow(s.desk, kind, s.now, LogoffAcked));
      DeskSound(s, t.desk);
      LogSound(t, Sent(s.now, Outgoing(s.steamId, s.sessionId, EMSG_CLIENT_LOGOFF, None, [])));
    case Request(emsg, body, deadline) =>
      RequestSound(s, kind, wrote);
  }

  lemma RequestSound(s: State, kind: Kind, wrote: bool)
    requires Sound(s) && s.phase.Connected? && kind.Request?
    ensures Sound(OnCommand(s, kind, wrote).s)
  {
    if wrote {
      var frame := Outgoing(s.steamId, s.sessionId, kind.emsg, Some(s.desk.nextJob), kind.body);
      LogSound(s, Sent(s.now, frame));
      var t := Log(s, Sent(s.now, frame));
      assert t.conn.io[|s.conn.io|] == Sent(s.now, frame);
      OpenSlotBooks(t.desk, t.conn, t.past, kind, s.now);
      DeskSound(t, OpenSlot(s.desk, kind, s.now, |s.past|, |s.conn.routed|));
    } else {
      RefuseRequestBooks(s.desk, s.conn, s.past, kind, s.now);
      DeskSound(s, RefuseRequest(s.desk, kind, s.now));
    }
  }

  lemma MessageSound(s: State, msg: SteamMessage)
    requires Sound(s) && s.phase.Connected?
    ensures var u := OnMessage(s, msg).s; Sound(u) && u.phase == s.phase
  {
    if msg.emsg == EMSG_LOGGED_OFF {
      var next := s.conn.(logoff := Some(|s.conn.routed|));
      LogBooks(s.desk, s.conn, next, s.past);
      assert Stamped(ConnAt(s.conn, s.past, |s.past|));
      forall k | 0 <= k <= |s.past| ensures Stamped(ConnAt(next, s.past, k)) {
        assert Stamped(ConnAt(s.conn, s.past, k));
      }
    } else {
      DispatchSound(s, msg);
    }
  }

  lemma WireSound(s: State, what: Inbound)
    requires Sound(s) && s.phase.Connected?
    ensures var u := OnWire(s, what).s; Sound(u) && u.phase.Connected?
  {
    LogSound(s, Arrived(s.now, what));
    var seen := Log(s, Arrived(s.now, what))
                .(phase := if Touches(what) then s.phase.(lastFrame := s.now) else s.phase);
    SameSound(Log(s, Arrived(s.now, what)), seen);
    var (rest, got) := Receive(what);
    if got.Message? {
      SameSound(seen, seen.(inbox := rest));
      MessageSound(seen.(inbox := rest), got.msg);
    }
  }

  lemma HeartbeatSound(s: State, wrote: bool, pinged: bool)
    requires Sound(s) && s.phase.Connected?
    ensures var u := OnHeartbeat(s, wrote, pinged).s; Sound(u) && u.phase.Connected?
  {
    var frame := Outgoing(s.steamId, s.sessionId, EMSG_CLIENT_HEARTBEAT, None, []);
    LogSound(s, Sent(s.now, frame));
    var beat := Send(s, EMSG_CLIENT_HEARTBEAT, None, []);
    LogSound(beat, Pinged(s.now));
    SameSound(Log(beat, Pinged(s.now)),
              Log(beat, Pinged(s.now)).(phase := s.phase.(nextHeartbeat := s.now + s.heartbeat)));
  }

  lemma SweepSound(s: State)
    requires Sound(s) && s.phase.Connected?
    ensures var u := OnSweep(s).s; Sound(u) && u.phase.Connected?
  {
    var armed := s.(phase := s.phase.(nextSweep := s.now + PENDING_SWEEP_INTERVAL));
    SameSound(s, armed);
    SweepBooks(s.desk, s.conn, s.past, s.now);
    DeskSound(armed, SweepPending(s.desk, s.now));
  }

  lemma TurnSound(s: State, arm: Arm)
    requires Sound(s) && s.phase.Connected? && (arm.Buffered? ==> s.inbox != [])
    ensures var u := ConnectedTurn(s, arm).s; u.phase.Connected? && Sound(u)
  {
    match arm
    case Take(kind, wrote) => CommandSound(s, kind, wrote);
    case Buffered =>
      SameSound(s, s.(inbox := s.inbox[1..]));
      MessageSound(s.(inbox := s.inbox[1..]), s.inbox[0]);
    case Wire(what) => WireSound(s, what);
    case Heartbeat(wrote, pinged) => HeartbeatSound(s, wrote, pinged);
    case Sweep => SweepSound(s);
    case _ =>
  }

  lemma StopSound(s: State, final: SessionState)
    requires Sound(s)
    ensures Sound(Stop(s, final))
  {
    FailAllBooks(s.desk, s.conn, s.past, Stopped);
    DeskSound(s, FailAllPending(s.desk, Stopped));
    SameSound(s.(desk := FailAllPending(s.desk, Stopped)), Stop(s, final));
  }

  lemma GoDownSound(s: State)
    requires Sound(s) && s.phase.Connected?
    ensures Sound(GoDown(s))
  {
    SameSound(s, s.(inbox := []));
    DispatchAllSound(s.(inbox := []), s.inbox);
    var drained := DispatchAll(s.(inbox := []), s.inbox);
    FailAllBooks(drained.desk, drained.conn, drained.past, Reconnecting);
    DeskSound(drained, FailAllPending(drained.desk, Reconnecting));
    SameSound(drained.(desk := FailAllPending(drained.desk, Reconnecting)), GoDown(s));
  }

  lemma GoLiveSound(s: State, link: Link)
    requires Sound(s) && s.desk.pending == map[]
    ensures Sound(GoLive(s, link))
  {
    var t := GoLive(s, link);
    GoLiveBooks(s.desk, s.conn, s.past, t.conn);
    forall k | 0 <= k <= |t.past| ensures Stamped(ConnAt(t.conn, t.past, k)) {
      if k < |t.past| {
        assert Stamped(ConnAt(s.conn, s.past, k));
        assert ConnAt(t.conn, t.past, k) == ConnAt(s.conn, s.past, k);
      }
    }
  }

  lemma DownSound(s: State, arm: Arm)
    requires Sound(s) && (s.phase.Sleeping? || s.phase.Attempting?)
    ensures Sound(DownStep(s, arm))
  {
    match arm
    case NoHandles => StopSound(s, LoggedOff(Closed));
    case Take(kind, _) =>
      var outcome := match kind
                     case Logoff => LogoffAcked
                     case Request(_, _, _) => Refused(Reconnecting)
                     case Notify(_, _) => Acked(false);
      AnswerNowBooks(s.desk, s.conn, s.past, kind, s.now, outcome);
      DeskSound(s, AnswerNow(s.desk, kind, s.now, outcome));
      StopSound(s.(desk := AnswerNow(s.desk, kind, s.now, outcome)), LoggedOff(Closed));
    case AttemptOk(link) => GoLiveSound(s, link);
    case AttemptRejected => StopSound(s, GaveUp);
    case _ =>
  }

  lemma StepSound(s: State, e: Event)
    requires Sound(s) && Enabled(s, e)
    ensures Sound(Step(s, e))
  {
    var t := s.(now := e.at);
    SameSound(s, t);
    if e.arm.CallerGone? {
      GoneBooks(t.desk, t.conn, t.past, e.arm.cmd);
    } else if s.phase.Connected? {
      TurnSound(t, e.arm);
      var turn := ConnectedTurn(t, e.arm);
      if turn.Leave? {
        match turn.exit
        case Shutdown => StopSound(turn.s, LoggedOff(Closed));
        case LoggedOffBy(why) => StopSound(turn.s, LoggedOff(why));
        case Disconnected => GoDownSound(turn.s);
      }
    } else if !s.phase.Ended? {
      DownSound(t, e.arm);
    }
  }

  // ------------------------------------------------------------------
  // Whole runs
  // ------------------------------------------------------------------

  lemma StartSound(link: Link, at: nat, decode: Bytes -> Option<Option<int>>)
    ensures Sound(Start(link, at, decode))
  {
    var s := Start(link, at, decode);
    assert forall k :: 0 <= k <= |s.past| ==> Stamped(ConnAt(s.conn, s.past, k));
  }

  lemma {:induction false} RunSound(s: State, es: seq<Event>)
    requires Sound(s) && Legal(s, es)
    ensures Sound(Run(s, es))
    decreases |es|
  {
    if es != [] {
      StepSound(s, es[0]);
      RunSound(Step(s, es[0]), es[1..]);
    }
  }

  /** `s` is where some run of the driver leads. */
  ghost predicate Reaches(link: Link, at: nat, decode: Bytes -> Option<Option<int>>, es: seq<Event>, s: State) {
    Legal(Start(link, at, decode), es) && s == Run(Start(link, at, decode), es)
  }

  lemma ReachesSound(link: Link, at: nat, decode: Bytes -> Option<Option<int>>, es: seq<Event>, s: State)
    requires Reaches(link, at, decode, es, s)
    ensures Sound(s)
  {
    StartSound(link, at, decode);
    RunSound(Start(link, at, decode), es);
  }

  /**
   In every run: no command is answered twice, none while its slot is open, and each answer
   is of its command's kind; no command has two slots; a slot is reaped unanswered only when
   its caller is gone; and no slot is open while the session is not connected.
   */
  lemma AtMostOnce(link: Link, at: nat, decode: Bytes -> Option<Option<int>>, es: seq<Event>, s: State)
    requires Reaches(link, at, decode, es, s)
    ensures forall c :: 0 <= c < |s.desk.cmds| ==>
              && |s.desk.cmds[c].outcomes| <= 1
              && (s.desk.cmds[c].outcomes == [Abandoned] ==> c in s.desk.gone)
              && (s.desk.cmds[c].outcomes != [] ==> Fits(s.desk.cmds[c].kind, s.desk.cmds[c].outcomes[0]))
    ensures forall j :: j in s.desk.pending ==>
              s.desk.pending[j].cmd < |s.desk.cmds| && s.desk.cmds[s.desk.pending[j].cmd].outcomes == []
    ensures forall j, k :: j in s.desk.pending && k in s.desk.pending && s.desk.pending[j].cmd == s.desk.pending[k].cmd
              ==> j == k
    ensures !s.phase.Connected? ==> s.desk.pending == map[]
  {
    ReachesSound(link, at, decode, es, s);
    forall c | 0 <= c < |s.desk.cmds|
      ensures |s.desk.cmds[c].outcomes| <= 1
      ensures s.desk.cmds[c].outcomes == [Abandoned] ==> c in s.desk.gone
      ensures s.desk.cmds[c].outcomes != [] ==> Fits(s.desk.cmds[c].kind, s.desk.cmds[c].outcomes[0])
    {
      Balance(s.desk, c);
    }
    forall j | j in s.desk.pending
      ensures s.desk.pending[j].cmd < |s.desk.cmds| && s.desk.cmds[s.desk.pending[j].cmd].outcomes == []
    {
      assert SlotOk(s.desk, j);
      Balance(s.desk, s.desk.pending[j].cmd);
    }
    forall j, k | j in s.desk.pending && k in s.desk.pending && s.desk.pending[j].cmd == s.desk.pending[k].cmd
      ensures j == k
    {
      OneSlotEach(s.desk, j, k);
    }
  }

  /**
   A reply read on connection k completes only a request written on connection k, under
   that request's job id, and it is the first message there to target the job since the
   request was written; every request answered with a message was answered this way; open
   slots belong to the current connection; frames carry their connection's ids.
   */
  lemma EpochIsolation(link: Link, at: nat, decode: Bytes -> Option<Option<int>>, es: seq<Event>, s: State)
    requires Reaches(link, at, decode, es, s)
    ensures forall k, i :: 0 <= k <= |s.past| && 0 <= i < |ConnAt(s.conn, s.past, k).routed|
                           && ConnAt(s.conn, s.past, k).routed[i].ToCaller? ==>
              HandedOver(s.desk.cmds, ConnAt(s.conn, s.past, k), k, i)
    ensures forall c :: 0 <= c < |s.desk.cmds| ==> CmdRouted(s.desk.cmds, s.conn, s.past, c)
    ensures forall j :: j in s.desk.pending ==>
              SlotOk(s.desk, j) && s.desk.cmds[s.desk.pending[j].cmd].ticket.value.epoch == |s.past|
    ensures forall k :: 0 <= k <= |s.past| ==> Stamped(ConnAt(s.conn, s.past, k))
  {
    ReachesSound(link, at, decode, es, s);
    forall k, i | 0 <= k <= |s.past| && 0 <= i < |ConnAt(s.conn, s.past, k).routed|
                  && ConnAt(s.conn, s.past, k).routed[i].ToCaller?
      ensures HandedOver(s.desk.cmds, ConnAt(s.conn, s.past, k), k, i)
    {
      assert ConnOk(s.desk.cmds, ConnAt(s.conn, s.past, k), k);
    }
    forall j | j in s.desk.pending ensures SlotOk(s.desk, j) && SlotCurrent(s.desk, s.conn, |s.past|, j) {
    }
  }

  // ------------------------------------------------------------------
  // A drop answers from the inbox before it fails anyone
  // ------------------------------------------------------------------

  /** The first of `ms` that targets `job`. */
  function AnswerAmong(ms: seq<SteamMessage>, job: nat): Option<SteamMessage> {
    if ms == [] then None
    else if RealJob(ms[0].header.jobTarget) == Some(job) then Some(ms[0])
    else AnswerAmong(ms[1..], job)
  }

  lemma DispatchStep(s: State, msg: SteamMessage, j: nat)
    requires Sound(s) && j in s.desk.pending
    ensures var t := Dispatch(s, msg); var c := s.desk.pending[j].cmd;
            && c < |s.desk.cmds|
            && Grows(s.desk, t.desk)
            && if RealJob(msg.header.jobTarget) == Some(j) then t.desk.cmds[c].outcomes == [Replied(msg)]
               else j in t.desk.pending && t.desk.pending[j] == s.desk.pending[j]
  {
    assert SlotOk(s.desk, j) && CmdOk(s.desk, s.desk.pending[j].cmd);
    var slot := Slot(s.desk, msg);
    if slot.Some? {
      DeliverOk(s.desk, slot.value, msg);
    }
  }

  lemma DispatchGrows(s: State, msg: SteamMessage)
    requires Sound(s)
    ensures Grows(s.desk, Dispatch(s, msg).desk)
  {
    var slot := Slot(s.desk, msg);
    if slot.Some? {
      DeliverOk(s.desk, slot.value, msg);
    }
  }

  lemma {:induction false} DispatchAllGrows(s: State, ms: seq<SteamMessage>)
    requires Sound(s) && s.phase.Connected?
    ensures Grows(s.desk, DispatchAll(s, ms).desk)
    decreases |ms|
  {
    if ms != [] {
      DispatchGrows(s, ms[0]);
      DispatchSound(s, ms[0]);
      DispatchAllGrows(Dispatch(s, ms[0]), ms[1..]);
    }
  }

  lemma {:induction false} DispatchAllAnswers(s: State, ms: seq<SteamMessage>, j: nat)
    requires Sound(s) && s.phase.Connected? && j in s.desk.pending
    ensures var t := DispatchAll(s, ms); var c := s.desk.pending[j].cmd;
            && c < |s.desk.cmds| <= |t.desk.cmds|
            && if AnswerAmong(ms, j).Some? then t.desk.cmds[c].outcomes == [Replied(AnswerAmong(ms, j).value)]
               else j in t.desk.pending && t.desk.pending[j] == s.desk.pending[j]
    decreases |ms|
  {
    assert SlotOk(s.desk, j);
    if ms != [] {
      DispatchStep(s, ms[0], j);
      DispatchSound(s, ms[0]);
      if RealJob(ms[0].header.jobTarget) == Some(j) {
        DispatchAllGrows(Dispatch(s, ms[0]), ms[1..]);
      } else {
        DispatchAllAnswers(Dispatch(s, ms[0]), ms[1..], j);
      }
    }
  }

  lemma DropAnswers(s: State, j: nat)
    requires Sound(s) && s.phase.Connected? && j in s.desk.pending
    ensures var c := s.desk.pending[j].cmd;
            && c < |s.desk.cmds| <= |GoDown(s).desk.cmds|
            && GoDown(s).desk.cmds[c].outcomes ==
               match AnswerAmong(s.inbox, j)
               case Some(msg) => [Replied(msg)]
               case None => [Refused(Reconnecting)]
  {
    var idle := s.(inbox := []);
    SameSound(s, idle);
    DispatchAllAnswers(idle, s.inbox, j);
    DispatchAllSound(idle, s.inbox);
    var d := DispatchAll(idle, s.inbox).desk;
    if AnswerAmong(s.inbox, j).Some? {
      FailAllKeeps(d, Reconnecting, s.desk.pending[j].cmd);
    } else {
      FailAllRefuses(d, Reconnecting, j);
    }
  }

  /** Failing everyone answers the holder of a slot with the reason. */
  lemma FailAllRefuses(d: Desk, reason: Reason, j: nat)
    requires DeskOk(d) && j in d.pending
    ensures d.pending[j].cmd < |d.cmds|
    ensures FailAllPending(d, reason).cmds[d.pending[j].cmd].outcomes == [Refused(reason)]
  {
    assert SlotOk(d, j);
    Balance(d, d.pending[j].cmd);
  }

  /** And leaves those already answered alone. */
  lemma FailAllKeeps(d: Desk, reason: Reason, c: nat)
    requires DeskOk(d) && c < |d.cmds| && d.cmds[c].outcomes != []
    ensures FailAllPending(d, reason).cmds[c].outcomes == d.cmds[c].outcomes
  {
    Balance(d, c);
  }

  /**
   In every run, when the connection drops, an open request whose reply already sits in the
   inbox is answered with it; only the others are told the session is reconnecting.
   */
  lemma DropAnswersFirst(
    link: Link, at: nat, decode: Bytes -> Option<Option<int>>, es: seq<Event>, s: State, j: nat)
    requires Reaches(link, at, decode, es, s) && s.phase.Connected? && j in s.desk.pending
    ensures var c := s.desk.pending[j].cmd;
            && c < |s.desk.cmds| <= |GoDown(s).desk.cmds|
            && GoDown(s).desk.cmds[c].outcomes ==
               match AnswerAmong(s.inbox, j)
               case Some(msg) => [Replied(msg)]
               case None => [Refused(Reconnecting)]
  {
    ReachesSound(link, at, decode, es, s);
    DropAnswers(s, j);
  }
}
