/**
 What becomes of a logoff the server sends: it is heeded when the driver takes it off the
 inbox or the wire, and only routed when a drop drains the inbox it waits in.
 */
module SessionLogoff {
  import opened Wrappers
  import opened LittleEndian
  import opened Codec
  import opened Connection
  import opened SessionModel
  import opened SessionBasics

  /** The message an arm takes: the head of the inbox, or the first of an arrival. */
  function Taken(s: State, arm: Arm): Option<SteamMessage> {
    match arm
    case Buffered => if s.inbox != [] then Some(s.inbox[0]) else None
    case Wire(what) => if !Fatal(what) && Yield(what) != [] then Some(Yield(what)[0]) else None
    case _ => None
  }

  /** What the inbox holds after the arm. */
  function Left(s: State, arm: Arm): seq<SteamMessage> {
    match arm
    case Buffered => if s.inbox != [] then s.inbox[1..] else []
    case Wire(what) => if !Fatal(what) && Yield(what) != [] then Yield(what)[1..] else s.inbox
    case _ => s.inbox
  }

  /** The driver is connected and the message it takes is a logoff. */
  predicate TakesLogoff(s: State, arm: Arm) {
    s.phase.Connected? && Taken(s, arm).Some? && Taken(s, arm).value.emsg == 757
  }

  /** What the logoff taken decodes to: nothing, no code, or a code. */
  function LogoffCode(s: State, arm: Arm): Option<Option<int>>
    requires TakesLogoff(s, arm)
  {
    s.decodeLoggedOff(Taken(s, arm).value.body)
  }

  /** The three codes that reconnecting heals: no connection, service unavailable, try another CM. */
  predicate Heals(d: Option<Option<int>>) {
    d == Some(Some(3)) || d == Some(Some(20)) || d == Some(Some(48))
  }

  /** The reason published for a logoff: none it decodes to, or its code, an absent one counting as 2. */
  function Reason(d: Option<Option<int>>): Why {
    if d.None? then Undecodable else ByServer(if d.value.Some? then d.value.value else 2)
  }

  predicate TakesTerminalLogoff(s: State, arm: Arm) {
    TakesLogoff(s, arm) && !Heals(LogoffCode(s, arm))
  }

  /** The session is over because the server said so. */
  predicate EndedByServer(s: State) {
    && s.phase.Ended?
    && s.published != []
    && var last := s.published[|s.published| - 1];
       last.LoggedOff? && !last.why.Closed?
  }

  lemma LogoffTurn(s: State, arm: Arm)
    requires TakesLogoff(s, arm) && (arm.Buffered? ==> s.inbox != [])
    ensures var turn := ConnectedTurn(s, arm); var d := LogoffCode(s, arm);
            turn.Leave? && turn.exit == (if Heals(d) then Disconnected else LoggedOffBy(Reason(d)))
  {
  }

  lemma TurnByServer(s: State, arm: Arm)
    requires s.phase.Connected? && (arm.Buffered? ==> s.inbox != [])
    ensures var turn := ConnectedTurn(s, arm);
            turn.Leave? && turn.exit.LoggedOffBy? <==> TakesTerminalLogoff(s, arm)
    ensures var turn := ConnectedTurn(s, arm);
            turn.Leave? && turn.exit.LoggedOffBy? ==> !turn.exit.why.Closed?
  {
    if TakesLogoff(s, arm) {
      LogoffTurn(s, arm);
    }
  }

  lemma ExitByServer(s: State, exit: LoopExit)
    requires exit.LoggedOffBy? ==> !exit.why.Closed?
    ensures EndedByServer(OnExit(s, exit)) <==> exit.LoggedOffBy?
  {
  }

  /**
   What taking a logoff does: the session reconnects on codes 3, 20 and 48, and on anything
   else it ends, publishing why.
   */
  lemma LogoffStep(s: State, e: Event)
    requires Enabled(s, e) && TakesLogoff(s, e.arm)
    ensures var t := Step(s, e); var d := LogoffCode(s, e.arm);
            && (t.phase.Sleeping? <==> d == Some(Some(3)) || d == Some(Some(20)) || d == Some(Some(48)))
            && (!t.phase.Sleeping? ==> t.phase.Ended?)
            && (t.phase.Ended? && d.None? ==> t.published == s.published + [LoggedOff(Undecodable)])
            && (t.phase.Ended? && d == Some(None) ==> t.published == s.published + [LoggedOff(ByServer(2))])
            && (t.phase.Ended? && d.Some? && d.value.Some? ==>
                  t.published == s.published + [LoggedOff(ByServer(d.value.value))])
  {
    var t := s.(now := e.at);
    LogoffTurn(t, e.arm);
    TurnKeeps(t, e.arm);
  }

  /** A step ends the session on the server's word exactly when it takes a terminal logoff. */
  lemma LogoffEndsIff(s: State, e: Event)
    requires Enabled(s, e) && !s.phase.Ended?
    ensures EndedByServer(Step(s, e)) <==> TakesTerminalLogoff(s, e.arm)
  {
    var t := s.(now := e.at);
    if !e.arm.CallerGone? && s.phase.Connected? {
      TurnByServer(t, e.arm);
      TurnKeeps(t, e.arm);
      var turn := ConnectedTurn(t, e.arm);
      if turn.Leave? {
        ExitByServer(turn.s, turn.exit);
      }
    }
  }

  /** Some step of the run takes a terminal logoff. */
  ghost predicate Heeded(s: State, es: seq<Event>)
    requires Legal(s, es)
    decreases |es|
  {
    es != [] && (TakesTerminalLogoff(s, es[0].arm) || Heeded(Step(s, es[0]), es[1..]))
  }

  lemma {:induction false} AlreadyEnded(s: State, es: seq<Event>)
    requires s.phase.Ended? && Legal(s, es)
    ensures EndedByServer(Run(s, es)) <==> EndedByServer(s)
    decreases |es|
  {
    if es != [] {
      AlreadyEnded(Step(s, es[0]), es[1..]);
    }
  }

  lemma {:induction false} EndedByServerFrom(s: State, es: seq<Event>)
    requires Legal(s, es) && !s.phase.Ended?
    ensures EndedByServer(Run(s, es)) <==> Heeded(s, es)
    decreases |es|
  {
    if es != [] {
      var t := Step(s, es[0]);
      LogoffEndsIff(s, es[0]);
      if t.phase.Ended? {
        AlreadyEnded(t, es[1..]);
        EndedHeedsNothing(t, es[1..]);
      } else {
        EndedByServerFrom(t, es[1..]);
      }
    }
  }

  lemma {:induction false} EndedHeedsNothing(s: State, es: seq<Event>)
    requires s.phase.Ended? && Legal(s, es)
    ensures !Heeded(s, es)
    decreases |es|
  {
    if es != [] {
      EndedHeedsNothing(Step(s, es[0]), es[1..]);
    }
  }

  /** In every run: the server ended the session if and only if a terminal logoff was taken. */
  lemma EndedByServerIff(link: Link, at: nat, decode: Bytes -> Option<Option<int>>, es: seq<Event>)
    requires Legal(Start(link, at, decode), es)
    ensures EndedByServer(Run(Start(link, at, decode), es)) <==> Heeded(Start(link, at, decode), es)
  {
    EndedByServerFrom(Start(link, at, decode), es);
  }

  // ------------------------------------------------------------------
  // A drop drains the inbox without heeding it
  // ------------------------------------------------------------------

  /** `ms` was routed after `before`, in order, to subscribers where it names no job. */
  ghost predicate RoutedAfter(before: seq<Routed>, after: seq<Routed>, ms: seq<SteamMessage>) {
    && |after| == |before| + |ms|
    && before <= after
    && forall i :: 0 <= i < |ms| ==>
         && after[|before| + i].msg == ms[i]
         && (RealJob(ms[i].header.jobTarget).None? ==> after[|before| + i] == Broadcast(ms[i]))
  }

  lemma {:induction false} DispatchAllRoutes(s: State, ms: seq<SteamMessage>)
    ensures RoutedAfter(s.conn.routed, DispatchAll(s, ms).conn.routed, ms)
    decreases |ms|
  {
    if ms != [] {
      var t := Dispatch(s, ms[0]);
      DispatchAllRoutes(t, ms[1..]);
      var after := DispatchAll(s, ms).conn.routed;
      forall i | 0 <= i < |ms|
        ensures after[|s.conn.routed| + i].msg == ms[i]
        ensures RealJob(ms[i].header.jobTarget).None? ==> after[|s.conn.routed| + i] == Broadcast(ms[i])
      {
        if i > 0 {
          assert after[|t.conn.routed| + (i - 1)].msg == ms[1..][i - 1];
        } else {
          assert after[|s.conn.routed|] == t.conn.routed[|s.conn.routed|];
        }
      }
    }
  }

  /** A turn that ends in a drop has routed nothing and left the inbox as `Left` says. */
  lemma TurnDrops(s: State, arm: Arm)
    requires s.phase.Connected? && (arm.Buffered? ==> s.inbox != []) && (arm.Wire? ==> s.inbox == [])
    requires ConnectedTurn(s, arm).Leave? && ConnectedTurn(s, arm).exit.Disconnected?
    ensures var u := ConnectedTurn(s, arm).s; u.conn.routed == s.conn.routed && u.inbox == Left(s, arm)
  {
  }

  /**
   When a step drops the connection, everything left in the inbox is routed in order, any
   logoff among it like the rest, and the session goes on to reconnect.
   */
  lemma DropRoutesInbox(s: State, e: Event)
    requires Enabled(s, e) && s.phase.Connected? && !Step(s, e).phase.Connected? && !Step(s, e).phase.Ended?
    ensures RoutedAfter(s.conn.routed, Step(s, e).conn.routed, Left(s, e.arm))
    ensures Step(s, e).phase.Sleeping? && Step(s, e).inbox == []
    ensures Step(s, e).published == s.published + [Connecting]
  {
    var t := s.(now := e.at);
    if !e.arm.CallerGone? {
      TurnKeeps(t, e.arm);
      TurnDrops(t, e.arm);
      var u := ConnectedTurn(t, e.arm).s;
      DispatchAllRoutes(u.(inbox := []), u.inbox);
      DispatchAllKeeps(u.(inbox := []), u.inbox);
    }
  }

  lemma WaitingLogoffDropped(s: State, at: nat, logoff: SteamMessage, emsg: nat, body: Bytes)
    requires s.phase.Connected? && s.now <= at && s.inbox == [logoff] && s.conn.routed == []
    requires logoff.header.jobTarget.None?
    ensures var e := Event(at, Take(Notify(emsg, body), false));
            && Enabled(s, e) && Step(s, e).phase.Sleeping? && Step(s, e).conn.routed == [Broadcast(logoff)]
  {
    var e := Event(at, Take(Notify(emsg, body), false));
    var t := s.(now := at);
    TurnKeeps(t, e.arm);
    DropRoutesInbox(s, e);
  }

  /**
   So a terminal logoff that was decoded need not end the session: with one waiting in the
   inbox, a failed write routes it and reconnects, where taking it would have ended there.
   */
  lemma TerminalLogoffMissed(
    link: Link, at: nat, decode: Bytes -> Option<Option<int>>, logoff: SteamMessage, emsg: nat, body: Bytes)
    requires link.inbox == [logoff] && logoff.emsg == 757 && logoff.header.jobTarget.None?
    requires !Heals(decode(logoff.body))
    ensures var s := Start(link, at, decode);
            var dropped := Event(at, Take(Notify(emsg, body), false));
            var taken := Event(at, Buffered);
            && Enabled(s, dropped) && Enabled(s, taken)
            && Step(s, dropped).phase.Sleeping?
            && Step(s, dropped).conn.routed == [Broadcast(logoff)]
            && EndedByServer(Step(s, taken))
  {
    WaitingLogoffDropped(Start(link, at, decode), at, logoff, emsg, body);
    LogoffEndsIff(Start(link, at, decode), Event(at, Buffered));
  }
}
