/**
 The read-idle watchdog and the request slots under a clock. Runs here are prompt: time
 does not pass a due timer, so timers fire when they are due, and writes take no time.
 */
module SessionTiming {
  import opened Wrappers
  import opened Backoff
  import opened LittleEndian
  import opened Codec
  import opened Connection
  import opened SessionModel
  import opened SessionDesk
  import opened SessionSafety
  import opened SessionLifecycle

  predicate Prompt(s: State, e: Event) {
    match s.phase
    case Connected(heartbeat, sweep, _) => e.at <= heartbeat && e.at <= sweep
    case Sleeping(_, backoff, since) => e.at <= since + backoff
    case _ => true
  }

  ghost predicate PromptRun(s: State, es: seq<Event>)
    decreases |es|
  {
    es != [] ==> Enabled(s, es[0]) && Prompt(s, es[0]) && PromptRun(Step(s, es[0]), es[1..])
  }

  lemma {:induction false} PromptIsLegal(s: State, es: seq<Event>)
    requires PromptRun(s, es)
    ensures Legal(s, es)
    decreases |es|
  {
    if es != [] {
      PromptIsLegal(Step(s, es[0]), es[1..]);
    }
  }

  /** A frame of any kind: proof that the peer is alive. */
  predicate Life(x: Io) {
    x.Arrived? && !x.what.Lost?
  }

  /** When the last frame arrived on a connection, or when it started. */
  function LastHeard(io: seq<Io>, since: nat): nat {
    if io == [] then since
    else if Life(io[|io| - 1]) then io[|io| - 1].at
    else LastHeard(io[..|io| - 1], since)
  }

  /** The first probe sent since the last frame arrived. */
  function Unanswered(io: seq<Io>): Option<nat> {
    if io == [] then None
    else
      var last := io[|io| - 1];
      if Life(last) then None
      else
        var before := Unanswered(io[..|io| - 1]);
        if before.None? && last.Pinged? then Some(last.at) else before
  }

  // ------------------------------------------------------------------
  // The clock invariant
  // ------------------------------------------------------------------

  ghost predicate ClockOk(phase: Phase, now: nat, heartbeat: nat, io: seq<Io>, since: nat)
    requires phase.Connected?
  {
    && heartbeat >= SECOND
    && phase.lastFrame == LastHeard(io, since)
    && phase.lastFrame <= now
    && now <= phase.nextSweep <= now + SECOND
    && now <= phase.nextHeartbeat <= now + heartbeat
    && phase.nextSweep <= phase.lastFrame + IdleTimeout(heartbeat) + SECOND
    && (match Unanswered(io)
        case None => phase.nextHeartbeat <= phase.lastFrame + heartbeat
        case Some(probe) => probe <= phase.lastFrame + heartbeat)
  }

  ghost predicate Timed(s: State) {
    s.phase.Connected? ==> ClockOk(s.phase, s.now, s.heartbeat, s.conn.io, s.conn.since)
  }

  lemma Appended(io: seq<Io>, x: Io, since: nat)
    ensures LastHeard(io + [x], since) == if Life(x) then x.at else LastHeard(io, since)
    ensures Unanswered(io + [x]) == if Life(x) then None
                                    else if Unanswered(io).None? && x.Pinged? then Some(x.at)
                                    else Unanswered(io)
  {
    assert (io + [x])[..|io|] == io;
  }

  lemma DispatchKeepsClock(s: State, msg: SteamMessage)
    ensures var t := Dispatch(s, msg);
            && t.phase == s.phase && t.now == s.now && t.heartbeat == s.heartbeat
            && t.conn.io == s.conn.io && t.conn.since == s.conn.since
  {
  }

  lemma CommandTimed(s: State, kind: Kind, wrote: bool)
    requires s.phase.Connected? && Timed(s)
    ensures Timed(OnCommand(s, kind, wrote).s)
  {
    match kind
    case Notify(emsg, body) =>
      Appended(s.conn.io, Sent(s.now, Outgoing(s.steamId, s.sessionId, emsg, None, body)), s.conn.since);
    case Logoff =>
      Appended(s.conn.io, Sent(s.now, Outgoing(s.steamId, s.sessionId, EMSG_CLIENT_LOGOFF, None, [])), s.conn.since);
    case Request(emsg, body, _) =>
      var frame := Outgoing(s.steamId, s.sessionId, emsg, Some(s.desk.nextJob), body);
      Appended(s.conn.io, Sent(s.now, frame), s.conn.since);
  }

  lemma WireTimed(s: State, what: Inbound)
    requires s.phase.Connected? && Timed(s)
    ensures Timed(OnWire(s, what).s)
  {
    Appended(s.conn.io, Arrived(s.now, what), s.conn.since);
    var seen := Log(s, Arrived(s.now, what))
                .(phase := if Touches(what) then s.phase.(lastFrame := s.now) else s.phase);
    assert Timed(seen);
    var (rest, got) := Receive(what);
    if got.Message? {
      DispatchKeepsClock(seen.(inbox := rest), got.msg);
    }
  }

  lemma HeartbeatTimed(s: State, wrote: bool, pinged: bool)
    requires s.phase.Connected? && Timed(s) && s.now == s.phase.nextHeartbeat
    ensures Timed(OnHeartbeat(s, wrote, pinged).s)
  {
    var sent := Sent(s.now, Outgoing(s.steamId, s.sessionId, EMSG_CLIENT_HEARTBEAT, None, []));
    Appended(s.conn.io, sent, s.conn.since);
    Appended(s.conn.io + [sent], Pinged(s.now), s.conn.since);
  }

  lemma TurnTimed(s: State, arm: Arm)
    requires s.phase.Connected? && Timed(s) && (arm.Buffered? ==> s.inbox != [])
    requires arm.Heartbeat? ==> s.now == s.phase.nextHeartbeat
    ensures var turn := ConnectedTurn(s, arm); turn.Again? ==> Timed(turn.s)
  {
    match arm
    case Take(kind, wrote) => CommandTimed(s, kind, wrote);
    case Buffered => DispatchKeepsClock(s.(inbox := s.inbox[1..]), s.inbox[0]);
    case Wire(what) => WireTimed(s, what);
    case Heartbeat(wrote, pinged) => HeartbeatTimed(s, wrote, pinged);
    case _ =>
  }

  lemma StepTimed(s: State, e: Event)
    requires Timed(s) && Enabled(s, e) && Prompt(s, e)
    ensures Timed(Step(s, e))
  {
    var t := s.(now := e.at);
    if s.phase.Connected? {
      assert Timed(t);
      if !e.arm.CallerGone? {
        TurnTimed(t, e.arm);
      }
    } else if !e.arm.CallerGone? {
      DownTimed(t, e.arm);
    }
  }

  lemma DownTimed(s: State, arm: Arm)
    requires s.phase.Sleeping? || s.phase.Attempting?
    requires arm.AttemptOk? ==> arm.link.heartbeat >= SECOND
    ensures Timed(DownStep(s, arm))
  {
  }

  lemma {:induction false} RunTimed(s: State, es: seq<Event>)
    requires Timed(s) && PromptRun(s, es)
    ensures Legal(s, es) && Timed(Run(s, es))
    decreases |es|
  {
    PromptIsLegal(s, es);
    if es != [] {
      StepTimed(s, es[0]);
      RunTimed(Step(s, es[0]), es[1..]);
    }
  }

  // ------------------------------------------------------------------
  // The watchdog
  // ------------------------------------------------------------------

  /** Each probe sent at least five heartbeats ago was followed by a frame within that time. */
  ghost predicate Responsive(conn: Conn, heartbeat: nat, now: nat) {
    forall i :: 0 <= i < |conn.io| && conn.io[i].Pinged? && now >= conn.io[i].at + 5 * heartbeat ==>
      exists k :: i < k < |conn.io| && Life(conn.io[k]) && conn.io[k].at < conn.io[i].at + 5 * heartbeat
  }

  /** An unanswered probe is in the log with no frame after it. */
  lemma {:induction false} UnansweredAt(io: seq<Io>) returns (i: nat)
    requires Unanswered(io).Some?
    ensures i < |io| && io[i] == Pinged(Unanswered(io).value)
    ensures forall k :: i < k < |io| ==> !Life(io[k])
  {
    var n := |io| - 1;
    if Unanswered(io[..n]).Some? {
      i := UnansweredAt(io[..n]);
      forall k | i < k < |io| ensures !Life(io[k]) {
        if k < n {
          assert io[k] == io[..n][k];
        }
      }
    } else {
      i := n;
    }
  }

  /**
   Soundness: in a prompt run over any heartbeat of at least a second, a sweep never
   declares dead a peer that answers each probe with some frame within five heartbeats.
   */
  lemma WatchdogSparesTheLiving(
    link: Link, at: nat, decode: Bytes -> Option<Option<int>>, es: seq<Event>, e: Event)
    requires link.heartbeat >= SECOND && PromptRun(Start(link, at, decode), es)
    requires Legal(Start(link, at, decode), es)
    requires var s := Run(Start(link, at, decode), es);
             e.arm.Sweep? && Enabled(s, e) && Prompt(s, e) && Responsive(s.conn, s.heartbeat, e.at)
    ensures Step(Run(Start(link, at, decode), es), e).phase.Connected?
  {
    RunTimed(Start(link, at, decode), es);
    var s := Run(Start(link, at, decode), es);
    var probe := Unanswered(s.conn.io);
    if probe.Some? {
      var i := UnansweredAt(s.conn.io);
      if e.at >= probe.value + 5 * s.heartbeat {
        assert false;
      }
    }
    assert e.at < s.phase.lastFrame + 6 * s.heartbeat;
  }

  /**
   Completeness: in a prompt run the driver stays connected no later than the idle timeout
   plus one sweep after the last frame it heard, and a sweep past the timeout disconnects.
   */
  lemma WatchdogCatchesTheDead(
    link: Link, at: nat, decode: Bytes -> Option<Option<int>>, es: seq<Event>)
    requires link.heartbeat >= SECOND && PromptRun(Start(link, at, decode), es)
    ensures Legal(Start(link, at, decode), es)
    ensures var s := Run(Start(link, at, decode), es);
            s.phase.Connected? ==>
              s.now <= LastHeard(s.conn.io, s.conn.since) + Max(6 * s.heartbeat, 60 * SECOND) + SECOND
    ensures var s := Run(Start(link, at, decode), es);
            forall t: nat ::
              (&& s.phase.Connected?
               && Enabled(s, Event(t, Sweep))
               && t >= LastHeard(s.conn.io, s.conn.since) + Max(6 * s.heartbeat, 60 * SECOND))
              ==> Step(s, Event(t, Sweep)).phase.Sleeping?
  {
    RunTimed(Start(link, at, decode), es);
  }

  // ------------------------------------------------------------------
  // Request slots
  // ------------------------------------------------------------------

  /** The next sweep comes within a second of a slot being both taken and overdue. */
  ghost predicate SlotSoon(d: Desk, nextSweep: nat, j: nat)
    requires j in d.pending
  {
    d.pending[j].cmd < |d.cmds| ==>
      nextSweep <= Max(d.cmds[d.pending[j].cmd].at, d.pending[j].deadline) + SECOND
  }

  ghost predicate SlotsSoon(s: State) {
    s.phase.Connected? ==> forall j :: j in s.desk.pending ==> SlotSoon(s.desk, s.phase.nextSweep, j)
  }

  /** Fewer slots, same commands: still within bounds. */
  lemma FewerSlots(d: Desk, e: Desk, nextSweep: nat)
    requires forall j :: j in d.pending ==> SlotOk(d, j) && SlotSoon(d, nextSweep, j)
    requires Grows(d, e)
    requires forall j :: j in e.pending ==> j in d.pending && e.pending[j] == d.pending[j]
    ensures forall j :: j in e.pending ==> SlotSoon(e, nextSweep, j)
  {
    forall j | j in e.pending ensures SlotSoon(e, nextSweep, j) {
      assert SlotOk(d, j) && SlotSoon(d, nextSweep, j);
    }
  }

  lemma DispatchSoon(s: State, msg: SteamMessage)
    requires Sound(s) && SlotsSoon(s) && s.phase.Connected?
    ensures SlotsSoon(Dispatch(s, msg))
  {
    DispatchGrows(s, msg);
    assert forall j :: j in s.desk.pending ==> SlotOk(s.desk, j);
    FewerSlots(s.desk, Dispatch(s, msg).desk, s.phase.nextSweep);
  }

  lemma MessageSoon(s: State, msg: SteamMessage)
    requires Sound(s) && SlotsSoon(s) && s.phase.Connected?
    ensures SlotsSoon(OnMessage(s, msg).s)
  {
    DispatchSoon(s, msg);
  }

  lemma WireSoon(s: State, what: Inbound)
    requires Sound(s) && SlotsSoon(s) && s.phase.Connected?
    ensures SlotsSoon(OnWire(s, what).s)
  {
    LogSound(s, Arrived(s.now, what));
    var seen := Log(s, Arrived(s.now, what))
                .(phase := if Touches(what) then s.phase.(lastFrame := s.now) else s.phase);
    SameSound(Log(s, Arrived(s.now, what)), seen);
    var (rest, got) := Receive(what);
    if got.Message? {
      SameSound(seen, seen.(inbox := rest));
      MessageSoon(seen.(inbox := rest), got.msg);
    }
  }

  lemma CommandSoon(s: State, kind: Kind, wrote: bool)
    requires Sound(s) && SlotsSoon(s) && Timed(s) && s.phase.Connected?
    ensures SlotsSoon(OnCommand(s, kind, wrote).s)
  {
    var u := OnCommand(s, kind, wrote).s;
    forall j | j in u.desk.pending ensures SlotSoon(u.desk, u.phase.nextSweep, j) {
      if j in s.desk.pending && u.desk.pending[j] == s.desk.pending[j] {
        assert SlotOk(s.desk, j) && SlotSoon(s.desk, s.phase.nextSweep, j);
      }
    }
  }

  lemma SweepSoon(s: State)
    requires Sound(s) && SlotsSoon(s) && s.phase.Connected?
    ensures OnSweep(s).Again? ==> SlotsSoon(OnSweep(s).s)
  {
    SweepPendingOk(s.desk, s.now);
    var u := OnSweep(s).s;
    if OnSweep(s).Again? {
      forall j | j in u.desk.pending ensures SlotSoon(u.desk, u.phase.nextSweep, j) {
        assert s.desk.pending[j].deadline > s.now;
      }
    }
  }

  lemma TurnSoon(s: State, arm: Arm)
    requires Sound(s) && SlotsSoon(s) && Timed(s) && s.phase.Connected? && (arm.Buffered? ==> s.inbox != [])
    ensures ConnectedTurn(s, arm).Again? ==> SlotsSoon(ConnectedTurn(s, arm).s)
  {
    match arm
    case Take(kind, wrote) => CommandSoon(s, kind, wrote);
    case Buffered =>
      SameSound(s, s.(inbox := s.inbox[1..]));
      MessageSoon(s.(inbox := s.inbox[1..]), s.inbox[0]);
    case Wire(what) => WireSoon(s, what);
    case Sweep => SweepSoon(s);
    case _ =>
  }

  lemma StepSoon(s: State, e: Event)
    requires Sound(s) && SlotsSoon(s) && Timed(s) && Enabled(s, e) && Prompt(s, e)
    ensures SlotsSoon(Step(s, e))
  {
    var t := s.(now := e.at);
    if s.phase.Connected? {
      SameSound(s, t);
      assert Timed(t);
      if e.arm.CallerGone? {
        forall j | j in t.desk.pending ensures SlotSoon(Step(s, e).desk, s.phase.nextSweep, j) {
          assert SlotSoon(s.desk, s.phase.nextSweep, j);
        }
      } else {
        TurnSoon(t, e.arm);
      }
    } else if !e.arm.CallerGone? {
      DownSoon(t, e.arm);
    }
  }

  lemma DownSoon(s: State, arm: Arm)
    requires (s.phase.Sleeping? || s.phase.Attempting?) && s.desk.pending == map[]
    ensures SlotsSoon(DownStep(s, arm))
  {
  }

  lemma {:induction false} RunSoon(s: State, es: seq<Event>)
    requires Sound(s) && SlotsSoon(s) && Timed(s) && PromptRun(s, es)
    requires Legal(s, es)
    ensures SlotsSoon(Run(s, es))
    decreases |es|
  {
    if es != [] {
      StepSound(s, es[0]);
      StepTimed(s, es[0]);
      StepSoon(s, es[0]);
      RunSoon(Step(s, es[0]), es[1..]);
    }
  }

  /**
   While the session stays connected, no slot outlives a second past the later of its
   request being taken and its deadline.
   */
  lemma SlotsAreBounded(
    link: Link, at: nat, decode: Bytes -> Option<Option<int>>, es: seq<Event>, s: State, j: nat)
    requires link.heartbeat >= SECOND && PromptRun(Start(link, at, decode), es)
    requires Reaches(link, at, decode, es, s) && s.phase.Connected? && j in s.desk.pending
    ensures s.desk.pending[j].cmd < |s.desk.cmds|
    ensures var cmd := s.desk.cmds[s.desk.pending[j].cmd];
            cmd.kind.Request? && s.now <= Max(cmd.at, cmd.kind.deadline) + SECOND
  {
    StartSound(link, at, decode);
    ReachesSound(link, at, decode, es, s);
    RunTimed(Start(link, at, decode), es);
    RunSoon(Start(link, at, decode), es);
    assert SlotOk(s.desk, j) && SlotSoon(s.desk, s.phase.nextSweep, j);
  }

  // ------------------------------------------------------------------
  // Reconnecting
  // ------------------------------------------------------------------

  /** In a prompt run the wait before attempt k is min(2^(k-1), 60) seconds to the tick. */
  lemma BackoffIsExact(link: Link, at: nat, decode: Bytes -> Option<Option<int>>, es: seq<Event>, e: Event)
    requires Legal(Start(link, at, decode), es)
    requires var s := Run(Start(link, at, decode), es); Enabled(s, e) && Prompt(s, e) && e.arm.SleepDone?
    ensures e.at == SetbackAt(Start(link, at, decode), es) + Min(Pow2(FailedSinceLive(es)), 60) * SECOND
  {
    BackoffSchedule(link, at, decode, es, e);
  }

  // ------------------------------------------------------------------
  // The timers, in every run
  // ------------------------------------------------------------------

  /** When the last probe went out on a connection, or when it started. */
  function LastProbe(io: seq<Io>, since: nat): nat {
    if io == [] then since
    else if io[|io| - 1].Pinged? then io[|io| - 1].at
    else LastProbe(io[..|io| - 1], since)
  }

  ghost predicate Clocked(phase: Phase, heartbeat: nat, conn: Conn)
    requires phase.Connected?
  {
    && phase.lastFrame == LastHeard(conn.io, conn.since)
    && phase.nextHeartbeat == LastProbe(conn.io, conn.since) + heartbeat
  }

  lemma LogClocked(phase: Phase, heartbeat: nat, conn: Conn, x: Io)
    requires phase.Connected? && Clocked(phase, heartbeat, conn)
    ensures var next := conn.(io := conn.io + [x]);
            && (!Life(x) && !x.Pinged? ==> Clocked(phase, heartbeat, next))
            && (Life(x) ==> Clocked(phase.(lastFrame := x.at), heartbeat, next))
            && (x.Pinged? ==> Clocked(phase.(nextHeartbeat := x.at + heartbeat), heartbeat, next))
  {
    assert (conn.io + [x])[..|conn.io|] == conn.io;
  }

  lemma CommandClocked(s: State, kind: Kind, wrote: bool)
    requires s.phase.Connected? && Clocked(s.phase, s.heartbeat, s.conn)
    ensures var u := OnCommand(s, kind, wrote).s; u.phase == s.phase && Clocked(u.phase, u.heartbeat, u.conn)
  {
    match kind
    case Notify(emsg, body) =>
      LogClocked(s.phase, s.heartbeat, s.conn, Sent(s.now, Outgoing(s.steamId, s.sessionId, emsg, None, body)));
    case Logoff =>
      var frame := Outgoing(s.steamId, s.sessionId, EMSG_CLIENT_LOGOFF, None, []);
      LogClocked(s.phase, s.heartbeat, s.conn, Sent(s.now, frame));
    case Request(emsg, body, _) =>
      var frame := Outgoing(s.steamId, s.sessionId, emsg, Some(s.desk.nextJob), body);
      LogClocked(s.phase, s.heartbeat, s.conn, Sent(s.now, frame));
  }

  lemma WireClocked(s: State, what: Inbound)
    requires s.phase.Connected? && Clocked(s.phase, s.heartbeat, s.conn)
    ensures var u := OnWire(s, what).s;
            && u.phase.Connected? && u.phase.nextSweep == s.phase.nextSweep
            && Clocked(u.phase, u.heartbeat, u.conn)
  {
    LogClocked(s.phase, s.heartbeat, s.conn, Arrived(s.now, what));
  }

  lemma HeartbeatClocked(s: State, wrote: bool, pinged: bool)
    requires s.phase.Connected? && Clocked(s.phase, s.heartbeat, s.conn)
    ensures var u := OnHeartbeat(s, wrote, pinged).s;
            && u.phase.Connected? && u.phase.nextSweep == s.phase.nextSweep
            && Clocked(u.phase, u.heartbeat, u.conn)
  {
    var beat := Sent(s.now, Outgoing(s.steamId, s.sessionId, EMSG_CLIENT_HEARTBEAT, None, []));
    LogClocked(s.phase, s.heartbeat, s.conn, beat);
    LogClocked(s.phase, s.heartbeat, s.conn.(io := s.conn.io + [beat]), Pinged(s.now));
  }

  lemma TurnClocked(s: State, arm: Arm)
    requires s.phase.Connected? && Clocked(s.phase, s.heartbeat, s.conn) && (arm.Buffered? ==> s.inbox != [])
    ensures var u := ConnectedTurn(s, arm).s;
            && u.phase.Connected? && Clocked(u.phase, u.heartbeat, u.conn)
            && u.phase.nextSweep == (if arm.Sweep? then s.now + 1000 else s.phase.nextSweep)
  {
    match arm
    case Take(kind, wrote) => CommandClocked(s, kind, wrote);
    case Wire(what) => WireClocked(s, what);
    case Heartbeat(wrote, pinged) => HeartbeatClocked(s, wrote, pinged);
    case _ =>
  }

  /** When the next sweep is due, as the events give it. */
  function NextDue(due: nat, e: Event): nat {
    if e.arm.Sweep? || e.arm.AttemptOk? then e.at + 1000 else due
  }

  ghost predicate InStep(s: State, due: nat) {
    s.phase.Connected? ==> Clocked(s.phase, s.heartbeat, s.conn) && s.phase.nextSweep == due
  }

  lemma StepInStep(s: State, e: Event, due: nat)
    requires InStep(s, due) && Enabled(s, e)
    ensures InStep(Step(s, e), NextDue(due, e))
  {
    if !e.arm.CallerGone? && s.phase.Connected? {
      TurnClocked(s.(now := e.at), e.arm);
    }
  }

  function SweepDue(due: nat, es: seq<Event>): nat
    decreases |es|
  {
    if es == [] then due else SweepDue(NextDue(due, es[0]), es[1..])
  }

  lemma {:induction false} RunInStep(s: State, es: seq<Event>, due: nat)
    requires InStep(s, due) && Legal(s, es)
    ensures InStep(Run(s, es), SweepDue(due, es))
    decreases |es|
  {
    if es != [] {
      StepInStep(s, es[0], due);
      RunInStep(Step(s, es[0]), es[1..], NextDue(due, es[0]));
    }
  }

  /**
   In every run, prompt or not, while connected: the next heartbeat is due one interval after
   the last probe or the start of the connection, the next sweep a second after the last, and
   the idle time counts from the last frame of any kind.
   */
  lemma TimersExact(link: Link, at: nat, decode: Bytes -> Option<Option<int>>, es: seq<Event>, s: State)
    requires Reaches(link, at, decode, es, s) && s.phase.Connected?
    ensures s.phase.nextHeartbeat == LastProbe(s.conn.io, s.conn.since) + s.conn.link.heartbeat
    ensures s.phase.nextSweep == SweepDue(at + 1000, es)
    ensures s.phase.lastFrame == LastHeard(s.conn.io, s.conn.since)
  {
    ReachesSound(link, at, decode, es, s);
    RunInStep(Start(link, at, decode), es, at + 1000);
  }
}
