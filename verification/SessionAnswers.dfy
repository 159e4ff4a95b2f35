/**
 What every caller is told, and when: the answer a command gets as it is taken, and how each
 event settles the requests still open, stated from the events with codes and limits by number.
 */
module SessionAnswers {
  import opened Wrappers
  import opened LittleEndian
  import opened Codec
  import opened Connection
  import opened SessionModel
  import opened SessionBasics
  import opened SessionDesk
  import opened SessionSafety
  import opened SessionLogoff

  // ------------------------------------------------------------------
  // What ends a turn
  // ------------------------------------------------------------------

  /** How an event takes a connected driver out of its loop, if it does. */
  function Exits(s: State, e: Event): Option<LoopExit>
    requires s.phase.Connected?
  {
    if TakesLogoff(s, e.arm) then
      var code := LogoffCode(s, e.arm);
      Some(if Heals(code) then Disconnected else LoggedOffBy(SessionLogoff.Reason(code)))
    else
      match e.arm
      case NoHandles => Some(Shutdown)
      case Take(Logoff, _) => Some(Shutdown)
      case Take(_, wrote) => if wrote then None else Some(Disconnected)
      case Heartbeat(wrote, pinged) => if wrote && pinged then None else Some(Disconnected)
      case Sweep => if e.at >= s.phase.lastFrame + Max(6 * s.heartbeat, 60_000) then Some(Disconnected) else None
      case Wire(what) => if Fatal(what) then Some(Disconnected) else None
      case _ => None
  }

  lemma TurnExits(s: State, e: Event)
    requires Enabled(s, e) && s.phase.Connected? && !e.arm.CallerGone?
    ensures var turn := ConnectedTurn(s.(now := e.at), e.arm);
            if Exits(s, e).Some? then turn.Leave? && turn.exit == Exits(s, e).value else turn.Again?
  {
    if TakesLogoff(s, e.arm) {
      LogoffTurn(s.(now := e.at), e.arm);
    }
  }

  /** A connected driver stays so unless it exits; then it waits to reconnect or has published why it ended. */
  lemma ConnectedStep(s: State, e: Event)
    requires Enabled(s, e) && s.phase.Connected?
    ensures var t := Step(s, e); var exit := Exits(s, e);
            && (t.phase.Connected? <==> exit.None?)
            && (exit == Some(Disconnected) ==>
                  t.phase == Sleeping(1, 1000, e.at) && t.published == s.published + [Connecting])
            && (exit == Some(Shutdown) ==> t.phase.Ended? && t.published == s.published + [LoggedOff(Closed)])
            && (exit.Some? && exit.value.LoggedOffBy? ==>
                  t.phase.Ended? && t.published == s.published + [LoggedOff(exit.value.why)])
  {
    var t := s.(now := e.at);
    if !e.arm.CallerGone? {
      TurnExits(s, e);
      TurnKeeps(t, e.arm);
      var turn := ConnectedTurn(t, e.arm);
      DispatchAllKeeps(turn.s.(inbox := []), turn.s.inbox);
    }
  }

  // ------------------------------------------------------------------
  // What a command is told as it is taken
  // ------------------------------------------------------------------

  /** A command as the events show it; `live` if it was written on a live connection. */
  datatype Taking = Taking(kind: Kind, at: nat, live: bool)

  function TakingOf(s: State, e: Event): seq<Taking> {
    if e.arm.Take? then [Taking(e.arm.kind, e.at, s.phase.Connected? && e.arm.wrote)] else []
  }

  ghost function Takings(s: State, es: seq<Event>): seq<Taking>
    requires Legal(s, es)
    decreases |es|
  {
    if es == [] then [] else TakingOf(s, es[0]) + Takings(Step(s, es[0]), es[1..])
  }

  /**
   A notification is acked with whether it was written, a logoff is acked, and a request gets
   a slot if it was written and is told to retry if it was not.
   */
  predicate AsTaken(cmd: Cmd, t: Taking) {
    && cmd.kind == t.kind && cmd.at == t.at
    && match t.kind
       case Notify(_, _) => cmd.outcomes == [Acked(t.live)]
       case Logoff => cmd.outcomes == [LogoffAcked]
       case Request(_, _, _) =>
         (cmd.ticket.Some? <==> t.live) && (!t.live ==> cmd.outcomes == [Refused(Reconnecting)])
  }

  ghost predicate AllAsTaken(cmds: seq<Cmd>, ts: seq<Taking>) {
    |cmds| == |ts| && forall c :: 0 <= c < |cmds| ==> AsTaken(cmds[c], ts[c])
  }

  lemma GrowsTwice(a: Desk, b: Desk, c: Desk)
    requires Grows(a, b) && Grows(b, c)
    ensures Grows(a, c)
  {
  }

  lemma GrowsAsTaken(d: Desk, e: Desk, ts: seq<Taking>)
    requires Grows(d, e) && |e.cmds| == |d.cmds| && AllAsTaken(d.cmds, ts)
    ensures AllAsTaken(e.cmds, ts)
  {
    forall c | 0 <= c < |e.cmds| ensures AsTaken(e.cmds[c], ts[c]) {
      assert AsTaken(d.cmds[c], ts[c]);
    }
  }

  /** The command arm appends its command and touches no other. */
  lemma CommandTakes(s: State, kind: Kind, wrote: bool)
    requires s.phase.Connected?
    ensures var u := OnCommand(s, kind, wrote).s;
            && |u.desk.cmds| == |s.desk.cmds| + 1 && s.desk.cmds <= u.desk.cmds
            && AsTaken(u.desk.cmds[|s.desk.cmds|], Taking(kind, s.now, wrote))
  {
  }

  lemma MessageGrows(s: State, msg: SteamMessage)
    requires Sound(s)
    ensures Grows(s.desk, OnMessage(s, msg).s.desk) && |OnMessage(s, msg).s.desk.cmds| == |s.desk.cmds|
  {
    DispatchGrows(s, msg);
  }

  lemma WireGrows(s: State, what: Inbound)
    requires Sound(s) && s.phase.Connected?
    ensures Grows(s.desk, OnWire(s, what).s.desk) && |OnWire(s, what).s.desk.cmds| == |s.desk.cmds|
  {
    LogSound(s, Arrived(s.now, what));
    var seen := Log(s, Arrived(s.now, what))
                .(phase := if Touches(what) then s.phase.(lastFrame := s.now) else s.phase);
    SameSound(Log(s, Arrived(s.now, what)), seen);
    var (rest, got) := Receive(what);
    if got.Message? {
      SameSound(seen, seen.(inbox := rest));
      MessageGrows(seen.(inbox := rest), got.msg);
    }
  }

  lemma TurnGrows(s: State, arm: Arm)
    requires Sound(s) && s.phase.Connected? && (arm.Buffered? ==> s.inbox != []) && !arm.Take?
    ensures var u := ConnectedTurn(s, arm).s; Grows(s.desk, u.desk) && |u.desk.cmds| == |s.desk.cmds|
  {
    match arm
    case Buffered =>
      SameSound(s, s.(inbox := s.inbox[1..]));
      MessageGrows(s.(inbox := s.inbox[1..]), s.inbox[0]);
    case Wire(what) => WireGrows(s, what);
    case Sweep => SweepPendingOk(s.desk, s.now);
    case _ =>
  }

  lemma TurnTakes(s: State, arm: Arm, ts: seq<Taking>)
    requires Sound(s) && s.phase.Connected? && (arm.Buffered? ==> s.inbox != []) && AllAsTaken(s.desk.cmds, ts)
    ensures AllAsTaken(ConnectedTurn(s, arm).s.desk.cmds, ts + TakingOf(s, Event(s.now, arm)))
  {
    var u := ConnectedTurn(s, arm).s;
    if arm.Take? {
      CommandTakes(s, arm.kind, arm.wrote);
      var all := ts + [Taking(arm.kind, s.now, arm.wrote)];
      forall c | 0 <= c < |u.desk.cmds| ensures AsTaken(u.desk.cmds[c], all[c]) {
        if c < |s.desk.cmds| {
          assert u.desk.cmds[c] == s.desk.cmds[c];
        }
      }
    } else {
      TurnGrows(s, arm);
      GrowsAsTaken(s.desk, u.desk, ts);
      assert ts + [] == ts;
    }
  }

  lemma ExitGrows(s: State, exit: LoopExit)
    requires Sound(s) && s.phase.Connected?
    ensures Grows(s.desk, OnExit(s, exit).desk) && |OnExit(s, exit).desk.cmds| == |s.desk.cmds|
  {
    if exit.Disconnected? {
      var idle := s.(inbox := []);
      SameSound(s, idle);
      DispatchAllGrows(idle, s.inbox);
      DispatchAllSound(idle, s.inbox);
      DispatchAllCount(idle, s.inbox);
      var d := DispatchAll(idle, s.inbox).desk;
      FailAllPendingOk(d, Reconnecting);
      GrowsTwice(s.desk, d, FailAllPending(d, Reconnecting));
    } else {
      FailAllPendingOk(s.desk, Stopped);
    }
  }

  lemma {:induction false} DispatchAllCount(s: State, ms: seq<SteamMessage>)
    ensures |DispatchAll(s, ms).desk.cmds| == |s.desk.cmds|
    decreases |ms|
  {
    if ms != [] {
      DispatchAllCount(Dispatch(s, ms[0]), ms[1..]);
    }
  }

  lemma DownTakes(s: State, arm: Arm, ts: seq<Taking>)
    requires Sound(s) && (s.phase.Sleeping? || s.phase.Attempting?) && AllAsTaken(s.desk.cmds, ts)
    ensures AllAsTaken(DownStep(s, arm).desk.cmds, ts + TakingOf(s, Event(s.now, arm)))
  {
    assert ts + [] == ts;
    assert SendAll(s.desk.cmds, {}, Refused(Stopped)) == s.desk.cmds;
    if arm.Take? {
      var all := ts + [Taking(arm.kind, s.now, false)];
      var answer := match arm.kind
                    case Logoff => LogoffAcked
                    case Request(_, _, _) => Refused(Reconnecting)
                    case Notify(_, _) => Acked(false);
      var cmds := s.desk.cmds + [Cmd(arm.kind, s.now, None, [answer])];
      forall c | 0 <= c < |cmds| ensures AsTaken(cmds[c], all[c]) {
      }
      assert SendAll(cmds, {}, Refused(Stopped)) == cmds;
    }
  }

  lemma StepTakes(s: State, e: Event, ts: seq<Taking>)
    requires Sound(s) && Enabled(s, e) && AllAsTaken(s.desk.cmds, ts)
    ensures AllAsTaken(Step(s, e).desk.cmds, ts + TakingOf(s, e))
  {
    var t := s.(now := e.at);
    SameSound(s, t);
    if e.arm.CallerGone? {
      assert ts + [] == ts;
    } else if s.phase.Connected? {
      TurnTakes(t, e.arm, ts);
      TurnSound(t, e.arm);
      var turn := ConnectedTurn(t, e.arm);
      if turn.Leave? {
        ExitGrows(turn.s, turn.exit);
        GrowsAsTaken(turn.s.desk, OnExit(turn.s, turn.exit).desk, ts + TakingOf(s, e));
      }
    } else {
      DownTakes(t, e.arm, ts);
    }
  }

  ghost predicate Recorded(s: State, ts: seq<Taking>) {
    Sound(s) && AllAsTaken(s.desk.cmds, ts)
  }

  lemma StepRecorded(s: State, e: Event, ts: seq<Taking>)
    requires Recorded(s, ts) && Enabled(s, e)
    ensures Recorded(Step(s, e), ts + TakingOf(s, e))
  {
    StepTakes(s, e, ts);
    StepSound(s, e);
  }

  lemma Join(a: seq<Taking>, b: seq<Taking>, c: seq<Taking>)
    ensures (a + b) + c == a + (b + c)
  {
  }

  lemma {:induction false} RunTakes(s: State, es: seq<Event>, ts: seq<Taking>)
    requires Recorded(s, ts) && Legal(s, es)
    ensures Recorded(Run(s, es), ts + Takings(s, es))
    decreases |es|
  {
    if es == [] {
      assert ts + [] == ts;
    } else {
      StepRecorded(s, es[0], ts);
      RunTakes(Step(s, es[0]), es[1..], ts + TakingOf(s, es[0]));
      Join(ts, TakingOf(s, es[0]), Takings(Step(s, es[0]), es[1..]));
    }
  }

  /**
   In every run the commands are those the events show, in order: a notification has been
   acked as written if and only if it was taken while connected and its write went through,
   every logoff has been acked, and a request not written on a live connection has been told
   to retry.
   */
  lemma CommandsAreThoseTaken(
    link: Link, at: nat, decode: Bytes -> Option<Option<int>>, es: seq<Event>, s: State)
    requires Reaches(link, at, decode, es, s)
    ensures AllAsTaken(s.desk.cmds, Takings(Start(link, at, decode), es))
  {
    StartSound(link, at, decode);
    RunTakes(Start(link, at, decode), es, []);
    assert [] + Takings(Start(link, at, decode), es) == Takings(Start(link, at, decode), es);
  }

  // ------------------------------------------------------------------
  // How an open request is settled
  // ------------------------------------------------------------------

  /**
   What an event answers the request waiting under `j`: at a drop, the first reply left in the
   inbox or that the session is reconnecting; at an end, that it stopped; at a sweep, a timeout
   past the deadline, or nothing at all to a caller that is gone; and the message the event
   takes, if that names the job.
   */
  function Settles(s: State, e: Event, j: nat): Option<Outcome>
    requires s.phase.Connected? && j in s.desk.pending
  {
    if e.arm.CallerGone? then None
    else
      match Exits(s, e)
      case Some(Disconnected) =>
        (match AnswerAmong(Left(s, e.arm), j)
         case Some(msg) => Some(Replied(msg))
         case None => Some(Refused(Reconnecting)))
      case Some(_) => Some(Refused(Stopped))
      case None =>
        if e.arm.Sweep? then
          if s.desk.pending[j].cmd in s.desk.gone then Some(Abandoned)
          else if s.desk.pending[j].deadline <= e.at then Some(TimedOut)
          else None
        else if Taken(s, e.arm).Some? && RealJob(Taken(s, e.arm).value.header.jobTarget) == Some(j) then
          Some(Replied(Taken(s, e.arm).value))
        else None
  }

  predicate SettledAs(cmds: seq<Cmd>, c: nat, outcome: Option<Outcome>) {
    c < |cmds| && cmds[c].outcomes == if outcome.Some? then [outcome.value] else []
  }

  /** A turn that leaves the loop settles nobody itself. */
  lemma LeavingKeepsSlot(s: State, arm: Arm, j: nat)
    requires Sound(s) && s.phase.Connected? && (arm.Buffered? ==> s.inbox != []) && j in s.desk.pending
    requires ConnectedTurn(s, arm).Leave?
    ensures var u := ConnectedTurn(s, arm).s; j in u.desk.pending && u.desk.pending[j] == s.desk.pending[j]
  {
  }

  lemma StopSettles(s: State, final: SessionState, j: nat)
    requires Sound(s) && j in s.desk.pending
    ensures SettledAs(Stop(s, final).desk.cmds, s.desk.pending[j].cmd, Some(Refused(Stopped)))
  {
    FailAllRefuses(s.desk, Stopped, j);
  }

  lemma DropSettles(s: State, j: nat)
    requires Sound(s) && s.phase.Connected? && j in s.desk.pending
    ensures SettledAs(GoDown(s).desk.cmds, s.desk.pending[j].cmd,
                      match AnswerAmong(s.inbox, j)
                      case Some(msg) => Some(Replied(msg))
                      case None => Some(Refused(Reconnecting)))
  {
    DropAnswers(s, j);
  }

  lemma ExitSettles(s: State, exit: LoopExit, j: nat)
    requires Sound(s) && s.phase.Connected? && j in s.desk.pending
    ensures SettledAs(OnExit(s, exit).desk.cmds, s.desk.pending[j].cmd,
                      if !exit.Disconnected? then Some(Refused(Stopped))
                      else if AnswerAmong(s.inbox, j).Some? then Some(Replied(AnswerAmong(s.inbox, j).value))
                      else Some(Refused(Reconnecting)))
  {
    match exit
    case Disconnected => DropSettles(s, j);
    case Shutdown => StopSettles(s, LoggedOff(Closed), j);
    case LoggedOffBy(why) => StopSettles(s, LoggedOff(why), j);
  }

  lemma LeavingSettles(s: State, e: Event, j: nat)
    requires Sound(s) && Enabled(s, e) && s.phase.Connected? && j in s.desk.pending && !e.arm.CallerGone?
    requires Exits(s, e).Some?
    ensures SettledAs(Step(s, e).desk.cmds, s.desk.pending[j].cmd, Settles(s, e, j))
  {
    var t := s.(now := e.at);
    SameSound(s, t);
    TurnExits(s, e);
    TurnSound(t, e.arm);
    LeavingKeepsSlot(t, e.arm, j);
    var turn := ConnectedTurn(t, e.arm);
    ExitSettles(turn.s, turn.exit, j);
    if turn.exit.Disconnected? {
      TurnDrops(t, e.arm);
    }
  }

  lemma MessageSettles(s: State, msg: SteamMessage, j: nat)
    requires Sound(s) && j in s.desk.pending
    ensures var c := s.desk.pending[j].cmd;
            SettledAs(Dispatch(s, msg).desk.cmds, c,
                      if RealJob(msg.header.jobTarget) == Some(j) then Some(Replied(msg)) else None)
  {
    DispatchStep(s, msg, j);
    if RealJob(msg.header.jobTarget) != Some(j) {
      OpenIsUnanswered(s.desk, j);
      DispatchOther(s, msg, j);
    }
  }

  lemma OpenIsUnanswered(d: Desk, j: nat)
    requires DeskOk(d) && j in d.pending
    ensures SettledAs(d.cmds, d.pending[j].cmd, None)
  {
    assert SlotOk(d, j);
    Balance(d, d.pending[j].cmd);
  }

  lemma DispatchOther(s: State, msg: SteamMessage, j: nat)
    requires Sound(s) && j in s.desk.pending && RealJob(msg.header.jobTarget) != Some(j)
    ensures s.desk.pending[j].cmd < |s.desk.cmds|
    ensures Dispatch(s, msg).desk.cmds[s.desk.pending[j].cmd] == s.desk.cmds[s.desk.pending[j].cmd]
  {
    assert SlotOk(s.desk, j);
    var slot := Slot(s.desk, msg);
    if slot.Some? && s.desk.pending[slot.value].cmd == s.desk.pending[j].cmd {
      OneSlotEach(s.desk, slot.value, j);
    }
  }

  lemma StayingWire(s: State, what: Inbound, j: nat)
    requires Sound(s) && s.phase.Connected? && j in s.desk.pending && OnWire(s, what).Again?
    ensures SettledAs(OnWire(s, what).s.desk.cmds, s.desk.pending[j].cmd,
                      if Yield(what) != [] && RealJob(Yield(what)[0].header.jobTarget) == Some(j)
                      then Some(Replied(Yield(what)[0])) else None)
  {
    LogSound(s, Arrived(s.now, what));
    var seen := Log(s, Arrived(s.now, what))
                .(phase := if Touches(what) then s.phase.(lastFrame := s.now) else s.phase);
    SameSound(Log(s, Arrived(s.now, what)), seen);
    var (rest, got) := Receive(what);
    if got.Message? {
      SameSound(seen, seen.(inbox := rest));
      MessageSettles(seen.(inbox := rest), got.msg, j);
    } else {
      OpenIsUnanswered(s.desk, j);
    }
  }

  /** What the turn of an arm that stays in the loop settles. */
  lemma TurnSettles(s: State, arm: Arm, j: nat)
    requires Sound(s) && s.phase.Connected? && (arm.Buffered? ==> s.inbox != []) && j in s.desk.pending
    requires ConnectedTurn(s, arm).Again? && !arm.Sweep?
    ensures SettledAs(ConnectedTurn(s, arm).s.desk.cmds, s.desk.pending[j].cmd,
                      if Taken(s, arm).Some? && RealJob(Taken(s, arm).value.header.jobTarget) == Some(j)
                      then Some(Replied(Taken(s, arm).value)) else None)
  {
    OpenIsUnanswered(s.desk, j);
    match arm
    case Take(kind, wrote) => CommandTakes(s, kind, wrote);
    case Buffered =>
      SameSound(s, s.(inbox := s.inbox[1..]));
      MessageSettles(s.(inbox := s.inbox[1..]), s.inbox[0], j);
    case Wire(what) => StayingWire(s, what, j);
    case _ =>
  }

  lemma SweepSettles(s: State, j: nat)
    requires Sound(s) && s.phase.Connected? && j in s.desk.pending && OnSweep(s).Again?
    ensures SettledAs(OnSweep(s).s.desk.cmds, s.desk.pending[j].cmd,
                      if s.desk.pending[j].cmd in s.desk.gone then Some(Abandoned)
                      else if s.desk.pending[j].deadline <= s.now then Some(TimedOut)
                      else None)
  {
    SweepExact(s.desk, s.now, j);
  }

  lemma StayingSettles(s: State, e: Event, j: nat)
    requires Sound(s) && Enabled(s, e) && s.phase.Connected? && j in s.desk.pending && !e.arm.CallerGone?
    requires Exits(s, e).None?
    ensures SettledAs(Step(s, e).desk.cmds, s.desk.pending[j].cmd, Settles(s, e, j))
  {
    var t := s.(now := e.at);
    SameSound(s, t);
    TurnExits(s, e);
    if e.arm.Sweep? {
      SweepSettles(t, j);
    } else {
      TurnSettles(t, e.arm, j);
    }
  }

  /** In every run, each event settles each open request exactly so. */
  lemma RequestsSettled(
    link: Link, at: nat, decode: Bytes -> Option<Option<int>>, es: seq<Event>, s: State, e: Event, j: nat)
    requires Reaches(link, at, decode, es, s) && Enabled(s, e) && j in s.desk.pending
    ensures s.phase.Connected?
    ensures SettledAs(Step(s, e).desk.cmds, s.desk.pending[j].cmd, Settles(s, e, j))
  {
    ReachesSound(link, at, decode, es, s);
    if e.arm.CallerGone? {
      OpenIsUnanswered(s.desk, j);
    } else if Exits(s, e).Some? {
      LeavingSettles(s, e, j);
    } else {
      StayingSettles(s, e, j);
    }
  }

  // ------------------------------------------------------------------
  // Who is gone
  // ------------------------------------------------------------------

  /** The caller of command `c` dropped its end. */
  ghost predicate HungUp(es: seq<Event>, c: nat) {
    exists i :: 0 <= i < |es| && es[i].arm == CallerGone(c)
  }

  lemma {:induction false} DispatchAllKeepsGone(s: State, ms: seq<SteamMessage>)
    ensures DispatchAll(s, ms).desk.gone == s.desk.gone
    decreases |ms|
  {
    if ms != [] {
      DispatchAllKeepsGone(Dispatch(s, ms[0]), ms[1..]);
    }
  }

  lemma StepGone(s: State, e: Event)
    requires Enabled(s, e)
    ensures Step(s, e).desk.gone == s.desk.gone + if e.arm.CallerGone? then {e.arm.cmd} else {}
  {
    var t := s.(now := e.at);
    if s.phase.Connected? && !e.arm.CallerGone? {
      var turn := ConnectedTurn(t, e.arm);
      assert turn.s.desk.gone == s.desk.gone;
      if turn.Leave? {
        DispatchAllKeepsGone(turn.s.(inbox := []), turn.s.inbox);
      }
    }
  }

  lemma {:induction false} RunGone(s: State, es: seq<Event>, c: nat)
    requires Legal(s, es)
    ensures c in Run(s, es).desk.gone <==> c in s.desk.gone || HungUp(es, c)
    decreases |es|
  {
    if es != [] {
      StepGone(s, es[0]);
      RunGone(Step(s, es[0]), es[1..], c);
      assert HungUp(es, c) <==> es[0].arm == CallerGone(c) || HungUp(es[1..], c) by {
        assert forall i :: 0 <= i < |es| - 1 ==> es[1..][i] == es[i + 1];
        if HungUp(es[1..], c) {
          var i :| 0 <= i < |es| - 1 && es[1..][i].arm == CallerGone(c);
          assert es[i + 1].arm == CallerGone(c);
        }
        if HungUp(es, c) {
          var i :| 0 <= i < |es| && es[i].arm == CallerGone(c);
          if i > 0 {
            assert es[1..][i - 1].arm == CallerGone(c);
          }
        }
      }
    }
  }

  /**
   In every run, a request is reaped without an answer only if its caller dropped its end, and
   a caller that did so counts as gone at every sweep that follows.
   */
  lemma GoneMeansHungUp(link: Link, at: nat, decode: Bytes -> Option<Option<int>>, es: seq<Event>, s: State, c: nat)
    requires Reaches(link, at, decode, es, s)
    ensures c in s.desk.gone <==> HungUp(es, c)
    ensures c < |s.desk.cmds| && s.desk.cmds[c].outcomes == [Abandoned] ==> HungUp(es, c)
  {
    RunGone(Start(link, at, decode), es, c);
    AtMostOnce(link, at, decode, es, s);
  }
}
