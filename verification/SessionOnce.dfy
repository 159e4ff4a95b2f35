/**
 Every command answered exactly once: over runs of any length, if and only if no job id is
 drawn while an open slot still holds it.
 */
module SessionOnce {
  import opened Wrappers
  import opened LittleEndian
  import opened Codec
  import opened Connection
  import opened SessionModel
  import opened SessionDesk
  import opened SessionSafety

  /** A request about to be written draws an id that no open slot holds. */
  predicate FreshId(s: State, arm: Arm) {
    s.phase.Connected? && arm.Take? && arm.kind.Request? && arm.wrote ==> s.desk.nextJob !in s.desk.pending
  }

  /** Every request written in the run draws an id that is free at that moment. */
  ghost predicate NoReuse(s: State, es: seq<Event>)
    requires Legal(s, es)
    decreases |es|
  {
    es != [] ==> FreshId(s, es[0].arm) && NoReuse(Step(s, es[0]), es[1..])
  }

  // ------------------------------------------------------------------
  // A fresh id leaves nobody out
  // ------------------------------------------------------------------

  lemma DispatchComplete(s: State, msg: SteamMessage)
    requires Complete(s.desk)
    ensures Complete(Dispatch(s, msg).desk)
  {
    var slot := Slot(s.desk, msg);
    if slot.Some? {
      DeliverComplete(s.desk, slot.value, msg);
    }
  }

  lemma {:induction false} DispatchAllComplete(s: State, ms: seq<SteamMessage>)
    requires Complete(s.desk)
    ensures Complete(DispatchAll(s, ms).desk)
    decreases |ms|
  {
    if ms != [] {
      DispatchComplete(s, ms[0]);
      DispatchAllComplete(Dispatch(s, ms[0]), ms[1..]);
    }
  }

  lemma CommandComplete(s: State, kind: Kind, wrote: bool)
    requires Complete(s.desk) && DeskOk(s.desk)
    requires kind.Request? && wrote ==> s.desk.nextJob !in s.desk.pending
    ensures Complete(OnCommand(s, kind, wrote).s.desk)
  {
    match kind
    case Notify(_, _) => AnswerNowComplete(s.desk, kind, s.now, Acked(wrote));
    case Logoff => AnswerNowComplete(s.desk, kind, s.now, LogoffAcked);
    case Request(_, _, _) =>
      AnswerNowComplete(s.desk, kind, s.now, Refused(Reconnecting));
      OpenSlotCompleteIff(s.desk, kind, s.now, |s.past|, |s.conn.routed|);
  }

  lemma WireComplete(s: State, what: Inbound)
    requires s.phase.Connected? && Complete(s.desk)
    ensures Complete(OnWire(s, what).s.desk)
  {
    var seen := Log(s, Arrived(s.now, what))
                .(phase := if Touches(what) then s.phase.(lastFrame := s.now) else s.phase);
    var (rest, got) := Receive(what);
    if got.Message? {
      DispatchComplete(seen.(inbox := rest), got.msg);
    }
  }

  lemma TurnComplete(s: State, arm: Arm)
    requires s.phase.Connected? && (arm.Buffered? ==> s.inbox != [])
    requires Complete(s.desk) && DeskOk(s.desk) && FreshId(s, arm)
    ensures Complete(ConnectedTurn(s, arm).s.desk)
  {
    match arm
    case Take(kind, wrote) => CommandComplete(s, kind, wrote);
    case Buffered => DispatchComplete(s.(inbox := s.inbox[1..]), s.inbox[0]);
    case Wire(what) => WireComplete(s, what);
    case Sweep => SweepComplete(s.desk, s.now);
    case _ =>
  }

  lemma ExitComplete(s: State, exit: LoopExit)
    requires Complete(s.desk)
    ensures Complete(OnExit(s, exit).desk)
  {
    if exit.Disconnected? {
      DispatchAllComplete(s.(inbox := []), s.inbox);
      FailAllComplete(DispatchAll(s.(inbox := []), s.inbox).desk, Reconnecting);
    } else {
      FailAllComplete(s.desk, Stopped);
    }
  }

  lemma DownComplete(s: State, arm: Arm)
    requires (s.phase.Sleeping? || s.phase.Attempting?) && Complete(s.desk)
    ensures Complete(DownStep(s, arm).desk)
  {
    FailAllComplete(s.desk, Stopped);
    if arm.Take? {
      var outcome := match arm.kind
                     case Logoff => LogoffAcked
                     case Request(_, _, _) => Refused(Reconnecting)
                     case Notify(_, _) => Acked(false);
      AnswerNowComplete(s.desk, arm.kind, s.now, outcome);
      FailAllComplete(AnswerNow(s.desk, arm.kind, s.now, outcome), Stopped);
    }
  }

  lemma StepComplete(s: State, e: Event)
    requires Enabled(s, e) && Complete(s.desk) && DeskOk(s.desk) && FreshId(s, e.arm)
    ensures Complete(Step(s, e).desk)
  {
    var t := s.(now := e.at);
    if e.arm.CallerGone? {
    } else if s.phase.Connected? {
      TurnComplete(t, e.arm);
      var turn := ConnectedTurn(t, e.arm);
      if turn.Leave? {
        ExitComplete(turn.s, turn.exit);
      }
    } else {
      DownComplete(t, e.arm);
    }
  }

  lemma {:induction false} RunComplete(s: State, es: seq<Event>)
    requires Sound(s) && Complete(s.desk) && Legal(s, es) && NoReuse(s, es)
    ensures Complete(Run(s, es).desk)
    decreases |es|
  {
    if es != [] {
      StepSound(s, es[0]);
      StepComplete(s, es[0]);
      RunComplete(Step(s, es[0]), es[1..]);
    }
  }

  // ------------------------------------------------------------------
  // An orphan stays one
  // ------------------------------------------------------------------

  lemma DispatchKeepsOrphan(s: State, msg: SteamMessage, c: nat)
    requires Orphaned(s.desk, c)
    ensures Orphaned(Dispatch(s, msg).desk, c)
  {
  }

  lemma {:induction false} DispatchAllKeepsOrphan(s: State, ms: seq<SteamMessage>, c: nat)
    requires Orphaned(s.desk, c)
    ensures Orphaned(DispatchAll(s, ms).desk, c)
    decreases |ms|
  {
    if ms != [] {
      DispatchKeepsOrphan(s, ms[0], c);
      DispatchAllKeepsOrphan(Dispatch(s, ms[0]), ms[1..], c);
    }
  }

  lemma FailAllKeepsOrphan(d: Desk, reason: Reason, c: nat)
    requires Orphaned(d, c)
    ensures Orphaned(FailAllPending(d, reason), c)
  {
  }

  lemma SweepKeepsOrphan(d: Desk, now: nat, c: nat)
    requires Orphaned(d, c)
    ensures Orphaned(SweepPending(d, now), c)
  {
    assert c !in Reaped(d) && c !in Expired(d, now);
  }

  lemma CommandKeepsOrphan(s: State, kind: Kind, wrote: bool, c: nat)
    requires Orphaned(s.desk, c)
    ensures Orphaned(OnCommand(s, kind, wrote).s.desk, c)
  {
  }

  lemma WireKeepsOrphan(s: State, what: Inbound, c: nat)
    requires s.phase.Connected? && Orphaned(s.desk, c)
    ensures Orphaned(OnWire(s, what).s.desk, c)
  {
    var seen := Log(s, Arrived(s.now, what))
                .(phase := if Touches(what) then s.phase.(lastFrame := s.now) else s.phase);
    var (rest, got) := Receive(what);
    if got.Message? {
      DispatchKeepsOrphan(seen.(inbox := rest), got.msg, c);
    }
  }

  lemma TurnKeepsOrphan(s: State, arm: Arm, c: nat)
    requires s.phase.Connected? && (arm.Buffered? ==> s.inbox != []) && Orphaned(s.desk, c)
    ensures Orphaned(ConnectedTurn(s, arm).s.desk, c)
  {
    match arm
    case Take(kind, wrote) => CommandKeepsOrphan(s, kind, wrote, c);
    case Buffered => DispatchKeepsOrphan(s.(inbox := s.inbox[1..]), s.inbox[0], c);
    case Wire(what) => WireKeepsOrphan(s, what, c);
    case Sweep => SweepKeepsOrphan(s.desk, s.now, c);
    case _ =>
  }

  lemma ExitKeepsOrphan(s: State, exit: LoopExit, c: nat)
    requires Orphaned(s.desk, c)
    ensures Orphaned(OnExit(s, exit).desk, c)
  {
    if exit.Disconnected? {
      var drained := DispatchAll(s.(inbox := []), s.inbox);
      DispatchAllKeepsOrphan(s.(inbox := []), s.inbox, c);
      FailAllKeepsOrphan(drained.desk, Reconnecting, c);
    } else {
      FailAllKeepsOrphan(s.desk, Stopped, c);
    }
  }

  lemma DownKeepsOrphan(s: State, arm: Arm, c: nat)
    requires (s.phase.Sleeping? || s.phase.Attempting?) && Orphaned(s.desk, c)
    ensures Orphaned(DownStep(s, arm).desk, c)
  {
    FailAllKeepsOrphan(s.desk, Stopped, c);
    if arm.Take? && arm.kind.Logoff? {
      FailAllKeepsOrphan(AnswerNow(s.desk, arm.kind, s.now, LogoffAcked), Stopped, c);
    }
  }

  lemma StepKeepsOrphan(s: State, e: Event, c: nat)
    requires Enabled(s, e) && Orphaned(s.desk, c)
    ensures Orphaned(Step(s, e).desk, c)
  {
    var t := s.(now := e.at);
    if e.arm.CallerGone? {
    } else if s.phase.Connected? {
      TurnKeepsOrphan(t, e.arm, c);
      var turn := ConnectedTurn(t, e.arm);
      if turn.Leave? {
        ExitKeepsOrphan(turn.s, turn.exit, c);
      }
    } else {
      DownKeepsOrphan(t, e.arm, c);
    }
  }

  /** A command with no answer and no slot never gets either again. */
  lemma {:induction false} OrphanForever(s: State, es: seq<Event>, c: nat)
    requires Legal(s, es) && Orphaned(s.desk, c)
    ensures Orphaned(Run(s, es).desk, c)
    decreases |es|
  {
    if es != [] {
      StepKeepsOrphan(s, es[0], c);
      OrphanForever(Step(s, es[0]), es[1..], c);
    }
  }

  // ------------------------------------------------------------------
  // Exactly once, if and only if no id is drawn while in use
  // ------------------------------------------------------------------

  /** No command is answered twice, and one is unanswered exactly while a slot holds it. */
  ghost predicate Balanced(d: Desk) {
    forall c :: 0 <= c < |d.cmds| ==>
      && |d.cmds[c].outcomes| <= 1
      && (d.cmds[c].outcomes == [] <==> exists j :: j in d.pending && d.pending[j].cmd == c)
  }

  /**
   Each command taken off the queue is settled exactly once, or it is a request whose slot
   is still open; the open slots are exactly the unsettled requests; and when the session is
   not connected each has had its one answer.
   */
  lemma ExactlyOnce(link: Link, at: nat, decode: Bytes -> Option<Option<int>>, es: seq<Event>, s: State)
    requires Reaches(link, at, decode, es, s) && NoReuse(Start(link, at, decode), es)
    ensures Balanced(s.desk)
    ensures !s.phase.Connected? ==> forall c :: 0 <= c < |s.desk.cmds| ==> |s.desk.cmds[c].outcomes| == 1
  {
    ReachesSound(link, at, decode, es, s);
    StartSound(link, at, decode);
    RunComplete(Start(link, at, decode), es);
    forall c | 0 <= c < |s.desk.cmds|
      ensures |s.desk.cmds[c].outcomes| <= 1
      ensures s.desk.cmds[c].outcomes == [] <==> exists j :: j in s.desk.pending && s.desk.pending[j].cmd == c
    {
      Balance(s.desk, c);
    }
  }

  /** Drawing a held id orphans a command for the rest of the run. */
  lemma {:induction false} ReuseOrphans(s: State, es: seq<Event>) returns (c: nat)
    requires Sound(s) && Legal(s, es) && !NoReuse(s, es)
    ensures Orphaned(Run(s, es).desk, c)
    decreases |es|
  {
    if FreshId(s, es[0].arm) {
      StepSound(s, es[0]);
      c := ReuseOrphans(Step(s, es[0]), es[1..]);
    } else {
      c := s.desk.pending[s.desk.nextJob].cmd;
      HeldIdOrphans(s.desk, es[0].arm.kind, es[0].at, |s.past|, |s.conn.routed|);
      OrphanForever(Step(s, es[0]), es[1..], c);
    }
  }

  /** The exact condition for the books to balance at the end of a run, however long it is. */
  lemma ExactlyOnceIff(link: Link, at: nat, decode: Bytes -> Option<Option<int>>, es: seq<Event>)
    requires Legal(Start(link, at, decode), es)
    ensures Balanced(Run(Start(link, at, decode), es).desk) <==> NoReuse(Start(link, at, decode), es)
  {
    var s := Run(Start(link, at, decode), es);
    if NoReuse(Start(link, at, decode), es) {
      ExactlyOnce(link, at, decode, es, s);
    } else {
      StartSound(link, at, decode);
      var c := ReuseOrphans(Start(link, at, decode), es);
    }
  }
}
