/** What the driver writes, stated from the events: every frame asked for, and no other. */
module SessionFrames {
  import opened Wrappers
  import opened LittleEndian
  import opened Codec
  import opened Connection
  import opened SessionModel
  import opened SessionBasics
  import opened SessionSafety
  import opened SessionIds

  /**
   What an event has a connected driver write, given the link in force and the job id next
   in line.
   */
  function Asked(connected: bool, link: Link, job: nat, e: Event): seq<Io> {
    if !connected then []
    else
      match e.arm
      case Take(Notify(emsg, body), true) =>
        [Sent(e.at, Outgoing(link.steamId, link.sessionId, emsg, None, body))]
      case Take(Request(emsg, body, _), true) =>
        [Sent(e.at, Outgoing(link.steamId, link.sessionId, emsg, Some(job), body))]
      case Take(Logoff, true) => [Sent(e.at, Outgoing(link.steamId, link.sessionId, 706, None, []))]
      case Heartbeat(true, pinged) =>
        [Sent(e.at, Outgoing(link.steamId, link.sessionId, 703, None, []))]
        + if pinged then [Pinged(e.at)] else []
      case _ => []
  }

  /** The job id after so many requests. */
  function JobAfter(issued: nat): nat {
    1 + issued % U64_MAX
  }

  /** A request uses up a job id whether or not it could be written. */
  function Draws(connected: bool, e: Event): nat {
    if connected && e.arm.Take? && e.arm.kind.Request? then 1 else 0
  }

  function NextLink(link: Link, e: Event): Link {
    if e.arm.AttemptOk? then e.arm.link else link
  }

  ghost function AskedAlong(s: State, link: Link, issued: nat, es: seq<Event>): seq<Io>
    requires Legal(s, es)
    decreases |es|
  {
    if es == [] then []
    else
      var connected := s.phase.Connected?;
      Asked(connected, link, JobAfter(issued), es[0])
      + AskedAlong(Step(s, es[0]), NextLink(link, es[0]), issued + Draws(connected, es[0]), es[1..])
  }

  /** Everything in a log that is not an arrival. */
  function Written(io: seq<Io>): seq<Io> {
    if io == [] then []
    else Written(io[..|io| - 1]) + if io[|io| - 1].Arrived? then [] else [io[|io| - 1]]
  }

  function WrittenBefore(past: seq<Conn>): seq<Io> {
    if past == [] then [] else WrittenBefore(past[..|past| - 1]) + Written(past[|past| - 1].io)
  }

  /** Everything written over all connections, in order. */
  function AllWritten(s: State): seq<Io> {
    WrittenBefore(s.past) + Written(s.conn.io)
  }

  // ------------------------------------------------------------------
  // One step
  // ------------------------------------------------------------------

  lemma WrittenMore(io: seq<Io>, x: Io)
    ensures Written(io + [x]) == Written(io) + if x.Arrived? then [] else [x]
  {
    assert (io + [x])[..|io|] == io;
  }

  lemma WrittenTwo(io: seq<Io>, x: Io, y: Io)
    requires !x.Arrived? && !y.Arrived?
    ensures Written(io + [x] + [y]) == Written(io) + ([x] + [y])
  {
    WrittenMore(io, x);
    WrittenMore(io + [x], y);
  }

  /** The ids are those of the link, and `job` is next in line. */
  ghost predicate Stamps(s: State, link: Link, job: nat) {
    s.conn.link == link && s.steamId == link.steamId && s.sessionId == link.sessionId && s.desk.nextJob == job
  }

  lemma CommandWrites(s: State, at: nat, kind: Kind, wrote: bool, link: Link, job: nat)
    requires s.phase.Connected? && s.now == at && Stamps(s, link, job)
    ensures var u := OnCommand(s, kind, wrote).s;
            && Written(u.conn.io) == Written(s.conn.io) + Asked(true, link, job, Event(at, Take(kind, wrote)))
            && u.past == s.past && u.desk.issued == s.desk.issued + Draws(true, Event(at, Take(kind, wrote)))
  {
    var asked := Asked(true, link, job, Event(at, Take(kind, wrote)));
    if wrote {
      WrittenMore(s.conn.io, asked[0]);
    }
  }

  lemma HeartbeatWrites(s: State, at: nat, wrote: bool, pinged: bool, link: Link, job: nat)
    requires s.phase.Connected? && s.now == at && Stamps(s, link, job)
    ensures var u := OnHeartbeat(s, wrote, pinged).s;
            && Written(u.conn.io) == Written(s.conn.io) + Asked(true, link, job, Event(at, Heartbeat(wrote, pinged)))
            && u.past == s.past && u.desk.issued == s.desk.issued
  {
    var beat := Sent(at, Outgoing(link.steamId, link.sessionId, 703, None, []));
    if wrote {
      assert Send(s, 703, None, []).conn.io == s.conn.io + [beat];
      if pinged {
        WrittenTwo(s.conn.io, beat, Pinged(at));
      } else {
        WrittenMore(s.conn.io, beat);
        assert [beat] + [] == [beat];
      }
    }
  }

  lemma WireWrites(s: State, what: Inbound)
    requires s.phase.Connected?
    ensures var u := OnWire(s, what).s;
            Written(u.conn.io) == Written(s.conn.io) && u.past == s.past && u.desk.issued == s.desk.issued
  {
    WrittenMore(s.conn.io, Arrived(s.now, what));
  }

  lemma TurnWrites(s: State, e: Event, link: Link, job: nat)
    requires s.phase.Connected? && s.now == e.at && (e.arm.Buffered? ==> s.inbox != []) && Stamps(s, link, job)
    requires !e.arm.AttemptOk?
    ensures var u := ConnectedTurn(s, e.arm).s;
            && Written(u.conn.io) == Written(s.conn.io) + Asked(true, link, job, e)
            && u.past == s.past && u.desk.issued == s.desk.issued + Draws(true, e)
  {
    match e.arm
    case Take(kind, wrote) => CommandWrites(s, e.at, kind, wrote, link, job);
    case Heartbeat(wrote, pinged) => HeartbeatWrites(s, e.at, wrote, pinged, link, job);
    case Wire(what) => WireWrites(s, what);
    case _ =>
  }

  lemma GoLiveWrites(s: State, link: Link)
    ensures AllWritten(GoLive(s, link)) == AllWritten(s)
  {
    var t := GoLive(s, link);
    assert t.past[..|s.past|] == s.past;
    assert Written(t.conn.io) == [];
  }

  lemma ExitWrites(s: State, exit: LoopExit)
    ensures OnExit(s, exit).conn.io == s.conn.io && OnExit(s, exit).past == s.past
    ensures OnExit(s, exit).desk.issued == s.desk.issued
  {
    DispatchAllKeeps(s.(inbox := []), s.inbox);
  }

  lemma ConnectedWrites(s: State, e: Event, link: Link, job: nat)
    requires Enabled(s, e) && s.phase.Connected? && Stamps(s, link, job) && !e.arm.CallerGone?
    ensures Step(s, e).past == s.past
    ensures Written(Step(s, e).conn.io) == Written(s.conn.io) + Asked(true, link, job, e)
    ensures Step(s, e).desk.issued == s.desk.issued + Draws(true, e)
  {
    var t := s.(now := e.at);
    TurnWrites(t, e, link, job);
    var turn := ConnectedTurn(t, e.arm);
    if turn.Leave? {
      ExitWrites(turn.s, turn.exit);
    }
  }

  lemma DownWrites(s: State, e: Event)
    requires Enabled(s, e) && !s.phase.Connected?
    ensures AllWritten(Step(s, e)) == AllWritten(s) && Step(s, e).desk.issued == s.desk.issued
  {
    if e.arm.AttemptOk? {
      GoLiveWrites(s.(now := e.at), e.arm.link);
    }
  }

  lemma StepWrites(s: State, e: Event, link: Link, job: nat)
    requires Enabled(s, e) && Stamps(s, link, job)
    ensures AllWritten(Step(s, e)) == AllWritten(s) + Asked(s.phase.Connected?, link, job, e)
    ensures Step(s, e).desk.issued == s.desk.issued + Draws(s.phase.Connected?, e)
  {
    if s.phase.Connected? && !e.arm.CallerGone? {
      ConnectedWrites(s, e, link, job);
      Join(WrittenBefore(s.past), Written(s.conn.io), Asked(true, link, job, e));
    } else if !s.phase.Connected? {
      DownWrites(s, e);
    }
  }

  lemma Join(a: seq<Io>, b: seq<Io>, c: seq<Io>)
    ensures a + (b + c) == (a + b) + c
  {
  }

  /** The link in force and the number of requests so far, as the events give them. */
  ghost predicate Tracks(s: State, link: Link, issued: nat) {
    Stamps(s, link, JobAfter(issued)) && s.desk.issued == issued
  }

  lemma StepTracks(s: State, e: Event, link: Link, issued: nat)
    requires Enabled(s, e) && Sound(s) && Tracks(s, link, issued)
    ensures Tracks(Step(s, e), NextLink(link, e), issued + Draws(s.phase.Connected?, e))
  {
    StepSound(s, e);
    StepCycles(s, e);
    StepWrites(s, e, link, JobAfter(issued));
    StepLink(s, e);
  }

  lemma StepLink(s: State, e: Event)
    requires Enabled(s, e)
    ensures Step(s, e).conn.link == NextLink(s.conn.link, e)
  {
    var t := s.(now := e.at);
    if !e.arm.CallerGone? && s.phase.Connected? {
      TurnKeeps(t, e.arm);
      var turn := ConnectedTurn(t, e.arm);
      DispatchAllKeeps(turn.s.(inbox := []), turn.s.inbox);
    }
  }

  // ------------------------------------------------------------------
  // Whole runs
  // ------------------------------------------------------------------

  ghost predicate Steady(s: State, link: Link, issued: nat) {
    Sound(s) && Tracks(s, link, issued)
  }

  lemma StepSteady(s: State, e: Event, link: Link, issued: nat, before: seq<Io>, asked: seq<Io>)
    requires Enabled(s, e) && Steady(s, link, issued)
    requires before == AllWritten(s) && asked == Asked(s.phase.Connected?, link, JobAfter(issued), e)
    ensures Steady(Step(s, e), NextLink(link, e), issued + Draws(s.phase.Connected?, e))
    ensures AllWritten(Step(s, e)) == before + asked
  {
    StepWrites(s, e, link, JobAfter(issued));
    StepTracks(s, e, link, issued);
    StepSound(s, e);
  }

  lemma {:induction false} RunWrites(s: State, es: seq<Event>, link: Link, issued: nat, before: seq<Io>)
    requires Legal(s, es) && Steady(s, link, issued) && before == AllWritten(s)
    ensures AllWritten(Run(s, es)) == before + AskedAlong(s, link, issued, es)
    decreases |es|
  {
    if es == [] {
      assert before + [] == before;
    } else {
      var asked := Asked(s.phase.Connected?, link, JobAfter(issued), es[0]);
      var link', issued' := NextLink(link, es[0]), issued + Draws(s.phase.Connected?, es[0]);
      StepSteady(s, es[0], link, issued, before, asked);
      RunWrites(Step(s, es[0]), es[1..], link', issued', before + asked);
      Join(before, asked, AskedAlong(Step(s, es[0]), link', issued', es[1..]));
    }
  }

  /**
   In every run, what is written over all connections is, in order, exactly what the events
   ask of a connected driver: each notification, request, logoff and heartbeat whose write
   goes through, under the ids of the connection then in force and its own job id.
   */
  lemma FramesAreThoseAsked(link: Link, at: nat, decode: Bytes -> Option<Option<int>>, es: seq<Event>)
    requires Legal(Start(link, at, decode), es)
    ensures AllWritten(Run(Start(link, at, decode), es)) == AskedAlong(Start(link, at, decode), link, 0, es)
  {
    StartSound(link, at, decode);
    assert AllWritten(Start(link, at, decode)) == [];
    RunWrites(Start(link, at, decode), es, link, 0, []);
    assert [] + AskedAlong(Start(link, at, decode), link, 0, es) == AskedAlong(Start(link, at, decode), link, 0, es);
  }
}
