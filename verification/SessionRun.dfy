/**
 The driver object from spawn to the end of a script of events: what its callers and the
 watchers of its state have seen by then.
 */
module SessionRun {
  import opened Wrappers
  import opened LittleEndian
  import opened Codec
  import opened SessionModel
  import opened SessionDesk
  import opened SessionRouting
  import opened SessionSafety
  import opened SessionOnce
  import opened SessionIds
  import opened SessionLifecycle
  import opened SessionSocket
  import opened Multi
  import opened Connection
  import opened PrintedStream
  import opened SessionStream
  import SessionDriver

  /** Every command has had exactly one answer, of the kind its caller waits for. */
  ghost predicate AllAnswered(cmds: seq<Cmd>) {
    forall c :: 0 <= c < |cmds| ==> |cmds[c].outcomes| == 1 && Fits(cmds[c].kind, cmds[c].outcomes[0])
  }

  predicate Terminal(state: SessionState) {
    state.LoggedOff? || state.GaveUp?
  }

  lemma LastIsTerminalIff(s: State)
    requires Lively(s)
    ensures s.published != []
    ensures s.phase.Ended? <==> Terminal(s.published[|s.published| - 1])
  {
    var tail := Tail(s.published, s.past);
    if tail == [] {
      assert s.published[2 * |s.past|] == LoggedOnAs(ConnAt(s.conn, s.past, |s.past|).link.steamId);
    } else {
      assert tail[|tail| - 1] == s.published[|s.published| - 1];
    }
  }

  /** What holds of the commands and published states at the end of a run. */
  ghost predicate Settled(cmds: seq<Cmd>, published: seq<SessionState>, noReuse: bool, phase: Phase) {
    && published != []
    && (phase.Ended? <==> Terminal(published[|published| - 1]))
    && (phase.Ended? ==> (AllAnswered(cmds) <==> noReuse))
  }

  lemma EndAnswersAll(link: Link, at: nat, decode: Bytes -> Option<Option<int>>, script: seq<Event>, s: State)
    requires Legal(Start(link, at, decode), script) && s == Run(Start(link, at, decode), script)
    requires s.phase.Ended?
    ensures AllAnswered(s.desk.cmds) <==> NoReuse(Start(link, at, decode), script)
  {
    if NoReuse(Start(link, at, decode), script) {
      AtMostOnce(link, at, decode, script, s);
      ExactlyOnce(link, at, decode, script, s);
    } else {
      StartSound(link, at, decode);
      var c := ReuseOrphans(Start(link, at, decode), script);
    }
  }

  lemma RunSettles(link: Link, at: nat, decode: Bytes -> Option<Option<int>>, script: seq<Event>, s: State)
    requires Legal(Start(link, at, decode), script) && s == Run(Start(link, at, decode), script)
    ensures Settled(s.desk.cmds, s.published, NoReuse(Start(link, at, decode), script), s.phase)
  {
    assert s.published != [] && (s.phase.Ended? <==> Terminal(s.published[|s.published| - 1])) by {
      LifecycleLanguage(link, at, decode, script);
      LastIsTerminalIff(s);
    }
    if s.phase.Ended? {
      EndAnswersAll(link, at, decode, script, s);
    }
  }

  /** What the object holds where it stopped is what it holds at the end of the script. */
  lemma StoppedIsFinal(s: State, script: seq<Event>, to: nat, goal: State)
    requires SessionDriver.Leads(s, script, to, goal)
    requires to < |script| ==> s.phase.Ended?
    ensures s.desk.cmds == goal.desk.cmds && s.desk.issued == goal.desk.issued && s.published == goal.published
    ensures s.phase.Ended? <==> goal.phase.Ended?
    ensures s.conn == goal.conn && s.past == goal.past && s.inbox == goal.inbox
  {
    if to < |script| {
      EndIsFinal(s, script[to..]);
    }
  }

  /**
   A session has ended exactly when its last published state is terminal, and then every
   caller has had its one answer exactly when no job id was drawn while in use.
   */
  method Spawn(link: Link, at: nat, decode: Bytes -> Option<Option<int>>, script: seq<Event>)
    returns (cmds: seq<Cmd>, published: seq<SessionState>, issued: nat, phase: Phase)
    requires Legal(Start(link, at, decode), script)
    ensures Settled(cmds, published, NoReuse(Start(link, at, decode), script), phase)
    ensures issued <= U64_MAX ==> NoReuse(Start(link, at, decode), script)
    ensures cmds == Run(Start(link, at, decode), script).desk.cmds
    ensures published == Run(Start(link, at, decode), script).published
  {
    var driver := new SessionDriver.Driver(link, at, decode);
    ghost var goal := Run(driver.View(), script);
    var to := driver.RunSession(script);
    StoppedIsFinal(driver.View(), script, to, goal);
    RunSettles(link, at, decode, script, goal);
    if goal.desk.issued <= U64_MAX {
      FewRequestsNeverReuse(link, at, decode, script);
    }
    cmds, published, issued, phase := driver.cmds, driver.published, driver.issued, driver.phase;
  }

  // ------------------------------------------------------------------
  // From the socket
  // ------------------------------------------------------------------

  /** What a logon that succeeded hands over. */
  function Handover(logged: LoggedOn, inbox: seq<SteamMessage>): Link {
    Link(logged.steamId, logged.sessionId, logged.heartbeatSecs * SECOND, inbox)
  }

  /** The logon's result, every connection since, and what the last one still holds. */
  datatype Report = Report(logged: LoggedOn, conns: seq<Conn>, inbox: seq<SteamMessage>)

  /** What the first connection of a session that got through its logon has unrouted. */
  function FirstBuffer(report: Report): seq<SteamMessage> {
    if |report.conns| > 1 then [] else report.inbox
  }

  /** Up to `lo` the socket was read by the logon, which returned `taken`; the driver read the rest. */
  ghost predicate AllServed(wire: Wire, arrivals: seq<Arrival>, taken: seq<SteamMessage>, lo: nat, report: Report) {
    && report.conns != [] && lo <= |arrivals|
    && report.conns[0].link.steamId == report.logged.steamId
    && report.conns[0].link.sessionId == report.logged.sessionId
    && report.conns[0].link.heartbeat == 1000 * report.logged.heartbeatSecs
    && forall hi ::
         lo <= hi <= |arrivals| && Heard(ClassifyBy(wire), arrivals, lo, hi, report.conns[0].io) ==>
           Served(ClassifyBy(wire), arrivals, taken, lo, hi, report.conns[0], FirstBuffer(report))
  }

  lemma RunServes(
    wire: Wire, arrivals: seq<Arrival>, taken: seq<SteamMessage>, lo: nat, logged: LoggedOn,
    inbox: seq<SteamMessage>, at: nat, decode: Bytes -> Option<Option<int>>, es: seq<Event>, s: State)
    requires lo <= |arrivals| && Conserved(ClassifyBy(wire), arrivals, taken, inbox, lo, false)
    requires Legal(Start(Handover(logged, inbox), at, decode), es)
    requires s == Run(Start(Handover(logged, inbox), at, decode), es)
    ensures AllServed(wire, arrivals, taken, lo, Report(logged, s.past + [s.conn], s.inbox))
  {
    var link := Handover(logged, inbox);
    FirstLink(Start(link, at, decode), es);
    var report := Report(logged, s.past + [s.conn], s.inbox);
    assert report.conns[0] == ConnAt(s.conn, s.past, 0);
    forall hi | lo <= hi <= |arrivals| && Heard(ClassifyBy(wire), arrivals, lo, hi, report.conns[0].io)
      ensures Served(ClassifyBy(wire), arrivals, taken, lo, hi, report.conns[0], FirstBuffer(report))
    {
      SocketToSubscribers(link, at, decode, es, s, 0, ClassifyBy(wire), arrivals, taken, lo, hi);
    }
  }

  /**
   The socket delivered `pieces`, and the driver has read `hi` of them. What the logon took,
   what was decoded since and what the unread pieces say is all that was said; the part
   decoded was routed in order, but for the buffer and a logoff acted upon.
   */
  ghost predicate SaidServed(pieces: seq<Piece>, taken: seq<SteamMessage>, hi: nat, report: Report)
    requires report.conns != [] && hi <= |pieces|
  {
    && taken + (DecodedOn(report.conns[0]) + Said(pieces, hi)) == Said(pieces, 0)
    && Accounted(report.conns[0], FirstBuffer(report))
  }

  lemma ServedIsSaid(
    wire: Wire, p: Printer, pieces: seq<Piece>, arrivals: seq<Arrival>, taken: seq<SteamMessage>, lo: nat, hi: nat,
    report: Report)
    requires Inverse(wire, p) && Delivers(p, pieces, arrivals) && AllServed(wire, arrivals, taken, lo, report)
    requires lo <= hi <= |arrivals| && Heard(ClassifyBy(wire), arrivals, lo, hi, report.conns[0].io)
    ensures SaidServed(pieces, taken, hi, report)
  {
    var io := report.conns[0].io;
    FlattenIsSaid(wire, p, pieces, arrivals, 0);
    FlattenIsSaid(wire, p, pieces, arrivals, hi);
    if Broken(io) {
      PieceArrives(wire, p, pieces[hi - 1]);
      assert false;
    }
  }

  /** A logon that gave out met nothing in the whole stream that could decide it. */
  lemma SilentMeansUndecided(
    wire: Wire, p: Printer, pieces: seq<Piece>, arrivals: seq<Arrival>, taken: seq<SteamMessage>, lo: nat, failed: bool)
    requires Inverse(wire, p) && Delivers(p, pieces, arrivals) && lo <= |arrivals|
    requires Conserved(ClassifyBy(wire), arrivals, taken, [], lo, failed)
    requires Unread(ClassifyBy(wire), arrivals, lo, failed) == [] && Undecided(taken, 0, |taken|)
    ensures Undecided(Said(pieces, 0), 0, |Said(pieces, 0)|)
  {
    FlattenIsSaid(wire, p, pieces, arrivals, 0);
    assert taken + ([] + []) == taken;
  }

  /**
   Connect, log on, hand over, and serve until the events run out. The socket delivers
   `arrivals`; what else happens may depend on the link. Whenever the driver's reads on its
   first connection are those of the socket, everything the socket delivered is accounted
   for: taken by the logon, whose last message accepted it, routed to subscribers in order,
   still buffered, or unread. If what it delivered are `pieces` printed by `p`, that is
   everything those pieces say; and a logon gives out only if none of it decides.
   */
  method LogonAndServe(
    wire: Wire, arrivals: seq<Arrival>, lw: LogonWire, sent: bool, at: nat,
    decode: Bytes -> Option<Option<int>>, events: Link -> seq<Event>, ghost p: Printer, ghost pieces: seq<Piece>)
    returns (r: Result<Report, ConnectError>, lo: nat, ghost taken: seq<SteamMessage>)
    requires forall link :: Legal(Start(link, at, decode), events(link))
    ensures !sent ==> r == Err(SendFailed)
    ensures r.Ok? ==> DecidedBy(lw, taken, 0, LOGON_HEADER_STEAMID, 0, Ok(r.value.logged))
    ensures r.Ok? ==> AllServed(wire, arrivals, taken, lo, r.value)
    ensures r.Ok? && Inverse(wire, p) && Delivers(p, pieces, arrivals) ==>
              forall hi :: lo <= hi <= |arrivals|
                           && Heard(ClassifyBy(wire), arrivals, lo, hi, r.value.conns[0].io) ==>
                SaidServed(pieces, taken, hi, r.value)
    ensures r.Err? && (r.error.SocketFailed? || r.error.Starved?)
            && Inverse(wire, p) && Delivers(p, pieces, arrivals) ==>
              Undecided(Said(pieces, 0), 0, |Said(pieces, 0)|)
  {
    var conn := new CmConnection(wire, arrivals, at);
    var logged := conn.Logon(lw, sent);
    lo, taken := conn.pos, conn.returned;
    if logged.Err? {
      if Silent(logged) && Inverse(wire, p) && Delivers(p, pieces, arrivals) {
        SilentMeansUndecided(wire, p, pieces, arrivals, taken, lo, conn.failed);
      }
      return Err(logged.error), lo, taken;
    }
    var link := Handover(logged.value, conn.inbox);
    var driver := new SessionDriver.Driver(link, at, decode);
    ghost var goal := Run(driver.View(), events(link));
    var to := driver.RunSession(events(link));
    StoppedIsFinal(driver.View(), events(link), to, goal);
    RunServes(wire, arrivals, taken, lo, logged.value, link.inbox, at, decode, events(link), goal);
    r := Ok(Report(logged.value, driver.past + [driver.conn], driver.inbox));
    if Inverse(wire, p) && Delivers(p, pieces, arrivals) {
      forall hi | lo <= hi <= |arrivals| && Heard(ClassifyBy(wire), arrivals, lo, hi, r.value.conns[0].io)
        ensures SaidServed(pieces, taken, hi, r.value)
      {
        ServedIsSaid(wire, p, pieces, arrivals, taken, lo, hi, r.value);
      }
    }
  }
}
