/**
 The session driver (src/session/driver.rs) as a step machine. Each arm of the source's
 `select!` loops is one event; the socket, the clock and the callers choose which event
 comes next and when. Times are milliseconds.
 */
module SessionModel {
  import opened Wrappers
  import opened Backoff
  import EResult
  import opened LittleEndian
  import opened Codec
  import opened Connection

  const SECOND: nat := 1000
  const PENDING_SWEEP_INTERVAL: nat := SECOND
  const MIN_IDLE_TIMEOUT: nat := 60 * SECOND
  const IDLE_PROBE_MISSES: nat := 6
  const INITIAL_BACKOFF: nat := SECOND
  const MAX_BACKOFF: nat := MAX_BACKOFF_SECS * SECOND
  const EMSG_CLIENT_LOGOFF: nat := 706
  const EMSG_CLIENT_HEARTBEAT: nat := 703
  const EMSG_FRIENDS_LIST: nat := 767
  const EMSG_FRIENDS_GROUPS_LIST: nat := 5553
  const EMSG_PLAYER_NICKNAME_LIST: nat := 5587
  const SNAPSHOT_EMSGS: set<nat> := {EMSG_FRIENDS_LIST, EMSG_FRIENDS_GROUPS_LIST, EMSG_PLAYER_NICKNAME_LIST}

  // ------------------------------------------------------------------
  // Commands and their one-shot replies
  // ------------------------------------------------------------------

  datatype Kind =
    | Request(emsg: nat, body: Bytes, deadline: nat)
    | Notify(emsg: nat, body: Bytes)
    | Logoff

  datatype Reason = Reconnecting | Stopped

  /** What was sent on a command's one-shot; `Abandoned` is a slot reaped unanswered. */
  datatype Outcome =
    | Replied(msg: SteamMessage)
    | Refused(reason: Reason)
    | TimedOut
    | Abandoned
    | Acked(written: bool)
    | LogoffAcked

  /** Where a request was written: connection number, job id, and how much that connection had routed. */
  datatype Ticket = Ticket(epoch: nat, job: nat, mark: nat)

  /** A command taken off the queue, known by its position in that order. */
  datatype Cmd = Cmd(kind: Kind, at: nat, ticket: Option<Ticket>, outcomes: seq<Outcome>)

  datatype Pending = Pending(cmd: nat, deadline: nat)

  /** The request side of the driver: the job counter, the open slots, and every command so far. */
  datatype Desk = Desk(
    nextJob: nat,
    pending: map<nat, Pending>,
    cmds: seq<Cmd>,
    gone: set<nat>,
    issued: nat)

  /** `checked_add(1).unwrap_or(1)`. */
  function NextJob(job: nat): nat {
    if job >= U64_MAX then 1 else job + 1
  }

  /** A command answered as soon as it was taken. */
  function AnswerNow(d: Desk, kind: Kind, at: nat, outcome: Outcome): Desk {
    d.(cmds := d.cmds + [Cmd(kind, at, None, [outcome])])
  }

  /** A request that used up a job id but could not be written. */
  function RefuseRequest(d: Desk, kind: Kind, at: nat): Desk {
    AnswerNow(d, kind, at, Refused(Reconnecting)).(nextJob := NextJob(d.nextJob), issued := d.issued + 1)
  }

  /** A request written on connection `epoch`, now waiting in a slot. */
  function OpenSlot(d: Desk, kind: Kind, at: nat, epoch: nat, mark: nat): Desk
    requires kind.Request?
  {
    d.(nextJob := NextJob(d.nextJob),
       issued := d.issued + 1,
       pending := d.pending[d.nextJob := Pending(|d.cmds|, kind.deadline)],
       cmds := d.cmds + [Cmd(kind, at, Some(Ticket(epoch, d.nextJob, mark)), [])])
  }

  /** Send `outcome` on each of the one-shots in `targets`. */
  function SendAll(cmds: seq<Cmd>, targets: set<nat>, outcome: Outcome): (r: seq<Cmd>)
    ensures |r| == |cmds|
  {
    seq(|cmds|, c requires 0 <= c < |cmds| =>
      if c in targets then cmds[c].(outcomes := cmds[c].outcomes + [outcome]) else cmds[c])
  }

  function Holders(pending: map<nat, Pending>): set<nat> {
    set j | j in pending :: pending[j].cmd
  }

  function FailAllPending(d: Desk, reason: Reason): Desk {
    d.(pending := map[], cmds := SendAll(d.cmds, Holders(d.pending), Refused(reason)))
  }

  function Reaped(d: Desk): set<nat> {
    set j | j in d.pending && d.pending[j].cmd in d.gone :: d.pending[j].cmd
  }

  function Expired(d: Desk, now: nat): set<nat> {
    set j | j in d.pending && d.pending[j].cmd !in d.gone && d.pending[j].deadline <= now :: d.pending[j].cmd
  }

  /** Reap abandoned slots silently and expired ones with a timeout. */
  function SweepPending(d: Desk, now: nat): Desk {
    d.(pending := map j | j in d.pending && d.pending[j].cmd !in d.gone && d.pending[j].deadline > now :: d.pending[j],
       cmds := SendAll(SendAll(d.cmds, Reaped(d), Abandoned), Expired(d, now), TimedOut))
  }

  /** The slot a message answers, if any; both sentinels of `jobid_target` match nothing. */
  function Slot(d: Desk, msg: SteamMessage): Option<nat> {
    match RealJob(msg.header.jobTarget)
    case None => None
    case Some(j) => if j in d.pending then Some(j) else None
  }

  function Deliver(d: Desk, job: nat, msg: SteamMessage): Desk
    requires job in d.pending
  {
    d.(pending := d.pending - {job}, cmds := SendAll(d.cmds, {d.pending[job].cmd}, Replied(msg)))
  }

  // ------------------------------------------------------------------
  // Connections
  // ------------------------------------------------------------------

  /** What a logged-on connection hands the driver. */
  datatype Link = Link(steamId: nat, sessionId: int, heartbeat: nat, inbox: seq<SteamMessage>)

  datatype Outgoing = Outgoing(steamId: nat, sessionId: int, emsg: nat, job: Option<nat>, body: Bytes)

  datatype Io = Sent(at: nat, frame: Outgoing) | Pinged(at: nat) | Arrived(at: nat, what: Inbound)

  /** Where `dispatch` put a message. */
  datatype Routed = ToCaller(cmd: nat, msg: SteamMessage) | Broadcast(msg: SteamMessage)

  /**
   One connection: the link it started from, everything written and read on it, and
   everything routed from it. `logoff` is the position in its stream of a server logoff
   the driver acted on instead of routing.
   */
  datatype Conn = Conn(link: Link, since: nat, io: seq<Io>, routed: seq<Routed>, logoff: Option<nat>)

  datatype Why = Closed | ByServer(code: int) | Undecodable

  datatype SessionState = Connecting | LoggedOnAs(steamId: nat) | LoggedOff(why: Why) | GaveUp

  datatype Phase =
    | Connected(nextHeartbeat: nat, nextSweep: nat, lastFrame: nat)
    | Sleeping(attempt: nat, backoff: nat, since: nat)
    | Attempting(attempt: nat, backoff: nat)
    | Ended

  datatype State = State(
    phase: Phase,
    now: nat,
    steamId: nat,
    sessionId: int,
    heartbeat: nat,
    inbox: seq<SteamMessage>,
    cache: map<nat, Bytes>,
    desk: Desk,
    conn: Conn,
    past: seq<Conn>,
    published: seq<SessionState>,
    decodeLoggedOff: Bytes -> Option<Option<int>>)

  datatype Arm =
    | NoHandles
    | Take(kind: Kind, wrote: bool)
    | Buffered
    | Wire(what: Inbound)
    | Heartbeat(wrote: bool, pinged: bool)
    | Sweep
    | SleepDone
    | AttemptOk(link: Link)
    | AttemptRejected
    | AttemptFailed
    | CallerGone(cmd: nat)

  datatype Event = Event(at: nat, arm: Arm)

  datatype LoopExit = Shutdown | LoggedOffBy(why: Why) | Disconnected

  /** How one arm of the connected loop ends: another turn, or out of the loop. */
  datatype Turn = Again(s: State) | Leave(s: State, exit: LoopExit)

  function Max(a: nat, b: nat): nat {
    if a >= b then a else b
  }

  function Min(a: nat, b: nat): nat {
    if a <= b then a else b
  }

  function IdleTimeout(heartbeat: nat): nat {
    Max(heartbeat * IDLE_PROBE_MISSES, MIN_IDLE_TIMEOUT)
  }

  function Entered(at: nat, heartbeat: nat): Phase {
    Connected(at + heartbeat, at + PENDING_SWEEP_INTERVAL, at)
  }

  function Log(s: State, io: Io): State {
    s.(conn := s.conn.(io := s.conn.io + [io]))
  }

  /** `send_frame`: stamp the driver's own ids. */
  function Send(s: State, emsg: nat, job: Option<nat>, body: Bytes): State {
    Log(s, Sent(s.now, Outgoing(s.steamId, s.sessionId, emsg, job, body)))
  }

  function Route(s: State, r: Routed): State {
    s.(conn := s.conn.(routed := s.conn.routed + [r]))
  }

  function Remember(cache: map<nat, Bytes>, msg: SteamMessage): map<nat, Bytes> {
    if msg.emsg in SNAPSHOT_EMSGS && msg.emsg !in cache then cache[msg.emsg := msg.body] else cache
  }

  /** To the waiting request if the message targets an open slot, else to every subscriber. */
  function Dispatch(s: State, msg: SteamMessage): State {
    match Slot(s.desk, msg)
    case Some(job) =>
      Route(s, ToCaller(s.desk.pending[job].cmd, msg)).(desk := Deliver(s.desk, job, msg))
    case None =>
      Route(s, Broadcast(msg)).(cache := Remember(s.cache, msg))
  }

  function DispatchAll(s: State, ms: seq<SteamMessage>): State
    decreases |ms|
  {
    if ms == [] then s else DispatchAll(Dispatch(s, ms[0]), ms[1..])
  }

  /** A server logoff heals by reconnecting for three named codes and is terminal otherwise. */
  function ClassifyLogoff(decoded: Option<Option<int>>): LoopExit {
    match decoded
    case None => LoggedOffBy(Undecodable)
    case Some(eresult) =>
      var code := OrElse(eresult, EResult.FAIL);
      if code in {EResult.NO_CONNECTION, EResult.SERVICE_UNAVAILABLE, EResult.TRY_ANOTHER_CM} then Disconnected
      else LoggedOffBy(ByServer(code))
  }

  // ------------------------------------------------------------------
  // One turn of the connected loop
  // ------------------------------------------------------------------

  function OnCommand(s: State, kind: Kind, wrote: bool): Turn {
    match kind
    case Notify(emsg, body) =>
      var answered := s.(desk := AnswerNow(s.desk, kind, s.now, Acked(wrote)));
      if wrote then Again(Send(answered, emsg, None, body)) else Leave(answered, Disconnected)
    case Logoff =>
      var answered := s.(desk := AnswerNow(s.desk, kind, s.now, LogoffAcked));
      Leave(if wrote then Send(answered, EMSG_CLIENT_LOGOFF, None, []) else answered, Shutdown)
    case Request(emsg, body, deadline) =>
      if wrote then
        Again(Send(s, emsg, Some(s.desk.nextJob), body)
              .(desk := OpenSlot(s.desk, kind, s.now, |s.past|, |s.conn.routed|)))
      else
        Leave(s.(desk := RefuseRequest(s.desk, kind, s.now)), Disconnected)
  }

  function OnMessage(s: State, msg: SteamMessage): Turn {
    if msg.emsg == EMSG_LOGGED_OFF then
      Leave(s.(conn := s.conn.(logoff := Some(|s.conn.routed|))), ClassifyLogoff(s.decodeLoggedOff(msg.body)))
    else
      Again(Dispatch(s, msg))
  }

  function OnWire(s: State, what: Inbound): Turn
    requires s.phase.Connected?
  {
    var seen := Log(s, Arrived(s.now, what))
                .(phase := if Touches(what) then s.phase.(lastFrame := s.now) else s.phase);
    var (rest, got) := Receive(what);
    match got
    case Failed => Leave(seen, Disconnected)
    case Waiting => Again(seen)
    case Message(msg) => OnMessage(seen.(inbox := rest), msg)
  }

  function OnHeartbeat(s: State, wrote: bool, pinged: bool): Turn
    requires s.phase.Connected?
  {
    if !wrote then Leave(s, Disconnected)
    else
      var beat := Send(s, EMSG_CLIENT_HEARTBEAT, None, []);
      if !pinged then Leave(beat, Disconnected)
      else Again(Log(beat, Pinged(s.now)).(phase := s.phase.(nextHeartbeat := s.now + s.heartbeat)))
  }

  predicate ReadIdleExpired(now: nat, lastFrame: nat, heartbeat: nat) {
    now >= lastFrame + IdleTimeout(heartbeat)
  }

  function OnSweep(s: State): Turn
    requires s.phase.Connected?
  {
    var armed := s.(phase := s.phase.(nextSweep := s.now + PENDING_SWEEP_INTERVAL));
    if ReadIdleExpired(s.now, s.phase.lastFrame, s.heartbeat) then Leave(armed, Disconnected)
    else Again(armed.(desk := SweepPending(s.desk, s.now)))
  }

  function ConnectedTurn(s: State, arm: Arm): Turn
    requires s.phase.Connected?
    requires arm.Buffered? ==> s.inbox != []
  {
    match arm
    case NoHandles => Leave(s, Shutdown)
    case Take(kind, wrote) => OnCommand(s, kind, wrote)
    case Buffered => OnMessage(s.(inbox := s.inbox[1..]), s.inbox[0])
    case Wire(what) => OnWire(s, what)
    case Heartbeat(wrote, pinged) => OnHeartbeat(s, wrote, pinged)
    case Sweep => OnSweep(s)
    case _ => Again(s)
  }

  // ------------------------------------------------------------------
  // Leaving the loop, and the reconnect loop
  // ------------------------------------------------------------------

  /** Free the callers and publish the terminal state. */
  function Stop(s: State, final: SessionState): State {
    s.(desk := FailAllPending(s.desk, Stopped), phase := Ended, published := s.published + [final])
  }

  /** Route what the inbox still holds, fail the rest, publish, and start backing off. */
  function GoDown(s: State): State {
    var drained := DispatchAll(s.(inbox := []), s.inbox);
    drained.(
      desk := FailAllPending(drained.desk, Reconnecting),
      phase := Sleeping(1, INITIAL_BACKOFF, s.now),
      published := s.published + [Connecting])
  }

  function OnExit(s: State, exit: LoopExit): State {
    match exit
    case Shutdown => Stop(s, LoggedOff(Closed))
    case LoggedOffBy(why) => Stop(s, LoggedOff(why))
    case Disconnected => GoDown(s)
  }

  function FreshConn(link: Link, at: nat): Conn {
    Conn(link, at, [], [], None)
  }

  /** Take over the new connection, drop the stale snapshots, and announce it. */
  function GoLive(s: State, link: Link): State {
    s.(steamId := link.steamId,
       sessionId := link.sessionId,
       heartbeat := link.heartbeat,
       inbox := link.inbox,
       cache := map[],
       past := s.past + [s.conn],
       conn := FreshConn(link, s.now),
       phase := Entered(s.now, link.heartbeat),
       published := s.published + [LoggedOnAs(link.steamId)])
  }

  /** `answer_while_down`. */
  function DownCommand(s: State, kind: Kind): State {
    match kind
    case Logoff => Stop(s.(desk := AnswerNow(s.desk, kind, s.now, LogoffAcked)), LoggedOff(Closed))
    case Request(_, _, _) => s.(desk := AnswerNow(s.desk, kind, s.now, Refused(Reconnecting)))
    case Notify(_, _) => s.(desk := AnswerNow(s.desk, kind, s.now, Acked(false)))
  }

  function DownStep(s: State, arm: Arm): State
    requires s.phase.Sleeping? || s.phase.Attempting?
  {
    match arm
    case NoHandles => Stop(s, LoggedOff(Closed))
    case Take(kind, _) => DownCommand(s, kind)
    case SleepDone => s.(phase := Attempting(s.phase.attempt, s.phase.backoff))
    case AttemptOk(link) => GoLive(s, link)
    case AttemptRejected => Stop(s, GaveUp)
    case AttemptFailed =>
      s.(phase := Sleeping(s.phase.attempt + 1, CappedDouble(s.phase.backoff, MAX_BACKOFF), s.now))
    case _ => s
  }

  // ------------------------------------------------------------------
  // Runs
  // ------------------------------------------------------------------

  predicate Enabled(s: State, e: Event) {
    && e.at >= s.now
    && match e.arm
       case CallerGone(_) => true
       case NoHandles => !s.phase.Ended?
       case Take(_, _) => !s.phase.Ended?
       case Buffered => s.phase.Connected? && s.inbox != []
       case Wire(_) => s.phase.Connected? && s.inbox == []
       case Heartbeat(_, _) => s.phase.Connected? && e.at >= s.phase.nextHeartbeat
       case Sweep => s.phase.Connected? && e.at >= s.phase.nextSweep
       case SleepDone => s.phase.Sleeping? && e.at >= s.phase.since + s.phase.backoff
       case AttemptOk(link) => s.phase.Attempting? && link.heartbeat >= SECOND
       case AttemptRejected => s.phase.Attempting?
       case AttemptFailed => s.phase.Attempting?
  }

  function Step(s: State, e: Event): State
    requires Enabled(s, e)
  {
    var t := s.(now := e.at);
    if e.arm.CallerGone? then t.(desk := t.desk.(gone := t.desk.gone + {e.arm.cmd}))
    else if s.phase.Connected? then
      match ConnectedTurn(t, e.arm)
      case Again(u) => u
      case Leave(u, exit) => OnExit(u, exit)
    else
      DownStep(t, e.arm)
  }

  ghost predicate Legal(s: State, es: seq<Event>)
    decreases |es|
  {
    es != [] ==> Enabled(s, es[0]) && Legal(Step(s, es[0]), es[1..])
  }

  ghost function Run(s: State, es: seq<Event>): State
    requires Legal(s, es)
    decreases |es|
  {
    if es == [] then s else Run(Step(s, es[0]), es[1..])
  }

  /** The driver as `spawn_session` starts it. */
  function Start(link: Link, at: nat, decodeLoggedOff: Bytes -> Option<Option<int>>): State {
    State(
      Entered(at, link.heartbeat), at, link.steamId, link.sessionId, link.heartbeat, link.inbox,
      map[], Desk(1, map[], [], {}, 0), FreshConn(link, at), [],
      [LoggedOnAs(link.steamId)], decodeLoggedOff)
  }
}
