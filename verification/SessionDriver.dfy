/**
 The driver in its own form: one object whose fields the loops of `run`, `run_connected`
 and `reconnect` update. `script` is what the environment does, one `select!` arm at a time;
 each method is proved against the step machine.
 */
module SessionDriver {
  import opened Wrappers
  import opened Backoff
  import opened LittleEndian
  import opened Codec
  import opened Connection
  import Model = SessionModel
  import opened SessionModel
  import opened SessionBasics

  /** How an arm ended: still in the loop, or out of it. */
  function TurnOf(s: State, exit: Option<LoopExit>): Turn {
    if exit.Some? then Leave(s, exit.value) else Again(s)
  }

  datatype ReconnectEnd = Live | Stopping | Rejected

  /** The new connection in place, before it is announced. */
  function TakenOver(s: State, link: Link): State {
    s.(steamId := link.steamId,
       sessionId := link.sessionId,
       heartbeat := link.heartbeat,
       inbox := link.inbox,
       past := s.past + [s.conn],
       conn := FreshConn(link, s.now))
  }

  function DownArmStep(s: State, arm: Arm): State
    requires s.phase.Sleeping? || s.phase.Attempting?
  {
    if arm.CallerGone? then s.(desk := s.desk.(gone := s.desk.gone + {arm.cmd})) else DownStep(s, arm)
  }

  /** What is left to do once the new connection is in place. */
  function Announced(s: State): State {
    s.(cache := map[],
       phase := Entered(s.now, s.heartbeat),
       published := s.published + [LoggedOnAs(s.steamId)])
  }

  lemma DispatchIgnoresInbox(s: State, msg: SteamMessage, inbox: seq<SteamMessage>)
    ensures Model.Dispatch(s.(inbox := inbox), msg).(inbox := []) == Model.Dispatch(s.(inbox := []), msg)
  {
  }

  /** What is still to be done after the reconnect loop ended this way. */
  function Ending(s: State, end: Option<ReconnectEnd>): State {
    match end
    case None => s
    case Some(Live) => Announced(s)
    case Some(Stopping) => Stop(s, LoggedOff(Closed))
    case Some(Rejected) => Stop(s, GaveUp)
  }

  /** From `s`, the events from `i` on are legal and end in `goal`. */
  ghost predicate Leads(s: State, es: seq<Event>, i: nat, goal: State) {
    i <= |es| && Legal(s, es[i..]) && Run(s, es[i..]) == goal
  }

  lemma RunStep(s: State, es: seq<Event>, i: nat)
    requires i < |es| && Legal(s, es[i..])
    ensures Enabled(s, es[i])
    ensures Leads(Step(s, es[i]), es, i + 1, Run(s, es[i..]))
  {
    assert es[i..][0] == es[i] && es[i..][1..] == es[i + 1..];
  }

  function With(cmds: seq<Cmd>, c: nat, outcome: Outcome): seq<Cmd>
    requires c < |cmds|
  {
    cmds[c := cmds[c].(outcomes := cmds[c].outcomes + [outcome])]
  }

  /** Answering one more command after others of the same set. */
  lemma SendOneMore(cmds: seq<Cmd>, done: set<nat>, c: nat, outcome: Outcome)
    requires c < |cmds| && c !in done
    ensures SendAll(cmds, done + {c}, outcome) == With(SendAll(cmds, done, outcome), c, outcome)
  {
  }

  /** The same for the first of two sets, when the command is in neither. */
  lemma SendOneEarlier(cmds: seq<Cmd>, a: set<nat>, x: Outcome, b: set<nat>, y: Outcome, c: nat)
    requires c < |cmds| && c !in a && c !in b
    ensures SendAll(SendAll(cmds, a + {c}, x), b, y) == With(SendAll(SendAll(cmds, a, x), b, y), c, x)
  {
  }

  lemma SendOnly(cmds: seq<Cmd>, c: nat, outcome: Outcome)
    requires c < |cmds|
    ensures SendAll(cmds, {c}, outcome) == With(cmds, c, outcome)
  {
  }

  lemma SendNone(cmds: seq<Cmd>, outcome: Outcome)
    ensures SendAll(cmds, {}, outcome) == cmds
  {
  }

  /** No two slots belong to the same command. */
  ghost predicate Injective(entries: map<nat, Pending>) {
    forall j, k :: j in entries && k in entries && entries[j].cmd == entries[k].cmd ==> j == k
  }

  /** The commands of the slots in `keys`. */
  ghost function CmdsOf(entries: map<nat, Pending>, keys: set<nat>): set<nat> {
    set j | j in keys && j in entries :: entries[j].cmd
  }

  lemma CmdsOfOneMore(entries: map<nat, Pending>, keys: set<nat>, job: nat)
    requires Injective(entries) && job in entries && job !in keys
    ensures entries[job].cmd !in CmdsOf(entries, keys)
    ensures CmdsOf(entries, keys + {job}) == CmdsOf(entries, keys) + {entries[job].cmd}
  {
  }

  /** `cmds` is what failing the slots in `done` makes of `before`. */
  ghost predicate Drained(
    before: seq<Cmd>, entries: map<nat, Pending>, done: set<nat>, reason: Reason, cmds: seq<Cmd>)
  {
    cmds == SendAll(before, CmdsOf(entries, done), Refused(reason))
  }

  lemma DrainedStep(
    before: seq<Cmd>, entries: map<nat, Pending>, done: set<nat>, reason: Reason, cmds: seq<Cmd>, job: nat)
    requires Drained(before, entries, done, reason, cmds) && SlotsValid(entries, before)
    requires job in entries && job !in done
    ensures |cmds| == |before|
    ensures Drained(before, entries, done + {job}, reason, With(cmds, entries[job].cmd, Refused(reason)))
  {
    CmdsOfOneMore(entries, done, job);
    SendOneMore(before, CmdsOf(entries, done), entries[job].cmd, Refused(reason));
  }

  lemma DrainedAll(before: seq<Cmd>, entries: map<nat, Pending>, reason: Reason, cmds: seq<Cmd>)
    requires Drained(before, entries, entries.Keys, reason, cmds)
    ensures cmds == SendAll(before, Holders(entries), Refused(reason))
  {
    assert CmdsOf(entries, entries.Keys) == Holders(entries);
  }

  /** The commands of abandoned slots among `keys`. */
  ghost function AbandonedIn(entries: map<nat, Pending>, gone: set<nat>, keys: set<nat>): set<nat> {
    set j | j in keys && j in entries && entries[j].cmd in gone :: entries[j].cmd
  }

  /** The commands of overdue slots among `keys`. */
  ghost function OverdueIn(entries: map<nat, Pending>, gone: set<nat>, now: nat, keys: set<nat>): set<nat> {
    set j | j in keys && j in entries && entries[j].cmd !in gone && entries[j].deadline <= now :: entries[j].cmd
  }

  ghost function Kept(entries: map<nat, Pending>, gone: set<nat>, now: nat, keys: set<nat>): map<nat, Pending> {
    map j | j in keys && j in entries && entries[j].cmd !in gone && entries[j].deadline > now :: entries[j]
  }

  /** The commands after the slots in `keys` were swept. */
  ghost function SweptCmds(
    cmds: seq<Cmd>, entries: map<nat, Pending>, gone: set<nat>, now: nat, keys: set<nat>): (r: seq<Cmd>)
    ensures |r| == |cmds|
  {
    SendAll(SendAll(cmds, AbandonedIn(entries, gone, keys), Abandoned),
            OverdueIn(entries, gone, now, keys), TimedOut)
  }

  /** `cmds` and `kept` are what the slots in `done` make of `before`. */
  ghost predicate Swept(
    before: seq<Cmd>, entries: map<nat, Pending>, gone: set<nat>, now: nat, done: set<nat>,
    cmds: seq<Cmd>, kept: map<nat, Pending>)
  {
    cmds == SweptCmds(before, entries, gone, now, done) && kept == Kept(entries, gone, now, done)
  }

  lemma SweptNone(cmds: seq<Cmd>, entries: map<nat, Pending>, gone: set<nat>, now: nat)
    ensures Swept(cmds, entries, gone, now, {}, cmds, map[])
  {
    assert AbandonedIn(entries, gone, {}) == {} && OverdueIn(entries, gone, now, {}) == {};
    SendNone(cmds, Abandoned);
    SendNone(cmds, TimedOut);
  }

  lemma KeptOneMore(entries: map<nat, Pending>, gone: set<nat>, now: nat, keys: set<nat>, job: nat)
    requires job in entries
    ensures Kept(entries, gone, now, keys + {job})
            == if entries[job].cmd !in gone && entries[job].deadline > now
               then Kept(entries, gone, now, keys)[job := entries[job]]
               else Kept(entries, gone, now, keys)
  {
  }

  lemma SweptOneMore(
    cmds: seq<Cmd>, entries: map<nat, Pending>, gone: set<nat>, now: nat, keys: set<nat>, job: nat)
    requires Injective(entries) && job in entries && job !in keys && entries[job].cmd < |cmds|
    ensures var entry := entries[job];
            var was := SweptCmds(cmds, entries, gone, now, keys);
            SweptCmds(cmds, entries, gone, now, keys + {job})
            == if entry.cmd in gone then With(was, entry.cmd, Abandoned)
               else if entry.deadline <= now then With(was, entry.cmd, TimedOut)
               else was
  {
    var entry := entries[job];
    var a, b := AbandonedIn(entries, gone, keys), OverdueIn(entries, gone, now, keys);
    var a', b' := AbandonedIn(entries, gone, keys + {job}), OverdueIn(entries, gone, now, keys + {job});
    assert entry.cmd !in a && entry.cmd !in b;
    if entry.cmd in gone {
      assert a' == a + {entry.cmd} && b' == b;
      SendOneEarlier(cmds, a, Abandoned, b, TimedOut, entry.cmd);
    } else if entry.deadline <= now {
      assert a' == a && b' == b + {entry.cmd};
      SendOneMore(SendAll(cmds, a, Abandoned), b, entry.cmd, TimedOut);
    } else {
      assert a' == a && b' == b;
    }
  }

  lemma SweptStep(
    before: seq<Cmd>, entries: map<nat, Pending>, gone: set<nat>, now: nat, done: set<nat>,
    cmds: seq<Cmd>, kept: map<nat, Pending>, job: nat)
    requires Swept(before, entries, gone, now, done, cmds, kept)
    requires Injective(entries) && job in entries && job !in done && entries[job].cmd < |before|
    ensures |cmds| == |before|
    ensures var entry := entries[job];
            if entry.cmd in gone then
              Swept(before, entries, gone, now, done + {job}, With(cmds, entry.cmd, Abandoned), kept)
            else if entry.deadline <= now then
              Swept(before, entries, gone, now, done + {job}, With(cmds, entry.cmd, TimedOut), kept)
            else
              Swept(before, entries, gone, now, done + {job}, cmds, kept[job := entry])
  {
    SweptOneMore(before, entries, gone, now, done, job);
    KeptOneMore(entries, gone, now, done, job);
  }

  ghost predicate SlotsValid(pending: map<nat, Pending>, cmds: seq<Cmd>) {
    (forall j :: j in pending ==> pending[j].cmd < |cmds|) && Injective(pending)
  }

  lemma SweptAll(d: Desk, now: nat, cmds: seq<Cmd>, kept: map<nat, Pending>)
    requires SlotsValid(d.pending, d.cmds)
    requires Swept(d.cmds, d.pending, d.gone, now, d.pending.Keys, cmds, kept)
    ensures Model.SweepPending(d, now) == d.(pending := kept, cmds := cmds)
    ensures SlotsValid(kept, cmds)
  {
    assert AbandonedIn(d.pending, d.gone, d.pending.Keys) == Reaped(d);
    assert OverdueIn(d.pending, d.gone, now, d.pending.Keys) == Expired(d, now);
    assert kept == Model.SweepPending(d, now).pending;
  }

  class Driver {
    var phase: Phase
    var now: nat
    var steamId: nat
    var sessionId: int
    var heartbeat: nat
    var inbox: seq<SteamMessage>
    var cache: map<nat, Bytes>
    var nextJob: nat
    var pending: map<nat, Pending>
    var cmds: seq<Cmd>
    var gone: set<nat>
    var issued: nat
    var conn: Conn
    var past: seq<Conn>
    var published: seq<SessionState>
    const decodeLoggedOff: Bytes -> Option<Option<int>>

    ghost function DeskView(): Desk
      reads this
    {
      Desk(nextJob, pending, cmds, gone, issued)
    }

    ghost function View(): State
      reads this
    {
      State(phase, now, steamId, sessionId, heartbeat, inbox, cache, DeskView(), conn, past, published,
            decodeLoggedOff)
    }

    /** Each open slot belongs to a command taken earlier, and no two share one. */
    ghost predicate Valid()
      reads this
    {
      SlotsValid(pending, cmds)
    }

    constructor (link: Link, at: nat, decode: Bytes -> Option<Option<int>>)
      ensures View() == Start(link, at, decode) && Valid()
    {
      phase := Entered(at, link.heartbeat);
      now := at;
      steamId, sessionId, heartbeat := link.steamId, link.sessionId, link.heartbeat;
      inbox := link.inbox;
      cache := map[];
      nextJob := 1;
      pending := map[];
      cmds := [];
      gone := {};
      issued := 0;
      conn := FreshConn(link, at);
      past := [];
      published := [LoggedOnAs(link.steamId)];
      decodeLoggedOff := decode;
    }

    /** Send on a command's one-shot. */
    method Reply(c: nat, outcome: Outcome)
      requires c < |cmds|
      modifies this`cmds
      ensures cmds == With(old(cmds), c, outcome)
    {
      cmds := cmds[c := cmds[c].(outcomes := cmds[c].outcomes + [outcome])];
    }

    /** Hand a message to the request waiting under `job`. */
    method Complete(job: nat, msg: SteamMessage)
      requires Valid() && job in pending
      modifies this`pending, this`cmds, this`conn
      ensures DeskView() == Deliver(old(DeskView()), job, msg) && Valid()
      ensures conn == old(conn).(routed := old(conn).routed + [ToCaller(old(pending)[job].cmd, msg)])
    {
      var entry := pending[job];
      pending := pending - {job};
      SendOnly(cmds, entry.cmd, Replied(msg));
      Reply(entry.cmd, Replied(msg));
      conn := conn.(routed := conn.routed + [ToCaller(entry.cmd, msg)]);
    }

    method Dispatch(msg: SteamMessage)
      requires Valid()
      modifies this`pending, this`cmds, this`cache, this`conn
      ensures View() == Model.Dispatch(old(View()), msg) && Valid()
    {
      var target := msg.header.jobTarget;
      if target.Some? && target.value != 0 && target.value != U64_MAX {
        var job := target.value;
        if job in pending {
          Complete(job, msg);
          return;
        }
      }
      if msg.emsg in SNAPSHOT_EMSGS {
        if msg.emsg !in cache {
          cache := cache[msg.emsg := msg.body];
        }
      }
      conn := conn.(routed := conn.routed + [Broadcast(msg)]);
    }

    /** Drain the slots in whatever order the map yields them. */
    method FailAllPending(reason: Reason)
      requires Valid()
      modifies this`pending, this`cmds
      ensures DeskView() == Model.FailAllPending(old(DeskView()), reason) && Valid()
    {
      var entries := pending;
      pending := map[];
      var keys := entries.Keys;
      ghost var done: set<nat> := {};
      SendNone(cmds, Refused(reason));
      while keys != {}
        invariant pending == map[] && keys !! done && keys + done == entries.Keys
        invariant Drained(old(cmds), entries, done, reason, cmds)
        decreases keys
      {
        var job :| job in keys;
        DrainedStep(old(cmds), entries, done, reason, cmds, job);
        Reply(entries[job].cmd, Refused(reason));
        keys, done := keys - {job}, done + {job};
      }
      assert done == entries.Keys;
      DrainedAll(old(cmds), entries, reason, cmds);
    }

    /** Keep what is neither abandoned nor overdue; tell the overdue. */
    method SweepPending()
      requires Valid()
      modifies this`pending, this`cmds
      ensures DeskView() == Model.SweepPending(old(DeskView()), now) && Valid()
    {
      var entries := pending;
      var keys := entries.Keys;
      var kept: map<nat, Pending> := map[];
      ghost var done: set<nat> := {};
      SweptNone(cmds, entries, gone, now);
      while keys != {}
        invariant keys !! done && keys + done == entries.Keys
        invariant Swept(old(cmds), entries, gone, now, done, cmds, kept)
        decreases keys
      {
        var job :| job in keys;
        var entry := entries[job];
        SweptStep(old(cmds), entries, gone, now, done, cmds, kept, job);
        if entry.cmd in gone {
          Reply(entry.cmd, Abandoned);
        } else if entry.deadline <= now {
          Reply(entry.cmd, TimedOut);
        } else {
          kept := kept[job := entry];
        }
        keys, done := keys - {job}, done + {job};
      }
      pending := kept;
      assert done == entries.Keys;
      SweptAll(old(DeskView()), now, cmds, kept);
    }

    method SendFrame(emsg: nat, job: Option<nat>, body: Bytes)
      modifies this`conn
      ensures View() == Model.Send(old(View()), emsg, job, body)
    {
      conn := conn.(io := conn.io + [Sent(now, Outgoing(steamId, sessionId, emsg, job, body))]);
    }

    /** Write the notification, if the socket takes it, and say whether it did. */
    method TakeNotify(kind: Kind, wrote: bool)
      requires Valid() && kind.Notify?
      modifies this`conn, this`cmds
      ensures View() == OnCommand(old(View()), kind, wrote).s && Valid()
    {
      if wrote {
        SendFrame(kind.emsg, None, kind.body);
      }
      cmds := cmds + [Cmd(kind, now, None, [Acked(wrote)])];
    }

    /** A best-effort goodbye. */
    method TakeLogoff(wrote: bool)
      requires Valid()
      modifies this`conn, this`cmds
      ensures View() == OnCommand(old(View()), Logoff, wrote).s && Valid()
    {
      if wrote {
        SendFrame(EMSG_CLIENT_LOGOFF, None, []);
      }
      cmds := cmds + [Cmd(Logoff, now, None, [LogoffAcked])];
    }

    method DrawId() returns (job: nat)
      modifies this`nextJob, this`issued
      ensures job == old(nextJob) && nextJob == NextJob(job) && issued == old(issued) + 1
    {
      job := nextJob;
      nextJob := NextJob(nextJob);
      issued := issued + 1;
    }

    /** Keep the request's one-shot until its reply comes. */
    method Park(kind: Kind, ticket: Ticket)
      requires Valid() && kind.Request?
      modifies this`cmds, this`pending
      ensures pending == old(pending)[ticket.job := Pending(|old(cmds)|, kind.deadline)]
      ensures cmds == old(cmds) + [Cmd(kind, now, Some(ticket), [])] && Valid()
    {
      pending := pending[ticket.job := Pending(|cmds|, kind.deadline)];
      cmds := cmds + [Cmd(kind, now, Some(ticket), [])];
    }

    /** Draw an id, write the request under it, and open its slot. */
    method TakeRequest(kind: Kind, wrote: bool)
      requires Valid() && kind.Request?
      modifies this`conn, this`cmds, this`pending, this`nextJob, this`issued
      ensures View() == OnCommand(old(View()), kind, wrote).s && Valid()
    {
      var job := DrawId();
      if wrote {
        var ticket := Ticket(|past|, job, |conn.routed|);
        SendFrame(kind.emsg, Some(job), kind.body);
        Park(kind, ticket);
      } else {
        cmds := cmds + [Cmd(kind, now, None, [Refused(Reconnecting)])];
      }
    }

    method TakeCommand(kind: Kind, wrote: bool) returns (exit: Option<LoopExit>)
      requires Valid()
      modifies this`conn, this`cmds, this`pending, this`nextJob, this`issued
      ensures TurnOf(View(), exit) == OnCommand(old(View()), kind, wrote) && Valid()
    {
      match kind {
        case Notify(_, _) =>
          TakeNotify(kind, wrote);
          exit := if wrote then None else Some(Disconnected);
        case Logoff =>
          TakeLogoff(wrote);
          exit := Some(Shutdown);
        case Request(_, _, _) =>
          TakeRequest(kind, wrote);
          exit := if wrote then None else Some(Disconnected);
      }
    }

    method TakeMessage(msg: SteamMessage) returns (exit: Option<LoopExit>)
      requires Valid()
      modifies this`conn, this`cmds, this`pending, this`cache
      ensures TurnOf(View(), exit) == OnMessage(old(View()), msg) && Valid()
    {
      if msg.emsg == EMSG_LOGGED_OFF {
        exit := Some(ClassifyLogoff(decodeLoggedOff(msg.body)));
        conn := conn.(logoff := Some(|conn.routed|));
      } else {
        Dispatch(msg);
        exit := None;
      }
    }

    /** The read arm with an empty inbox: one arrival. */
    method TakeArrival(what: Inbound) returns (exit: Option<LoopExit>)
      requires Valid() && phase.Connected?
      modifies this`conn, this`cmds, this`pending, this`cache, this`phase, this`inbox
      ensures TurnOf(View(), exit) == OnWire(old(View()), what) && Valid()
    {
      conn := conn.(io := conn.io + [Arrived(now, what)]);
      if Touches(what) {
        phase := phase.(lastFrame := now);
      }
      if Fatal(what) {
        return Some(Disconnected);
      }
      var messages := Yield(what);
      if messages == [] {
        return None;
      }
      inbox := messages[1..];
      exit := TakeMessage(messages[0]);
    }

    method Beat(wrote: bool, pinged: bool) returns (exit: Option<LoopExit>)
      requires Valid() && phase.Connected?
      modifies this`conn, this`phase
      ensures TurnOf(View(), exit) == OnHeartbeat(old(View()), wrote, pinged) && Valid()
    {
      if !wrote {
        return Some(Disconnected);
      }
      SendFrame(EMSG_CLIENT_HEARTBEAT, None, []);
      if !pinged {
        return Some(Disconnected);
      }
      conn := conn.(io := conn.io + [Pinged(now)]);
      phase := phase.(nextHeartbeat := now + heartbeat);
      exit := None;
    }

    method SweepTick() returns (exit: Option<LoopExit>)
      requires Valid() && phase.Connected?
      modifies this`phase, this`pending, this`cmds
      ensures TurnOf(View(), exit) == OnSweep(old(View())) && Valid()
    {
      phase := phase.(nextSweep := now + PENDING_SWEEP_INTERVAL);
      if ReadIdleExpired(now, phase.lastFrame, heartbeat) {
        return Some(Disconnected);
      }
      SweepPending();
      exit := None;
    }

    /** One arm of the connected loop. */
    method Turn(arm: Arm) returns (exit: Option<LoopExit>)
      requires Valid() && phase.Connected?
      requires arm.Buffered? ==> inbox != []
      modifies this
      ensures TurnOf(View(), exit) == ConnectedTurn(old(View()), arm) && Valid()
    {
      exit := None;
      match arm {
        case NoHandles => exit := Some(Shutdown);
        case Take(kind, wrote) => exit := TakeCommand(kind, wrote);
        case Buffered =>
          var msg := inbox[0];
          inbox := inbox[1..];
          exit := TakeMessage(msg);
        case Wire(what) => exit := TakeArrival(what);
        case Heartbeat(wrote, pinged) => exit := Beat(wrote, pinged);
        case Sweep => exit := SweepTick();
        case _ =>
      }
    }

    /** `run_connected`: turn after turn until an arm leaves the loop or the script is over. */
    method RunConnected(script: seq<Event>, from: nat) returns (exit: Option<LoopExit>, to: nat)
      requires Valid() && phase.Connected?
      requires from <= |script| && Legal(View(), script[from..])
      modifies this
      ensures Valid() && from <= to <= |script|
      ensures exit.None? ==> to == |script| && Leads(View(), script, to, Run(old(View()), script[from..]))
      ensures exit.Some? ==> from < to && phase.Connected?
      ensures exit.Some? ==> Leads(OnExit(View(), exit.value), script, to, Run(old(View()), script[from..]))
    {
      to := from;
      exit := None;
      ghost var goal := Run(View(), script[from..]);
      while to < |script|
        invariant Valid() && phase.Connected? && from <= to <= |script| && exit.None?
        invariant Leads(View(), script, to, goal)
        decreases |script| - to
      {
        ghost var before := View();
        RunStep(before, script, to);
        var e := script[to];
        to := to + 1;
        exit := ConnectedEvent(e);
        if exit.Some? {
          return;
        }
      }
    }

    /** One event in the connected loop. */
    method ConnectedEvent(e: Event) returns (exit: Option<LoopExit>)
      requires Valid() && phase.Connected? && Enabled(View(), e)
      modifies this
      ensures Valid() && phase.Connected?
      ensures Step(old(View()), e) == if exit.Some? then OnExit(View(), exit.value) else View()
    {
      now := e.at;
      exit := None;
      if e.arm.CallerGone? {
        gone := gone + {e.arm.cmd};
      } else {
        TurnKeeps(View(), e.arm);
        exit := Turn(e.arm);
      }
    }

    /** `answer_while_down`. */
    method AnswerWhileDown(kind: Kind) returns (stop: bool)
      requires Valid()
      modifies this`cmds
      ensures stop == kind.Logoff? && Valid()
      ensures stop ==> DeskView() == AnswerNow(old(DeskView()), kind, now, LogoffAcked)
      ensures !stop ==> View() == DownCommand(old(View()), kind)
    {
      match kind {
        case Logoff =>
          cmds := cmds + [Cmd(kind, now, None, [LogoffAcked])];
          stop := true;
        case Request(_, _, _) =>
          cmds := cmds + [Cmd(kind, now, None, [Refused(Reconnecting)])];
          stop := false;
        case Notify(_, _) =>
          cmds := cmds + [Cmd(kind, now, None, [Acked(false)])];
          stop := false;
      }
    }

    /** Replace the ids by those of a new connection. */
    method TakeIds(link: Link)
      modifies this`steamId, this`sessionId, this`heartbeat
      ensures View() == old(View()).(steamId := link.steamId, sessionId := link.sessionId, heartbeat := link.heartbeat)
    {
      steamId := link.steamId;
      sessionId := link.sessionId;
      heartbeat := link.heartbeat;
    }

    /** Replace the socket halves and the inbox. */
    method TakeSocket(link: Link)
      modifies this`inbox, this`past, this`conn
      ensures View() == old(View()).(inbox := link.inbox, past := old(past) + [old(conn)], conn := FreshConn(link, now))
    {
      inbox := link.inbox;
      past := past + [conn];
      conn := FreshConn(link, now);
    }

    method TakeOver(link: Link)
      modifies this`steamId, this`sessionId, this`heartbeat, this`inbox, this`past, this`conn
      ensures View() == TakenOver(old(View()), link)
    {
      TakeSocket(link);
      TakeIds(link);
    }

    /** Another attempt failed: wait twice as long, up to the cap. */
    method BackOff()
      requires phase.Attempting?
      modifies this`phase
      ensures View() == DownStep(old(View()), AttemptFailed)
    {
      phase := Sleeping(phase.attempt + 1, CappedDouble(phase.backoff, MAX_BACKOFF), now);
    }

    method StartAttempt()
      requires phase.Sleeping?
      modifies this`phase
      ensures View() == DownStep(old(View()), SleepDone)
    {
      phase := Attempting(phase.attempt, phase.backoff);
    }

    /**
     One event while down. A new connection is taken over here; `Run` clears the cache
     and announces it.
     */
    method DownEvent(e: Event) returns (end: Option<ReconnectEnd>)
      requires Valid() && (phase.Sleeping? || phase.Attempting?) && Enabled(View(), e)
      modifies this
      ensures Valid()
      ensures end.None? ==> phase.Sleeping? || phase.Attempting?
      ensures Ending(View(), end) == Step(old(View()), e)
    {
      now := e.at;
      end := DownArm(e.arm);
    }

    method DownArm(arm: Arm) returns (end: Option<ReconnectEnd>)
      requires Valid() && (phase.Sleeping? || phase.Attempting?)
      requires arm.SleepDone? ==> phase.Sleeping?
      requires arm.AttemptFailed? ==> phase.Attempting?
      modifies this
      ensures Valid()
      ensures end.None? ==> phase.Sleeping? || phase.Attempting?
      ensures Ending(View(), end) == DownArmStep(old(View()), arm)
    {
      end := None;
      match arm {
        case CallerGone(c) => gone := gone + {c};
        case NoHandles => end := Some(Stopping);
        case Take(kind, _) =>
          var stop := AnswerWhileDown(kind);
          if stop {
            end := Some(Stopping);
          }
        case SleepDone => StartAttempt();
        case AttemptOk(link) =>
          TakeOver(link);
          end := Some(Live);
        case AttemptRejected => end := Some(Rejected);
        case AttemptFailed => BackOff();
        case _ =>
      }
    }

    /** `reconnect`: sleep and attempt in turn, answering commands meanwhile. */
    method Reconnect(script: seq<Event>, from: nat) returns (end: Option<ReconnectEnd>, to: nat)
      requires Valid() && phase.Sleeping?
      requires from <= |script| && Legal(View(), script[from..])
      modifies this
      ensures Valid() && from <= to <= |script|
      ensures end.None? ==> to == |script|
      ensures Leads(Ending(View(), end), script, to, Run(old(View()), script[from..]))
    {
      to := from;
      end := None;
      ghost var goal := Run(View(), script[from..]);
      while to < |script|
        invariant Valid() && (phase.Sleeping? || phase.Attempting?) && from <= to <= |script| && end.None?
        invariant Leads(View(), script, to, goal)
        decreases |script| - to
      {
        RunStep(View(), script, to);
        var e := script[to];
        to := to + 1;
        end := DownEvent(e);
        if end.Some? {
          return;
        }
      }
    }

    /** Messages already unpacked are still deliverable: route them before anyone is failed. */
    method Drain()
      requires Valid()
      modifies this`inbox, this`pending, this`cmds, this`cache, this`conn
      ensures Valid()
      ensures View() == DispatchAll(old(View()).(inbox := []), old(inbox))
    {
      ghost var goal := DispatchAll(View().(inbox := []), inbox);
      while inbox != []
        invariant Valid()
        invariant DispatchAll(View().(inbox := []), inbox) == goal
        decreases |inbox|
      {
        ghost var before := View();
        var msg := inbox[0];
        inbox := inbox[1..];
        Dispatch(msg);
        DispatchIgnoresInbox(before, msg, inbox);
      }
    }

    /** `run`: connected, down, connected again, until something stops it. */
    method RunSession(script: seq<Event>) returns (to: nat)
      requires Valid() && phase.Connected? && Legal(View(), script)
      modifies this
      ensures Valid() && to <= |script|
      ensures Leads(View(), script, to, Run(old(View()), script))
      ensures to < |script| ==> phase.Ended?
    {
      ghost var goal := Run(View(), script);
      assert script[0..] == script;
      to := 0;
      while true
        invariant Valid() && phase.Connected? && to <= |script|
        invariant Leads(View(), script, to, goal)
        decreases |script| - to
      {
        var final, over;
        final, over, to := Round(script, to);
        if final.Some? {
          Finish(final.value);
          return;
        }
        if over {
          return;
        }
      }
    }

    /** One pass of the source's outer loop: `final` ends it, `over` is the end of the script. */
    method Round(script: seq<Event>, from: nat) returns (final: Option<SessionState>, over: bool, to: nat)
      requires Valid() && phase.Connected? && from <= |script| && Legal(View(), script[from..])
      modifies this
      ensures Valid() && from <= to <= |script|
      ensures final.Some? ==> Leads(Stop(View(), final.value), script, to, Run(old(View()), script[from..]))
      ensures final.None? ==> Leads(View(), script, to, Run(old(View()), script[from..]))
      ensures final.None? && over ==> to == |script|
      ensures final.None? && !over ==> from < to && phase.Connected?
    {
      final, over := None, false;
      var exit;
      exit, to := RunConnected(script, from);
      if exit.None? {
        over := true;
        return;
      }
      if exit.value.Shutdown? {
        final := Some(LoggedOff(Closed));
        return;
      }
      if exit.value.LoggedOffBy? {
        final := Some(LoggedOff(exit.value.why));
        return;
      }
      GoDown();
      var end;
      end, to := Reconnect(script, to);
      if end.None? {
        over := true;
        return;
      }
      match end.value {
        case Stopping => final := Some(LoggedOff(Closed));
        case Rejected => final := Some(GaveUp);
        case Live => Announce();
      }
    }

    /** A fresh logon: the old snapshots are stale, and watchers hear of it. */
    method Announce()
      requires Valid()
      modifies this`cache, this`phase, this`published
      ensures Valid() && View() == Announced(old(View())) && phase.Connected?
    {
      cache := map[];
      phase := Entered(now, heartbeat);
      published := published + [LoggedOnAs(steamId)];
    }

    /** Every way out frees its callers before publishing the terminal state. */
    method Finish(final: SessionState)
      requires Valid()
      modifies this`pending, this`cmds, this`phase, this`published
      ensures Valid() && View() == Stop(old(View()), final) && phase.Ended?
    {
      FailAllPending(Stopped);
      phase := Ended;
      published := published + [final];
    }

    method GoDown()
      requires Valid() && phase.Connected?
      modifies this
      ensures Valid() && View() == Model.GoDown(old(View()))
    {
      Drain();
      DispatchAllKeeps(old(View()).(inbox := []), old(inbox));
      FailAllPending(Reconnecting);
      published := published + [Connecting];
      phase := Sleeping(1, INITIAL_BACKOFF, now);
    }
  }
}
