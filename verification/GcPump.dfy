/**
 The Game Coordinator pump (src/gc/coordinator.rs). The session state is a versioned watch
 channel that keeps only the newest state; GC traffic comes in order on another channel.
 */
module GcPump {
  import opened Wrappers
  import opened LittleEndian
  import opened Codec
  import opened GcEnvelope

  const EMSG_CLIENT_FROM_GC: nat := 5453
  const GC_CLIENT_WELCOME: nat := 4004
  const GC_CLIENT_CONNECTION_STATUS: nat := 4009
  const MAX_HELLO_ATTEMPTS: nat := 20
  const HAVE_SESSION: int := 0

  /** An absent status means a session; an undecodable one means none. */
  predicate HasGcSession(status: Option<Option<int>>) {
    match status
    case None => false
    case Some(None) => true
    case Some(Some(s)) => s == HAVE_SESSION
  }

  datatype Config = Config(appId: nat, wire: GcWire, decodeStatus: Bytes -> Option<Option<int>>)

  /** What the pump meets. `SetState` is the driver publishing; the rest are the pump's own turns. */
  datatype PumpEvent =
    | SetState(loggedOn: bool)
    | Changed
    | Borrow
    | Tick
    | Received(msg: SteamMessage)
    | Lagged
    | Over

  /** Where the pump is: waiting, between `changed()` and `borrow()`, or gone. */
  datatype Place = Waiting | Noticed | Gone

  /**
   `states` is every session state published so far, by version; `readiness` everything sent
   on the readiness channel; `launches` the version current at each launch; `retries` the
   number of the turn of each hello retry; `relayed` what subscribers were sent.
   */
  datatype Pump = Pump(
    place: Place,
    states: seq<bool>,
    seen: nat,
    ready: bool,
    helloAttempts: nat,
    turns: nat,
    readiness: seq<bool>,
    launches: seq<nat>,
    retries: seq<nat>,
    relayed: seq<GcMessage>)

  /** The message of this app a steam message relays, if it relays one. */
  function AppMessage(c: Config, msg: SteamMessage): Option<GcMessage> {
    if msg.emsg != EMSG_CLIENT_FROM_GC then None
    else
      match Unwrap(c.wire, msg)
      case Ok(Some(gc)) => if gc.appId == c.appId then Some(gc) else None
      case _ => None
  }

  predicate IsWelcome(c: Config, e: PumpEvent) {
    && e.Received?
    && AppMessage(c, e.msg).Some?
    && AppMessage(c, e.msg).value.msgType == GC_CLIENT_WELCOME
  }

  predicate IsNoSession(c: Config, e: PumpEvent) {
    && e.Received?
    && AppMessage(c, e.msg).Some?
    && AppMessage(c, e.msg).value.msgType == GC_CLIENT_CONNECTION_STATUS
    && !HasGcSession(c.decodeStatus(AppMessage(c, e.msg).value.body))
  }

  /** Readiness is lost when the session state changes or the GC reports no session. */
  predicate IsReset(c: Config, e: PumpEvent) {
    e.Borrow? || IsNoSession(c, e)
  }

  predicate Can(p: Pump, e: PumpEvent) {
    && |p.states| > 0
    && match e
       case SetState(_) => true
       case Changed => p.place.Waiting? && p.seen < |p.states| - 1
       case Borrow => p.place.Noticed?
       case _ => p.place.Waiting?
  }

  function Reset(p: Pump): Pump {
    p.(ready := false, helloAttempts := 0, readiness := p.readiness + [false])
  }

  function OnGcMessage(c: Config, p: Pump, gc: GcMessage): Pump {
    var q := if gc.msgType == GC_CLIENT_WELCOME then p.(ready := true, readiness := p.readiness + [true])
             else if gc.msgType == GC_CLIENT_CONNECTION_STATUS && !HasGcSession(c.decodeStatus(gc.body)) then Reset(p)
             else p;
    q.(relayed := q.relayed + [gc])
  }

  function Turn(c: Config, p: Pump, e: PumpEvent): Pump
    requires Can(p, e)
  {
    var n := p.(turns := p.turns + 1);
    match e
    case SetState(loggedOn) => n.(states := n.states + [loggedOn])
    case Changed => n.(seen := |n.states| - 1, place := Noticed)
    case Borrow =>
      var current := |n.states| - 1;
      var q := Reset(n).(place := Waiting);
      if n.states[current] then q.(launches := q.launches + [current]) else q
    case Tick =>
      if !n.ready && n.helloAttempts < MAX_HELLO_ATTEMPTS then
        n.(helloAttempts := n.helloAttempts + 1, retries := n.retries + [p.turns])
      else n
    case Received(msg) =>
      (match AppMessage(c, msg)
       case Some(gc) => OnGcMessage(c, n, gc)
       case None => n)
    case Lagged => n
    case Over => n.(place := Gone)
  }

  ghost predicate CanAll(c: Config, p: Pump, es: seq<PumpEvent>)
    decreases |es|, 0
  {
    es != [] ==>
      var n := |es| - 1;
      CanAll(c, p, es[..n]) && Can(TurnAll(c, p, es[..n]), es[n])
  }

  ghost function TurnAll(c: Config, p: Pump, es: seq<PumpEvent>): Pump
    requires CanAll(c, p, es)
    decreases |es|, 1
  {
    if es == [] then p else Turn(c, TurnAll(c, p, es[..|es| - 1]), es[|es| - 1])
  }

  /** A pump just attached, whose receiver has seen version `seen` of the session states so far. */
  function Attached(states: seq<bool>, seen: nat): Pump {
    Pump(Waiting, states, seen, false, 0, 0, [false], [], [], [])
  }

  /** The message arm: `p` is the state the locals stand for. */
  method Hear(c: Config, msg: SteamMessage, wasReady: bool, attempts: nat, told: seq<bool>, sent: seq<GcMessage>,
              ghost p: Pump)
    returns (ready: bool, helloAttempts: nat, readiness: seq<bool>, relayed: seq<GcMessage>)
    requires Can(p, Received(msg))
    requires p.ready == wasReady && p.helloAttempts == attempts && p.readiness == told && p.relayed == sent
    ensures Turn(c, p, Received(msg))
            == p.(turns := p.turns + 1, ready := ready, helloAttempts := helloAttempts, readiness := readiness,
                  relayed := relayed)
  {
    ready, helloAttempts, readiness, relayed := wasReady, attempts, told, sent;
    var relay := AppMessage(c, msg);
    if relay.Some? {
      var gc := relay.value;
      if gc.msgType == GC_CLIENT_WELCOME {
        ready := true;
        readiness := readiness + [true];
      } else if gc.msgType == GC_CLIENT_CONNECTION_STATUS {
        if !HasGcSession(c.decodeStatus(gc.body)) {
          ready := false;
          helloAttempts := 0;
          readiness := readiness + [false];
        }
      }
      relayed := relayed + [gc];
    }
  }

  /** The state-change arm, once the change is noticed: not ready, budget whole, and launch if logged on. */
  method Renew(c: Config, channel: seq<bool>, told: seq<bool>, made: seq<nat>, ghost p: Pump)
    returns (readiness: seq<bool>, launches: seq<nat>)
    requires Can(p, Borrow) && p.states == channel && p.readiness == told && p.launches == made
    ensures Turn(c, p, Borrow)
            == p.(turns := p.turns + 1, place := Waiting, ready := false, helloAttempts := 0, readiness := readiness,
                  launches := launches)
  {
    readiness, launches := told + [false], made;
    var readyAgain := channel[|channel| - 1];
    if readyAgain {
      launches := launches + [|channel| - 1];
    }
  }

  /**
   The pump's loop over its own local variables. `states` stands for the watch channel,
   which only the driver writes.
   */
  method RunPump(c: Config, states: seq<bool>, seen: nat, script: seq<PumpEvent>) returns (p: Pump)
    requires 0 < |states| && CanAll(c, Attached(states, seen), script)
    ensures p == TurnAll(c, Attached(states, seen), script)
  {
    var place, channel, version := Waiting, states, seen;
    var ready, helloAttempts: nat := false, 0;
    var readiness, launches, retries, relayed := [false], [], [], [];
    var i := 0;
    ghost var q := Attached(states, seen);
    while i < |script|
      invariant 0 <= i <= |script| && Reaches(c, Attached(states, seen), script, i, q)
      invariant Pump(place, channel, version, ready, helloAttempts, i, readiness, launches, retries, relayed) == q
    {
      ReachesNext(c, Attached(states, seen), script, i, q);
      match script[i] {
        case SetState(loggedOn) => channel := channel + [loggedOn];
        case Changed =>
          version := |channel| - 1;
          place := Noticed;
        case Borrow =>
          readiness, launches := Renew(c, channel, readiness, launches, q);
          ready, helloAttempts, place := false, 0, Waiting;
        case Tick =>
          if !ready && helloAttempts < MAX_HELLO_ATTEMPTS {
            helloAttempts := helloAttempts + 1;
            retries := retries + [i];
          }
        case Received(msg) =>
          ready, helloAttempts, readiness, relayed :=
            Hear(c, msg, ready, helloAttempts, readiness, relayed, q);
        case Lagged =>
        case Over => place := Gone;
      }
      q := Turn(c, q, script[i]);
      i := i + 1;
    }
    assert script[..i] == script;
    p := Pump(place, channel, version, ready, helloAttempts, i, readiness, launches, retries, relayed);
  }

  /** The first `i` turns lead from `p` to `q`. */
  ghost predicate Reaches(c: Config, p: Pump, es: seq<PumpEvent>, i: nat, q: Pump) {
    i <= |es| && CanAll(c, p, es[..i]) && TurnAll(c, p, es[..i]) == q
  }

  lemma ReachesNext(c: Config, p: Pump, es: seq<PumpEvent>, i: nat, q: Pump)
    requires i < |es| && CanAll(c, p, es) && Reaches(c, p, es, i, q)
    ensures Can(q, es[i]) && Reaches(c, p, es, i + 1, Turn(c, q, es[i]))
  {
    PrefixCan(c, p, es, i);
  }

  lemma {:induction false} PrefixCan(c: Config, p: Pump, es: seq<PumpEvent>, i: nat)
    requires i < |es| && CanAll(c, p, es)
    ensures CanAll(c, p, es[..i + 1])
    ensures CanAll(c, p, es[..i]) && Can(TurnAll(c, p, es[..i]), es[i])
    ensures TurnAll(c, p, es[..i + 1]) == Turn(c, TurnAll(c, p, es[..i]), es[i])
    decreases |es|
  {
    var n := |es| - 1;
    if i == n {
      assert es[..i + 1] == es;
    } else {
      PrefixCan(c, p, es[..n], i);
      assert es[..n][..i] == es[..i] && es[..n][..i + 1] == es[..i + 1];
    }
  }

  /** Once its channel has closed the pump does nothing more, whatever is published. */
  lemma {:induction false} OverIsFinal(c: Config, p: Pump, es: seq<PumpEvent>)
    requires Can(p, Over) && CanAll(c, Turn(c, p, Over), es)
    ensures forall i :: 0 <= i < |es| ==> es[i].SetState?
    ensures var q := TurnAll(c, Turn(c, p, Over), es); q == p.(place := Gone, states := q.states, turns := q.turns)
    decreases |es|
  {
    if es != [] {
      OverIsFinal(c, p, es[..|es| - 1]);
    }
  }

  // ------------------------------------------------------------------
  // Readiness and the retry budget
  // ------------------------------------------------------------------

  /** A welcome for this app was processed and no reset has followed it. */
  ghost predicate Welcomed(c: Config, es: seq<PumpEvent>) {
    exists i :: 0 <= i < |es| && IsWelcome(c, es[i]) && forall k :: i < k < |es| ==> !IsReset(c, es[k])
  }

  function Resets(c: Config, es: seq<PumpEvent>): nat {
    if es == [] then 0
    else Resets(c, es[..|es| - 1]) + if IsReset(c, es[|es| - 1]) then 1 else 0
  }

  lemma WelcomedStep(c: Config, es: seq<PumpEvent>, e: PumpEvent)
    ensures Welcomed(c, es + [e]) <==> IsWelcome(c, e) || (Welcomed(c, es) && !IsReset(c, e))
  {
    var all := es + [e];
    if IsWelcome(c, e) {
      assert all[|es|] == e;
    } else if Welcomed(c, es) && !IsReset(c, e) {
      var i :| 0 <= i < |es| && IsWelcome(c, es[i]) && forall k :: i < k < |es| ==> !IsReset(c, es[k]);
      assert all[i] == es[i];
    }
    if Welcomed(c, all) {
      var i :| 0 <= i < |all| && IsWelcome(c, all[i]) && forall k :: i < k < |all| ==> !IsReset(c, all[k]);
      if i < |es| {
        assert all[|es|] == e;
        forall k | i < k < |es| ensures !IsReset(c, es[k]) {
          assert all[k] == es[k];
        }
        assert IsWelcome(c, es[i]);
      }
    }
  }

  /** Each retry was a tick on which no welcome was in force. */
  ghost predicate RetriesOk(c: Config, retries: seq<nat>, es: seq<PumpEvent>) {
    forall r :: 0 <= r < |retries| ==>
      retries[r] < |es| && es[retries[r]].Tick? && !Welcomed(c, es[..retries[r]])
  }

  ghost predicate PumpOk(c: Config, p: Pump, es: seq<PumpEvent>) {
    && p.turns == |es|
    && p.readiness != []
    && p.ready == p.readiness[|p.readiness| - 1]
    && (p.ready <==> Welcomed(c, es))
    && p.helloAttempts <= MAX_HELLO_ATTEMPTS
    && |p.retries| <= MAX_HELLO_ATTEMPTS * Resets(c, es) + p.helloAttempts
    && RetriesOk(c, p.retries, es)
  }

  lemma RetriesGrow(c: Config, retries: seq<nat>, es: seq<PumpEvent>, e: PumpEvent)
    requires RetriesOk(c, retries, es)
    ensures RetriesOk(c, retries, es + [e])
    ensures e.Tick? && !Welcomed(c, es) ==> RetriesOk(c, retries + [|es|], es + [e])
  {
    forall r | 0 <= r < |retries| ensures (es + [e])[..retries[r]] == es[..retries[r]] {
    }
    assert (es + [e])[..|es|] == es;
  }

  lemma TurnOk(c: Config, p: Pump, es: seq<PumpEvent>, e: PumpEvent)
    requires PumpOk(c, p, es) && Can(p, e)
    ensures PumpOk(c, Turn(c, p, e), es + [e])
  {
    assert (es + [e])[..|es|] == es;
    WelcomedStep(c, es, e);
    RetriesGrow(c, p.retries, es, e);
  }

  lemma {:induction false} RunOk(c: Config, states: seq<bool>, seen: nat, es: seq<PumpEvent>)
    requires CanAll(c, Attached(states, seen), es)
    ensures PumpOk(c, TurnAll(c, Attached(states, seen), es), es)
    decreases |es|
  {
    if es != [] {
      var n := |es| - 1;
      RunOk(c, states, seen, es[..n]);
      TurnOk(c, TurnAll(c, Attached(states, seen), es[..n]), es[..n], es[n]);
      assert es[..n] + [es[n]] == es;
    }
  }

  /**
   In the pump's own processing order: readiness equals what was last published and holds
   exactly when a welcome for this app has been processed since the last reset; every hello
   retry was sent on a tick with no welcome in force; r resets allow at most 20 (r + 1) retries.
   */
  lemma ReadinessAndBudget(c: Config, states: seq<bool>, seen: nat, es: seq<PumpEvent>)
    requires CanAll(c, Attached(states, seen), es)
    ensures var p := TurnAll(c, Attached(states, seen), es);
            && p.readiness != [] && p.ready == p.readiness[|p.readiness| - 1]
            && (p.ready <==> Welcomed(c, es))
            && RetriesOk(c, p.retries, es)
            && |p.retries| <= 20 * (Resets(c, es) + 1)
  {
    RunOk(c, states, seen, es);
  }

  /** A reset re-arms the budget: the next ticks each send a hello, up to twenty. */
  lemma {:induction false} ResetRearms(c: Config, p: Pump, k: nat)
    requires p.place.Waiting? && |p.states| > 0 && !p.ready && p.helloAttempts == 0
    ensures var ticks := seq(k, _ => Tick);
            && CanAll(c, p, ticks)
            && var q := TurnAll(c, p, ticks);
               && |q.retries| == |p.retries| + (if k < 20 then k else 20)
               && q.helloAttempts == (if k < 20 then k else 20)
               && !q.ready && q.place.Waiting? && q.states == p.states
    decreases k
  {
    if k > 0 {
      ResetRearms(c, p, k - 1);
      assert seq(k, _ => Tick)[..k - 1] == seq(k - 1, _ => Tick);
    }
  }

  lemma ResetLeavesArmed(c: Config, p: Pump, e: PumpEvent)
    requires Can(p, e) && IsReset(c, e)
    ensures var q := Turn(c, p, e); !q.ready && q.helloAttempts == 0 && q.place.Waiting?
  {
  }

  // ------------------------------------------------------------------
  // Re-announcing after a reconnect
  // ------------------------------------------------------------------

  ghost predicate Announced(p: Pump, first: nat) {
    && 0 < |p.states|
    && first <= p.seen < |p.states|
    && (p.place.Noticed? ==> first < p.seen)
    && (p.place.Waiting? && first < p.seen == |p.states| - 1 && p.states[p.seen] ==> p.seen in p.launches)
    && (forall i :: 0 <= i < |p.launches| ==> p.launches[i] < |p.states| && p.states[p.launches[i]])
  }

  lemma {:induction false} RunAnnounced(c: Config, states: seq<bool>, seen: nat, es: seq<PumpEvent>)
    requires seen < |states| && CanAll(c, Attached(states, seen), es)
    ensures Announced(TurnAll(c, Attached(states, seen), es), seen)
    decreases |es|
  {
    if es != [] {
      var n := |es| - 1;
      RunAnnounced(c, states, seen, es[..n]);
      TurnAnnounced(c, TurnAll(c, Attached(states, seen), es[..n]), es[n], seen);
    }
  }

  lemma TurnAnnounced(c: Config, p: Pump, e: PumpEvent, first: nat)
    requires Announced(p, first) && Can(p, e)
    ensures Announced(Turn(c, p, e), first)
  {
    if e.Borrow? {
      var q := Turn(c, p, e);
      if q.states[|q.states| - 1] {
        assert q.launches[|p.launches|] == |q.states| - 1;
      }
    }
  }

  /**
   No missed re-announce: whenever the pump is waiting with no unseen version, and the
   current version is LoggedOn and newer than the first it knew, a launch was attempted
   while that version was current. Launches happen only under LoggedOn versions.
   */
  lemma NoMissedReannounce(c: Config, states: seq<bool>, seen: nat, es: seq<PumpEvent>)
    requires seen < |states| && CanAll(c, Attached(states, seen), es)
    ensures var p := TurnAll(c, Attached(states, seen), es);
            && 0 < |p.states|
            && (p.place.Waiting? && seen < p.seen == |p.states| - 1 && p.states[|p.states| - 1] ==>
                  |p.states| - 1 in p.launches)
            && (forall i :: 0 <= i < |p.launches| ==> p.launches[i] < |p.states| && p.states[p.launches[i]])
  {
    RunAnnounced(c, states, seen, es);
  }

  // ------------------------------------------------------------------
  // What subscribers are sent
  // ------------------------------------------------------------------

  /** The GC messages of this app among the events, in order. */
  function AppMessages(c: Config, es: seq<PumpEvent>): seq<GcMessage> {
    if es == [] then []
    else
      var e := es[|es| - 1];
      AppMessages(c, es[..|es| - 1]) +
      (if e.Received? && AppMessage(c, e.msg).Some? then [AppMessage(c, e.msg).value] else [])
  }

  /** Subscribers are sent exactly this app's messages, each once and in order. */
  lemma {:induction false} RelaysInOrder(c: Config, states: seq<bool>, seen: nat, es: seq<PumpEvent>)
    requires CanAll(c, Attached(states, seen), es)
    ensures TurnAll(c, Attached(states, seen), es).relayed == AppMessages(c, es)
    decreases |es|
  {
    if es != [] {
      var n := |es| - 1;
      RelaysInOrder(c, states, seen, es[..n]);
      TurnRelays(c, TurnAll(c, Attached(states, seen), es[..n]), es[n]);
    }
  }

  lemma TurnRelays(c: Config, p: Pump, e: PumpEvent)
    requires Can(p, e)
    ensures Turn(c, p, e).relayed == p.relayed +
              (if e.Received? && AppMessage(c, e.msg).Some? then [AppMessage(c, e.msg).value] else [])
  {
  }
}
