/**
 The snapshot protocol of `Snapshots` is what runs of the driver do: a step is a sequence of
 the protocol's driver actions, and a reader may act before, between and after any of them.
 */
module SnapshotRuns {
  import opened Wrappers
  import opened LittleEndian
  import opened Codec
  import opened Connection
  import opened SessionModel
  import opened SessionLogoff
  import opened Snapshots

  // ------------------------------------------------------------------
  // The driver's side of the shared state
  // ------------------------------------------------------------------

  /** What was broadcast on connection `k`. */
  function Pushed(routed: seq<Routed>, k: nat): seq<Logged> {
    if routed == [] then []
    else
      var last := routed[|routed| - 1];
      Pushed(routed[..|routed| - 1], k) + (if last.Broadcast? then [Logged(k, last.msg)] else [])
  }

  function PushedBefore(past: seq<Conn>): seq<Logged> {
    if past == [] then []
    else
      var n := |past| - 1;
      PushedBefore(past[..n]) + Pushed(past[n].routed, n)
  }

  /** Every broadcast of the session, with the logon it came under. */
  function History(s: State): seq<Logged> {
    PushedBefore(s.past) + Pushed(s.conn.routed, |s.past|)
  }

  function MessagesOf(log: seq<Logged>): (ms: seq<SteamMessage>)
    ensures |ms| == |log| && forall i :: 0 <= i < |log| ==> ms[i] == log[i].msg
  {
    seq(|log|, i requires 0 <= i < |log| => log[i].msg)
  }

  /** The driver state as the protocol sees it, with no reader yet. */
  function View(emsg: nat, s: State): Shared {
    Shared(emsg, s.cache, MessagesOf(History(s)), Empty, |s.past|, History(s), None, None)
  }

  // ------------------------------------------------------------------
  // The actions of a step
  // ------------------------------------------------------------------

  function DispatchActions(d: Desk, msg: SteamMessage): seq<Action> {
    if Slot(d, msg).Some? then [] else [Insert(msg), Publish]
  }

  function DrainActions(s: State, ms: seq<SteamMessage>): seq<Action>
    decreases |ms|
  {
    if ms == [] then []
    else DispatchActions(s.desk, ms[0]) + DrainActions(Dispatch(s, ms[0]), ms[1..])
  }

  function TurnActions(s: State, arm: Arm): seq<Action> {
    var msg := Taken(s, arm);
    if msg.Some? && msg.value.emsg != EMSG_LOGGED_OFF then DispatchActions(s.desk, msg.value) else []
  }

  function ExitActions(s: State, exit: LoopExit): seq<Action> {
    if exit.Disconnected? then DrainActions(s.(inbox := []), s.inbox) else []
  }

  function StepActions(s: State, e: Event): seq<Action>
    requires Enabled(s, e)
  {
    var t := s.(now := e.at);
    if e.arm.CallerGone? then []
    else if s.phase.Connected? then
      match ConnectedTurn(t, e.arm)
      case Again(_) => TurnActions(t, e.arm)
      case Leave(u, exit) => TurnActions(t, e.arm) + ExitActions(u, exit)
    else if e.arm.AttemptOk? then [Clear]
    else []
  }

  ghost function RunActions(s: State, es: seq<Event>): seq<Action>
    requires Legal(s, es)
    decreases |es|
  {
    if es == [] then [] else StepActions(s, es[0]) + RunActions(Step(s, es[0]), es[1..])
  }

  // ------------------------------------------------------------------
  // The actions do what the step does
  // ------------------------------------------------------------------

  /** `actions` lead from `s` to `t`. */
  ghost predicate Acts(s: Shared, actions: seq<Action>, t: Shared) {
    CanAll(s, actions) && DoAll(s, actions) == t
  }

  lemma {:induction false} ActsJoin(s: Shared, a: seq<Action>, t: Shared, b: seq<Action>, u: Shared)
    requires Acts(s, a, t) && Acts(t, b, u)
    ensures Acts(s, a + b, u)
    decreases |a|
  {
    if a == [] {
      assert a + b == b;
    } else {
      ActsJoin(Do(s, a[0]), a[1..], t, b, u);
      assert (a + b)[1..] == a[1..] + b;
    }
  }

  /** A change that broadcasts nothing and keeps the cache is invisible. */
  lemma SameView(emsg: nat, s: State, t: State)
    requires t.cache == s.cache && t.past == s.past && t.conn.routed == s.conn.routed
    ensures View(emsg, t) == View(emsg, s)
  {
  }

  /** An unmatched message is cached if it is the first of its type, then broadcast. */
  lemma DispatchActs(emsg: nat, s: State, msg: SteamMessage)
    ensures Acts(View(emsg, s), DispatchActions(s.desk, msg), View(emsg, Dispatch(s, msg)))
  {
    var t := Dispatch(s, msg);
    assert t.conn.routed[..|s.conn.routed|] == s.conn.routed;
    if Slot(s.desk, msg).Some? {
      assert History(t) == History(s);
    } else {
      var v := View(emsg, s);
      assert History(t) == History(s) + [Logged(|s.past|, msg)];
      var held := Do(v, Insert(msg));
      assert Do(held, Publish) == View(emsg, t);
      Chain(held, Publish, []);
      Chain(v, Insert(msg), [Publish]);
      assert [Insert(msg)] + [Publish] == DispatchActions(s.desk, msg);
    }
  }

  lemma {:induction false} DrainActs(emsg: nat, s: State, ms: seq<SteamMessage>)
    ensures Acts(View(emsg, s), DrainActions(s, ms), View(emsg, DispatchAll(s, ms)))
    decreases |ms|
  {
    if ms != [] {
      var t := Dispatch(s, ms[0]);
      DispatchActs(emsg, s, ms[0]);
      DrainActs(emsg, t, ms[1..]);
      ActsJoin(View(emsg, s), DispatchActions(s.desk, ms[0]), View(emsg, t),
               DrainActions(t, ms[1..]), View(emsg, DispatchAll(t, ms[1..])));
    }
  }

  /** A turn routes the message it takes, if any, and that is all the protocol sees of it. */
  lemma TurnRoutes(s: State, arm: Arm)
    requires s.phase.Connected? && (arm.Buffered? ==> s.inbox != [])
    ensures var u := ConnectedTurn(s, arm).s;
            var msg := Taken(s, arm);
            if msg.Some? && msg.value.emsg != EMSG_LOGGED_OFF then
              var d := Dispatch(s, msg.value);
              u.cache == d.cache && u.past == d.past && u.conn.routed == d.conn.routed
            else
              u.cache == s.cache && u.past == s.past && u.conn.routed == s.conn.routed
  {
  }

  lemma TurnActs(emsg: nat, s: State, arm: Arm)
    requires s.phase.Connected? && (arm.Buffered? ==> s.inbox != [])
    ensures Acts(View(emsg, s), TurnActions(s, arm), View(emsg, ConnectedTurn(s, arm).s))
  {
    TurnRoutes(s, arm);
    var u := ConnectedTurn(s, arm).s;
    var msg := Taken(s, arm);
    if msg.Some? && msg.value.emsg != EMSG_LOGGED_OFF {
      DispatchActs(emsg, s, msg.value);
      SameView(emsg, Dispatch(s, msg.value), u);
    } else {
      SameView(emsg, s, u);
    }
  }

  lemma ExitActs(emsg: nat, s: State, exit: LoopExit)
    ensures Acts(View(emsg, s), ExitActions(s, exit), View(emsg, OnExit(s, exit)))
  {
    if exit.Disconnected? {
      SameView(emsg, s, s.(inbox := []));
      DrainActs(emsg, s.(inbox := []), s.inbox);
      SameView(emsg, DispatchAll(s.(inbox := []), s.inbox), OnExit(s, exit));
    } else {
      SameView(emsg, s, OnExit(s, exit));
    }
  }

  /** Going live is the clear, and starts the next logon. */
  lemma GoLiveActs(emsg: nat, s: State, link: Link)
    ensures Acts(View(emsg, s), [Clear], View(emsg, GoLive(s, link)))
  {
    var t := GoLive(s, link);
    assert t.past[..|s.past|] == s.past && Pushed(t.conn.routed, |t.past|) == [];
    assert History(t) == History(s);
    Chain(View(emsg, s), Clear, []);
  }

  lemma StepActs(emsg: nat, s: State, e: Event)
    requires Enabled(s, e)
    ensures Acts(View(emsg, s), StepActions(s, e), View(emsg, Step(s, e)))
  {
    var t := s.(now := e.at);
    SameView(emsg, s, t);
    if e.arm.CallerGone? {
      SameView(emsg, s, Step(s, e));
    } else if s.phase.Connected? {
      TurnActs(emsg, t, e.arm);
      var turn := ConnectedTurn(t, e.arm);
      if turn.Leave? {
        ExitActs(emsg, turn.s, turn.exit);
        ActsJoin(View(emsg, s), TurnActions(t, e.arm), View(emsg, turn.s),
                 ExitActions(turn.s, turn.exit), View(emsg, Step(s, e)));
      }
    } else if e.arm.AttemptOk? {
      GoLiveActs(emsg, t, e.arm.link);
    } else {
      DownSameView(emsg, t, e.arm);
    }
  }

  lemma DownSameView(emsg: nat, s: State, arm: Arm)
    requires (s.phase.Sleeping? || s.phase.Attempting?) && !arm.AttemptOk?
    ensures View(emsg, DownStep(s, arm)) == View(emsg, s)
  {
    SameView(emsg, s, DownStep(s, arm));
  }

  /** A run of the driver is a run of the protocol's driver side. */
  lemma {:induction false} RunActs(emsg: nat, s: State, es: seq<Event>)
    requires Legal(s, es)
    ensures Acts(View(emsg, s), RunActions(s, es), View(emsg, Run(s, es)))
    decreases |es|
  {
    if es != [] {
      var t := Step(s, es[0]);
      StepActs(emsg, s, es[0]);
      RunActs(emsg, t, es[1..]);
      ActsJoin(View(emsg, s), StepActions(s, es[0]), View(emsg, t),
               RunActions(t, es[1..]), View(emsg, Run(t, es[1..])));
    }
  }

  // ------------------------------------------------------------------
  // A reader in between
  // ------------------------------------------------------------------

  predicate ByDriver(a: Action) {
    a.Insert? || a.Publish? || a.Clear?
  }

  /** An interleaving with the reader's own actions taken out. */
  function DriverPart(run: seq<Action>): seq<Action> {
    if run == [] then []
    else (if ByDriver(run[0]) then [run[0]] else []) + DriverPart(run[1..])
  }

  /** Two shared states the driver cannot tell apart. */
  predicate SameDriver(s: Shared, t: Shared) {
    s.cache == t.cache && s.events == t.events && s.hand == t.hand && s.logon == t.logon && s.log == t.log
  }

  /** Readers change nothing for the driver. */
  lemma {:induction false} ReaderIsInvisible(s: Shared, t: Shared, run: seq<Action>)
    requires CanAll(s, run) && SameDriver(s, t)
    ensures CanAll(t, DriverPart(run)) && SameDriver(DoAll(s, run), DoAll(t, DriverPart(run)))
    decreases |run|
  {
    if run != [] {
      if ByDriver(run[0]) {
        ReaderIsInvisible(Do(s, run[0]), Do(t, run[0]), run[1..]);
        Chain(t, run[0], DriverPart(run[1..]));
      } else {
        ReaderIsInvisible(Do(s, run[0]), t, run[1..]);
        assert DriverPart(run) == DriverPart(run[1..]);
      }
    }
  }

  /** `s` is where an interleaving of a run's actions with a reader's leads; `d` is where the run does. */
  ghost predicate Interleaved(
    link: Link, at: nat, decode: Bytes -> Option<Option<int>>, es: seq<Event>, d: State,
    emsg: nat, run: seq<Action>, s: Shared)
  {
    && Legal(Start(link, at, decode), es) && d == Run(Start(link, at, decode), es)
    && CanAll(Fresh(emsg), run) && s == DoAll(Fresh(emsg), run)
    && DriverPart(run) == RunActions(Start(link, at, decode), es)
  }

  /** With a reader or without, the cache and the history are the driver's. */
  lemma InterleavedView(
    link: Link, at: nat, decode: Bytes -> Option<Option<int>>, es: seq<Event>, d: State,
    emsg: nat, run: seq<Action>, s: Shared)
    requires Interleaved(link, at, decode, es, d, emsg, run, s)
    ensures s.cache == d.cache && s.logon == |d.past|
    ensures s.log == History(d) && s.events == MessagesOf(History(d))
  {
    assert View(emsg, Start(link, at, decode)) == Fresh(emsg);
    RunActs(emsg, Start(link, at, decode), es);
    ReaderIsInvisible(Fresh(emsg), Fresh(emsg), run);
  }

  /**
   Race freedom of the driver: take any run of it, and any interleaving of its actions with
   those of a reader that subscribes and then reads the cache. The first push of the logon in
   force at that read either was found by it or comes through the subscription.
   */
  lemma RaceFreeRuns(
    link: Link, at: nat, decode: Bytes -> Option<Option<int>>, es: seq<Event>, d: State,
    emsg: nat, run: seq<Action>, s: Shared)
    requires Interleaved(link, at, decode, es, d, emsg, run, s)
    requires emsg in SNAPSHOT_EMSGS && s.look.Some?
    ensures s.cache == d.cache && s.events == MessagesOf(History(d))
    ensures var i := FirstIndex(History(d), s.look.value.logon, emsg);
            i < |History(d)| ==>
              || s.look.value.hit == Some(History(d)[i].msg.body)
              || (&& s.look.value.hit == None
                  && s.subscription.Some? && s.subscription.value.from <= i
                  && s.events[i] == History(d)[i].msg)
  {
    InterleavedView(link, at, decode, es, d, emsg, run, s);
    RaceFree(emsg, run);
  }

  /** In the history of `d` the logon in force at the reader's look has pushed, first of all, a full list. */
  ghost predicate FirstPushIsFull(d: State, judge: Bytes -> Verdict, emsg: nat, s: Shared) {
    && emsg in SNAPSHOT_EMSGS && s.look.Some?
    && var i := FirstIndex(History(d), s.look.value.logon, emsg);
       i < |History(d)| && judge(History(d)[i].msg.body).Full?
  }

  /**
   What a reader gets from a run of the driver: the first push of the logon in force at its
   look if that was cached, else the message it stops at, which is that push if and only if
   nothing but deltas of its type reaches it from an earlier logon.
   */
  lemma ReaderAnswersRuns(
    link: Link, at: nat, decode: Bytes -> Option<Option<int>>, es: seq<Event>, d: State,
    emsg: nat, run: seq<Action>, s: Shared, judge: Bytes -> Verdict)
    requires Interleaved(link, at, decode, es, d, emsg, run, s) && FirstPushIsFull(d, judge, emsg, s)
    ensures s.log == History(d) && s.events == MessagesOf(History(d))
    ensures s.subscription.Some? && s.subscription.value.from <= |s.events|
    ensures var i := FirstIndex(History(d), s.look.value.logon, emsg);
            var n := StopsAt(s, judge);
            if s.look.value.hit.Some? then
              ReaderAnswer(s, judge) == Snapshot(History(d)[i].msg.body)
            else
              && n < |History(d)|
              && !judge(History(d)[n].msg.body).Delta?
              && ReaderAnswer(s, judge) == Verdicts(judge(History(d)[n].msg.body), History(d)[n].msg.body)
              && (n == i <==> OnlyDeltasBefore(s, judge))
  {
    InterleavedView(link, at, decode, es, d, emsg, run, s);
    ReaderAnswersIff(emsg, run, judge, s);
  }

  /** With no reconnect between its subscribing and its look, it gets exactly that push. */
  lemma ReaderGetsSnapshotRuns(
    link: Link, at: nat, decode: Bytes -> Option<Option<int>>, es: seq<Event>, d: State,
    emsg: nat, run: seq<Action>, s: Shared, judge: Bytes -> Verdict)
    requires Interleaved(link, at, decode, es, d, emsg, run, s) && FirstPushIsFull(d, judge, emsg, s)
    requires s.subscription.Some? && s.subscription.value.logon == s.look.value.logon
    ensures s.subscription.value.from <= |s.events|
    ensures ReaderAnswer(s, judge)
            == Snapshot(History(d)[FirstIndex(History(d), s.look.value.logon, emsg)].msg.body)
  {
    InterleavedView(link, at, decode, es, d, emsg, run, s);
    ReaderGetsSnapshot(emsg, run, judge, s);
  }

  // ------------------------------------------------------------------
  // The stale snapshot, as a run of the driver
  // ------------------------------------------------------------------

  /** A list arrives, the socket is lost, the first attempt succeeds, and another list arrives. */
  function StaleEvents(at: nat, again: Link, before: SteamMessage, after: SteamMessage): seq<Event> {
    [Event(at, Wire(Decoded([before]))),
     Event(at, Wire(Lost)),
     Event(at + INITIAL_BACKOFF, SleepDone),
     Event(at + INITIAL_BACKOFF, AttemptOk(again)),
     Event(at + INITIAL_BACKOFF, Wire(Decoded([after])))]
  }

  /** The events are legal from `s`, and amount to these actions. */
  ghost predicate Traces(s: State, es: seq<Event>, actions: seq<Action>) {
    Legal(s, es) && RunActions(s, es) == actions
  }

  lemma TraceOne(s: State, e: Event, t: State, es: seq<Event>, now: seq<Action>, rest: seq<Action>)
    requires Enabled(s, e) && Step(s, e) == t && StepActions(s, e) == now && Traces(t, es, rest)
    ensures Traces(s, [e] + es, now + rest)
  {
    assert ([e] + es)[1..] == es;
  }

  /** Connected, with nothing buffered and nobody waiting. */
  predicate Idle(s: State, at: nat) {
    s.phase.Connected? && s.inbox == [] && s.desk.pending == map[] && s.now <= at
  }

  lemma PushStep(s: State, at: nat, msg: SteamMessage) returns (t: State)
    requires Idle(s, at) && msg.emsg != EMSG_LOGGED_OFF
    ensures var e := Event(at, Wire(Decoded([msg])));
            Enabled(s, e) && t == Step(s, e) && Idle(t, at) && StepActions(s, e) == [Insert(msg), Publish]
  {
    t := Step(s, Event(at, Wire(Decoded([msg]))));
  }

  /** The connection is down since `at`, and the first wait is not over. */
  predicate Down(s: State, at: nat) {
    s.phase == Sleeping(1, INITIAL_BACKOFF, at) && s.desk.pending == map[] && s.now == at
  }

  lemma LostStep(s: State, at: nat) returns (t: State)
    requires Idle(s, at)
    ensures var e := Event(at, Wire(Lost)); Enabled(s, e) && t == Step(s, e) && Down(t, at) && StepActions(s, e) == []
  {
    t := Step(s, Event(at, Wire(Lost)));
  }

  lemma WakeStep(s: State, at: nat) returns (t: State)
    requires Down(s, at)
    ensures var e := Event(at + INITIAL_BACKOFF, SleepDone);
            && Enabled(s, e) && t == Step(s, e) && StepActions(s, e) == []
            && t.phase.Attempting? && t.desk.pending == map[] && t.now == at + INITIAL_BACKOFF
  {
    t := Step(s, Event(at + INITIAL_BACKOFF, SleepDone));
  }

  lemma LiveStep(s: State, at: nat, link: Link) returns (t: State)
    requires s.phase.Attempting? && s.desk.pending == map[] && s.now == at
    requires link.inbox == [] && link.heartbeat >= SECOND
    ensures var e := Event(at, AttemptOk(link));
            Enabled(s, e) && t == Step(s, e) && Idle(t, at) && StepActions(s, e) == [Clear]
  {
    t := Step(s, Event(at, AttemptOk(link)));
  }

  lemma PushTrace(s: State, at: nat, msg: SteamMessage)
    requires Idle(s, at) && msg.emsg != EMSG_LOGGED_OFF
    ensures Traces(s, [Event(at, Wire(Decoded([msg])))], [Insert(msg), Publish])
  {
    var t := PushStep(s, at, msg);
    TraceOne(s, Event(at, Wire(Decoded([msg]))), t, [], [Insert(msg), Publish], []);
  }

  lemma DownTrace(s: State, at: nat, again: Link, after: SteamMessage)
    requires Down(s, at) && again.inbox == [] && again.heartbeat >= SECOND && after.emsg != EMSG_LOGGED_OFF
    ensures var later := at + INITIAL_BACKOFF;
            Traces(s, [Event(later, SleepDone), Event(later, AttemptOk(again)), Event(later, Wire(Decoded([after])))],
                   [Clear, Insert(after), Publish])
  {
    var later := at + INITIAL_BACKOFF;
    var push := [Event(later, Wire(Decoded([after])))];
    var t := WakeStep(s, at);
    var u := LiveStep(t, later, again);
    PushTrace(u, later, after);
    TraceOne(t, Event(later, AttemptOk(again)), u, push, [Clear], [Insert(after), Publish]);
    TraceOne(s, Event(later, SleepDone), t, [Event(later, AttemptOk(again))] + push, [],
             [Clear] + [Insert(after), Publish]);
  }

  /** The events from the loss of the socket on. */
  function LossEvents(at: nat, again: Link, after: SteamMessage): seq<Event> {
    var later := at + INITIAL_BACKOFF;
    [Event(at, Wire(Lost))]
    + [Event(later, SleepDone), Event(later, AttemptOk(again)), Event(later, Wire(Decoded([after])))]
  }

  lemma LossTrace(s: State, at: nat, again: Link, after: SteamMessage)
    requires Idle(s, at) && again.inbox == [] && again.heartbeat >= SECOND && after.emsg != EMSG_LOGGED_OFF
    ensures Traces(s, LossEvents(at, again, after), [Clear, Insert(after), Publish])
  {
    var later := at + INITIAL_BACKOFF;
    var t := LostStep(s, at);
    DownTrace(t, at, again, after);
    TraceOne(s, Event(at, Wire(Lost)), t,
             [Event(later, SleepDone), Event(later, AttemptOk(again)), Event(later, Wire(Decoded([after])))],
             [], [Clear, Insert(after), Publish]);
    assert [] + [Clear, Insert(after), Publish] == [Clear, Insert(after), Publish];
  }

  lemma StaleTrace(s: State, at: nat, again: Link, before: SteamMessage, after: SteamMessage)
    requires Idle(s, at) && again.inbox == [] && again.heartbeat >= SECOND
    requires before.emsg == after.emsg == EMSG_FRIENDS_LIST
    ensures Traces(s, StaleEvents(at, again, before, after), [Insert(before), Publish, Clear, Insert(after), Publish])
  {
    var t := PushStep(s, at, before);
    LossTrace(t, at, again, after);
    TraceOne(s, Event(at, Wire(Decoded([before]))), t, LossEvents(at, again, after),
             [Insert(before), Publish], [Clear, Insert(after), Publish]);
    assert StaleEvents(at, again, before, after)
        == [Event(at, Wire(Decoded([before])))] + LossEvents(at, again, after);
  }

  /**
   The condition is needed of the driver too: a run of it, and a reader that subscribes at
   its start and looks right after the reconnect, gets the list of the logon before.
   */
  lemma StaleSnapshotRun(
    link: Link, again: Link, at: nat, decode: Bytes -> Option<Option<int>>, before: SteamMessage, after: SteamMessage,
    judge: Bytes -> Verdict)
    requires link.inbox == [] && again.inbox == [] && again.heartbeat >= SECOND
    requires before.emsg == after.emsg == EMSG_FRIENDS_LIST && before.body != after.body
    requires judge(before.body).Full? && judge(after.body).Full?
    ensures var es := StaleEvents(at, again, before, after);
            var run := StaleInterleaving(before, after);
            && Legal(Start(link, at, decode), es) && CanAll(Fresh(EMSG_FRIENDS_LIST), run)
            && var d := Run(Start(link, at, decode), es);
               var s := DoAll(Fresh(EMSG_FRIENDS_LIST), run);
               && Interleaved(link, at, decode, es, d, EMSG_FRIENDS_LIST, run, s)
               && FirstPushIsFull(d, judge, EMSG_FRIENDS_LIST, s)
               && History(d)[FirstIndex(History(d), s.look.value.logon, EMSG_FRIENDS_LIST)].msg == after
               && s.subscription.Some? && s.subscription.value.from <= |s.events|
               && ReaderAnswer(s, judge) == Snapshot(before.body)
  {
    StaleTrace(Start(link, at, decode), at, again, before, after);
    StaleSnapshotAcrossReconnect(before, after, judge);
    var run := StaleInterleaving(before, after);
    StaleDriverPart(before, after);
    InterleavedView(link, at, decode, StaleEvents(at, again, before, after),
                    Run(Start(link, at, decode), StaleEvents(at, again, before, after)),
                    EMSG_FRIENDS_LIST, run, DoAll(Fresh(EMSG_FRIENDS_LIST), run));
  }

  lemma StaleDriverPart(before: SteamMessage, after: SteamMessage)
    ensures DriverPart(StaleInterleaving(before, after)) == [Insert(before), Publish, Clear, Insert(after), Publish]
  {
    var run := StaleInterleaving(before, after);
    assert DriverPart(run[6..]) == [Publish];
    assert DriverPart(run[5..]) == [Insert(after), Publish];
    assert DriverPart(run[4..]) == [Insert(after), Publish];
    assert DriverPart(run[3..]) == [Clear, Insert(after), Publish];
    assert DriverPart(run[2..]) == [Publish, Clear, Insert(after), Publish];
    assert DriverPart(run[1..]) == [Insert(before), Publish, Clear, Insert(after), Publish];
  }
}
