/**
 The job counter over runs of any length: when an id comes round again, and what becomes of
 a request that draws the sentinel.
 */
module SessionIds {
  import opened Wrappers
  import opened LittleEndian
  import opened Codec
  import opened Connection
  import opened SessionModel
  import opened SessionBasics
  import opened SessionDesk
  import opened SessionRouting
  import opened SessionSafety
  import opened SessionOnce

  // ------------------------------------------------------------------
  // The counter
  // ------------------------------------------------------------------

  /** The counter runs through 1..2^64-1 and around. */
  ghost predicate Cycles(d: Desk) {
    d.nextJob == 1 + d.issued % U64_MAX
  }

  lemma NextJobCycles(n: nat)
    ensures NextJob(1 + n % U64_MAX) == 1 + (n + 1) % U64_MAX
  {
    var q, r := n / U64_MAX, n % U64_MAX;
    if r == U64_MAX - 1 {
      assert n + 1 == (q + 1) * U64_MAX;
      ModZero(q + 1);
    } else {
      assert n + 1 == q * U64_MAX + (r + 1);
    }
  }

  lemma ModZero(q: nat)
    ensures (q * U64_MAX) % U64_MAX == 0
  {
  }

  /** The counter stands, or moves on by one request. */
  predicate Counts(d: Desk, e: Desk) {
    || (e.issued == d.issued && e.nextJob == d.nextJob)
    || (e.issued == d.issued + 1 && e.nextJob == NextJob(d.nextJob))
  }

  lemma StepCounts(s: State, e: Event)
    requires Enabled(s, e)
    ensures Counts(s.desk, Step(s, e).desk)
  {
    if !e.arm.CallerGone? && s.phase.Connected? {
      TurnCounts(s.(now := e.at), e.arm);
      var turn := ConnectedTurn(s.(now := e.at), e.arm);
      if turn.Leave? {
        ExitCounts(turn.s, turn.exit);
      }
    }
  }

  lemma TurnCounts(s: State, arm: Arm)
    requires s.phase.Connected? && (arm.Buffered? ==> s.inbox != [])
    ensures Counts(s.desk, ConnectedTurn(s, arm).s.desk)
  {
  }

  lemma ExitCounts(s: State, exit: LoopExit)
    ensures OnExit(s, exit).desk.issued == s.desk.issued && OnExit(s, exit).desk.nextJob == s.desk.nextJob
  {
    DispatchAllKeeps(s.(inbox := []), s.inbox);
  }

  lemma StepCycles(s: State, e: Event)
    requires Cycles(s.desk) && Enabled(s, e)
    ensures Cycles(Step(s, e).desk)
  {
    StepCounts(s, e);
    NextJobCycles(s.desk.issued);
  }

  /** After n requests the next job id is 1 + n mod (2^64 - 1), in every run whatever its length. */
  lemma {:induction false} JobIdCycle(s: State, es: seq<Event>)
    requires Cycles(s.desk) && Legal(s, es)
    ensures Run(s, es).desk.nextJob == 1 + Run(s, es).desk.issued % U64_MAX
    decreases |es|
  {
    if es != [] {
      StepCycles(s, es[0]);
      JobIdCycle(Step(s, es[0]), es[1..]);
    }
  }

  /** Before the counter first wraps, every slot has an id already passed. */
  ghost predicate Passed(d: Desk) {
    && d.issued <= U64_MAX
    && d.nextJob == (if d.issued == U64_MAX then 1 else 1 + d.issued)
    && forall j :: j in d.pending ==> 1 <= j <= d.issued
  }

  /** No slot is opened except under the id next in line, as the counter moves on. */
  ghost predicate Opens(d: Desk, e: Desk) {
    forall j :: j in e.pending ==> j in d.pending || (j == d.nextJob && e.issued == d.issued + 1)
  }

  lemma DispatchOpens(s: State, msg: SteamMessage)
    ensures Dispatch(s, msg).desk.pending.Keys <= s.desk.pending.Keys
  {
  }

  lemma {:induction false} DispatchAllOpens(s: State, ms: seq<SteamMessage>)
    ensures DispatchAll(s, ms).desk.pending.Keys <= s.desk.pending.Keys
    decreases |ms|
  {
    if ms != [] {
      DispatchOpens(s, ms[0]);
      DispatchAllOpens(Dispatch(s, ms[0]), ms[1..]);
    }
  }

  lemma MessageOpens(s: State, msg: SteamMessage)
    ensures OnMessage(s, msg).s.desk.pending.Keys <= s.desk.pending.Keys
  {
    DispatchOpens(s, msg);
  }

  lemma TurnOpens(s: State, arm: Arm)
    requires s.phase.Connected? && (arm.Buffered? ==> s.inbox != [])
    ensures Opens(s.desk, ConnectedTurn(s, arm).s.desk)
  {
    match arm
    case Buffered => MessageOpens(s.(inbox := s.inbox[1..]), s.inbox[0]);
    case Wire(what) => WireOpens(s, what);
    case _ =>
  }

  lemma WireOpens(s: State, what: Inbound)
    requires s.phase.Connected?
    ensures OnWire(s, what).s.desk.pending.Keys <= s.desk.pending.Keys
  {
    var seen := Log(s, Arrived(s.now, what))
                .(phase := if Touches(what) then s.phase.(lastFrame := s.now) else s.phase);
    var (rest, got) := Receive(what);
    if got.Message? {
      MessageOpens(seen.(inbox := rest), got.msg);
    }
  }

  lemma ExitOpens(s: State, exit: LoopExit)
    ensures OnExit(s, exit).desk.pending.Keys <= s.desk.pending.Keys
  {
    DispatchAllOpens(s.(inbox := []), s.inbox);
  }

  lemma StepOpens(s: State, e: Event)
    requires Enabled(s, e)
    ensures Opens(s.desk, Step(s, e).desk)
  {
    if !e.arm.CallerGone? && s.phase.Connected? {
      var t := s.(now := e.at);
      TurnOpens(t, e.arm);
      var turn := ConnectedTurn(t, e.arm);
      if turn.Leave? {
        ExitOpens(turn.s, turn.exit);
        ExitCounts(turn.s, turn.exit);
      }
    }
  }

  lemma PassedOn(d: Desk, e: Desk)
    requires Passed(d) && Counts(d, e) && Opens(d, e) && e.issued <= U64_MAX
    ensures Passed(e)
    ensures d.issued < e.issued ==> d.nextJob !in d.pending
  {
  }

  /** Only a request moves the counter on. */
  lemma RequestCounts(s: State, e: Event)
    requires Enabled(s, e) && !FreshId(s, e.arm)
    ensures Step(s, e).desk.issued == s.desk.issued + 1
  {
  }

  lemma {:induction false} FewRequestsFrom(s: State, es: seq<Event>)
    requires Passed(s.desk) && Legal(s, es) && Run(s, es).desk.issued <= U64_MAX
    ensures NoReuse(s, es) && Passed(Run(s, es).desk)
    decreases |es|
  {
    if es != [] {
      var t := Step(s, es[0]);
      StepCounts(s, es[0]);
      StepOpens(s, es[0]);
      RunIssues(t, es[1..]);
      PassedOn(s.desk, t.desk);
      if !FreshId(s, es[0].arm) {
        RequestCounts(s, es[0]);
      }
      FewRequestsFrom(t, es[1..]);
    }
  }

  /** The issue count moves only forward. */
  lemma {:induction false} RunIssues(s: State, es: seq<Event>)
    requires Legal(s, es)
    ensures Run(s, es).desk.issued >= s.desk.issued
    decreases |es|
  {
    if es != [] {
      StepCounts(s, es[0]);
      RunIssues(Step(s, es[0]), es[1..]);
    }
  }

  /** A run of at most 2^64 - 1 requests draws no id twice. */
  lemma FewRequestsNeverReuse(link: Link, at: nat, decode: Bytes -> Option<Option<int>>, es: seq<Event>)
    requires Legal(Start(link, at, decode), es) && Run(Start(link, at, decode), es).desk.issued <= U64_MAX
    ensures NoReuse(Start(link, at, decode), es)
  {
    FewRequestsFrom(Start(link, at, decode), es);
  }

  /** Until the counter wraps, the next job id is in no open slot. */
  lemma NextJobIsFree(link: Link, at: nat, decode: Bytes -> Option<Option<int>>, es: seq<Event>, s: State)
    requires Legal(Start(link, at, decode), es) && s == Run(Start(link, at, decode), es)
    requires s.desk.issued < U64_MAX
    ensures s.desk.nextJob == s.desk.issued + 1 && s.desk.nextJob !in s.desk.pending
    ensures Sentinel(s.desk.nextJob) <==> s.desk.issued == U64_MAX - 1
  {
    FewRequestsFrom(Start(link, at, decode), es);
  }

  // ------------------------------------------------------------------
  // The sentinel
  // ------------------------------------------------------------------

  /**
   In every run, the reply to a request just written finds its slot if and only if the
   request did not draw the sentinel, that is, unless the requests before it number
   2^64 - 2 modulo the cycle.
   */
  lemma SentinelLosesReply(
    link: Link, at: nat, decode: Bytes -> Option<Option<int>>, es: seq<Event>, e: Event, msg: SteamMessage)
    requires Legal(Start(link, at, decode), es)
    requires var s := Run(Start(link, at, decode), es);
             && s.phase.Connected? && Enabled(s, e)
             && e.arm.Take? && e.arm.kind.Request? && e.arm.wrote
             && msg.header.jobTarget == Some(s.desk.nextJob)
    ensures var s := Run(Start(link, at, decode), es);
            Slot(Step(s, e).desk, msg) == Some(s.desk.nextJob) <==> s.desk.issued % U64_MAX != U64_MAX - 1
  {
    JobIdCycle(Start(link, at, decode), es);
  }

  /** A request that drew the sentinel is answered like any other, but never with a message. */
  lemma SentinelNeverReplied(
    link: Link, at: nat, decode: Bytes -> Option<Option<int>>, es: seq<Event>, s: State, c: nat)
    requires Reaches(link, at, decode, es, s) && c < |s.desk.cmds|
    requires s.desk.cmds[c].ticket.Some? && s.desk.cmds[c].ticket.value.job == U64_MAX
    ensures s.desk.cmds[c].outcomes != [] ==>
              && |s.desk.cmds[c].outcomes| == 1
              && var outcome := s.desk.cmds[c].outcomes[0];
                 outcome.Refused? || outcome.TimedOut? || outcome.Abandoned?
    ensures s.desk.cmds[c].outcomes == [] && NoReuse(Start(link, at, decode), es) ==>
              U64_MAX in s.desk.pending && s.desk.pending[U64_MAX].cmd == c
  {
    ReachesSound(link, at, decode, es, s);
    assert CmdOk(s.desk, c) && CmdRouted(s.desk.cmds, s.conn, s.past, c);
    if NoReuse(Start(link, at, decode), es) {
      RunComplete(Start(link, at, decode), es);
    }
  }

  function Requests(at: nat, n: nat): seq<Event> {
    seq(n, _ => Event(at, Take(Request(0, [], 0), true)))
  }

  lemma {:induction false} RequestsFrom(s: State, at: nat, n: nat)
    requires s.phase.Connected? && s.now <= at
    ensures Legal(s, Requests(at, n))
    ensures var t := Run(s, Requests(at, n)); t.phase.Connected? && t.desk.issued == s.desk.issued + n
    decreases n
  {
    if n > 0 {
      var es := Requests(at, n);
      RequestsFrom(Step(s, es[0]), at, n - 1);
      assert es[1..] == Requests(at, n - 1);
    }
  }

  /** The sentinel is drawn: 2^64 - 2 written requests lead to a connected state next in line for it. */
  lemma SentinelIsReached(link: Link, at: nat, decode: Bytes -> Option<Option<int>>)
    ensures Legal(Start(link, at, decode), Requests(at, U64_MAX - 1))
    ensures var s := Run(Start(link, at, decode), Requests(at, U64_MAX - 1));
            s.phase.Connected? && s.desk.nextJob == U64_MAX
  {
    RequestsFrom(Start(link, at, decode), at, U64_MAX - 1);
    JobIdCycle(Start(link, at, decode), Requests(at, U64_MAX - 1));
  }

  /** And one cycle on, with the first request still open, an id is drawn while in use. */
  lemma ReuseIsReached(link: Link, at: nat, decode: Bytes -> Option<Option<int>>)
    ensures Legal(Start(link, at, decode), Requests(at, U64_MAX + 1))
    ensures !NoReuse(Start(link, at, decode), Requests(at, U64_MAX + 1))
  {
    RequestsFrom(Start(link, at, decode), at, U64_MAX + 1);
    RequestsReuse(Start(link, at, decode), at, U64_MAX + 1);
  }

  /** Requests alone never close a slot, so past a whole cycle some id repeats. */
  lemma {:induction false} RequestsReuse(s: State, at: nat, n: nat)
    requires s.phase.Connected? && s.now <= at && Cycles(s.desk)
    requires s.desk.issued + n == U64_MAX + 1 && s.desk.issued <= U64_MAX
    requires s.desk.issued > 0 ==> 1 in s.desk.pending
    ensures Legal(s, Requests(at, n)) && !NoReuse(s, Requests(at, n))
    decreases n
  {
    var es := Requests(at, n);
    RequestsFrom(s, at, n);
    NextJobCycles(s.desk.issued);
    if s.desk.issued == U64_MAX {
      ModZero(1);
    } else {
      RequestsReuse(Step(s, es[0]), at, n - 1);
      assert es[1..] == Requests(at, n - 1);
    }
  }
}
