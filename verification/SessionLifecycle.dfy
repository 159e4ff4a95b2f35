/** The published states form the lifecycle language, and stopping is final. */
module SessionLifecycle {
  import opened Wrappers
  import opened Backoff
  import opened LittleEndian
  import opened SessionModel
  import opened SessionBasics
  import opened SessionRouting

  // ------------------------------------------------------------------
  // The language
  // ------------------------------------------------------------------

  /**
   The states published up to the current logon: one LoggedOn per connection, each under
   that connection's SteamID, with a Connecting between any two.
   */
  ghost predicate Trail(p: seq<SessionState>, conn: Conn, past: seq<Conn>) {
    && |p| > 2 * |past|
    && (forall k :: 0 <= k <= |past| ==> p[2 * k] == LoggedOnAs(ConnAt(conn, past, k).link.steamId))
    && (forall k :: 0 <= k < |past| ==> p[2 * k + 1] == Connecting)
  }

  /** What follows the last LoggedOn. */
  function Tail(p: seq<SessionState>, past: seq<Conn>): seq<SessionState>
    requires |p| > 2 * |past|
  {
    p[2 * |past| + 1..]
  }

  /** The two ways a session that is over can have ended, after its last LoggedOn. */
  predicate Finished(tail: seq<SessionState>) {
    || (|tail| == 1 && tail[0].LoggedOff?)
    || (|tail| == 2 && tail[0].Connecting? && (tail[1].LoggedOff? || tail[1].GaveUp?))
  }

  ghost predicate Lively(s: State) {
    && Trail(s.published, s.conn, s.past)
    && var tail := Tail(s.published, s.past);
       match s.phase
       case Connected(_, _, _) => tail == []
       case Sleeping(_, _, _) => tail == [Connecting]
       case Attempting(_, _) => tail == [Connecting]
       case Ended => Finished(tail)
  }

  lemma PublishKeepsTrail(p: seq<SessionState>, x: SessionState, conn: Conn, past: seq<Conn>)
    requires Trail(p, conn, past)
    ensures Trail(p + [x], conn, past)
    ensures Tail(p + [x], past) == Tail(p, past) + [x]
  {
  }

  lemma SameLink(p: seq<SessionState>, conn: Conn, next: Conn, past: seq<Conn>)
    requires Trail(p, conn, past) && next.link == conn.link
    ensures Trail(p, next, past)
  {
    forall k | 0 <= k <= |past| ensures p[2 * k] == LoggedOnAs(ConnAt(next, past, k).link.steamId) {
      assert p[2 * k] == LoggedOnAs(ConnAt(conn, past, k).link.steamId);
    }
  }

  lemma ExitLively(s: State, exit: LoopExit)
    requires Lively(s) && s.phase.Connected?
    ensures Lively(OnExit(s, exit))
  {
    var x := match exit
             case Shutdown => LoggedOff(Closed)
             case LoggedOffBy(why) => LoggedOff(why)
             case Disconnected => Connecting;
    PublishKeepsTrail(s.published, x, s.conn, s.past);
    if exit.Disconnected? {
      DispatchAllKeeps(s.(inbox := []), s.inbox);
      SameLink(s.published + [x], s.conn, OnExit(s, exit).conn, s.past);
    }
  }

  lemma GoLiveLively(s: State, link: Link)
    requires Lively(s) && s.phase.Attempting?
    ensures Lively(GoLive(s, link))
  {
    var t := GoLive(s, link);
    var n := |s.past|;
    forall k | 0 <= k <= |t.past| ensures t.published[2 * k] == LoggedOnAs(ConnAt(t.conn, t.past, k).link.steamId) {
      if k <= n {
        assert s.published[2 * k] == LoggedOnAs(ConnAt(s.conn, s.past, k).link.steamId);
      }
    }
    forall k | 0 <= k < |t.past| ensures t.published[2 * k + 1] == Connecting {
      if k == n {
        assert s.published[2 * n + 1] == Tail(s.published, s.past)[0];
      }
    }
  }

  lemma DownLively(s: State, arm: Arm)
    requires Lively(s) && (s.phase.Sleeping? || s.phase.Attempting?)
    requires arm.AttemptOk? ==> s.phase.Attempting?
    ensures Lively(DownStep(s, arm))
  {
    PublishKeepsTrail(s.published, LoggedOff(Closed), s.conn, s.past);
    PublishKeepsTrail(s.published, GaveUp, s.conn, s.past);
    if arm.AttemptOk? {
      GoLiveLively(s, arm.link);
    }
  }

  lemma StepLively(s: State, e: Event)
    requires Lively(s) && Enabled(s, e)
    ensures Lively(Step(s, e))
  {
    var t := s.(now := e.at);
    if e.arm.CallerGone? {
    } else if s.phase.Connected? {
      TurnKeeps(t, e.arm);
      var turn := ConnectedTurn(t, e.arm);
      SameLink(s.published, s.conn, turn.s.conn, s.past);
      if turn.Leave? {
        ExitLively(turn.s, turn.exit);
      }
    } else {
      DownLively(t, e.arm);
    }
  }

  lemma {:induction false} RunLively(s: State, es: seq<Event>)
    requires Lively(s) && Legal(s, es)
    ensures Lively(Run(s, es))
    decreases |es|
  {
    if es != [] {
      StepLively(s, es[0]);
      RunLively(Step(s, es[0]), es[1..]);
    }
  }

  /**
   The published states of every run are LoggedOn (Connecting LoggedOn)*, then nothing while
   connected, Connecting while down, and once ended either LoggedOff, or Connecting and
   then LoggedOff or Failed.
   */
  lemma LifecycleLanguage(link: Link, at: nat, decode: Bytes -> Option<Option<int>>, es: seq<Event>)
    requires Legal(Start(link, at, decode), es)
    ensures Lively(Run(Start(link, at, decode), es))
  {
    RunLively(Start(link, at, decode), es);
  }

  // ------------------------------------------------------------------
  // Stopping
  // ------------------------------------------------------------------

  /** Once ended, only callers going away can still happen, and nothing else changes. */
  lemma {:induction false} EndIsFinal(s: State, es: seq<Event>)
    requires s.phase.Ended? && Legal(s, es)
    ensures forall i :: 0 <= i < |es| ==> es[i].arm.CallerGone?
    ensures Run(s, es).phase.Ended? && Run(s, es).published == s.published
    ensures Run(s, es).desk.cmds == s.desk.cmds && Run(s, es).desk.issued == s.desk.issued
    ensures Run(s, es).conn == s.conn && Run(s, es).past == s.past && Run(s, es).inbox == s.inbox
    decreases |es|
  {
    if es != [] {
      EndIsFinal(Step(s, es[0]), es[1..]);
    }
  }

  /**
   In any phase, taking a logoff or finding every handle dropped ends the session: no
   connect attempt, no read and no write follows.
   */
  lemma StopIsFinal(s: State, e: Event, es: seq<Event>)
    requires Enabled(s, e) && Legal(Step(s, e), es)
    requires e.arm.NoHandles? || (e.arm.Take? && e.arm.kind.Logoff?)
    ensures Run(Step(s, e), es).phase.Ended?
    ensures forall i :: 0 <= i < |es| ==> es[i].arm.CallerGone?
    ensures Run(Step(s, e), es).published == s.published + [LoggedOff(Closed)]
  {
    EndIsFinal(Step(s, e), es);
  }

  /** Failed is published exactly by a rejected token, which is then the last thing to happen. */
  lemma GaveUpOnlyWhenRejected(s: State, e: Event)
    requires Enabled(s, e)
    ensures e.arm.AttemptRejected? <==>
            |Step(s, e).published| == |s.published| + 1 && Step(s, e).published[|s.published|].GaveUp?
    ensures e.arm.AttemptRejected? ==> Step(s, e).phase.Ended?
  {
    var t := s.(now := e.at);
    if !e.arm.CallerGone? && s.phase.Connected? {
      TurnKeeps(t, e.arm);
      var turn := ConnectedTurn(t, e.arm);
      if turn.Leave? {
        DispatchAllKeeps(turn.s.(inbox := []), turn.s.inbox);
      }
    }
  }

  /** A run that publishes Failed ends with a rejected attempt, callers going away aside. */
  lemma {:induction false} FailedMeansRejected(s: State, es: seq<Event>)
    requires Legal(s, es) && !s.phase.Ended? && Lively(s)
    requires Run(s, es).phase.Ended? && Run(s, es).published != []
    requires Run(s, es).published[|Run(s, es).published| - 1].GaveUp?
    ensures exists i :: 0 <= i < |es| && es[i].arm.AttemptRejected?
                        && forall k :: i < k < |es| ==> es[k].arm.CallerGone?
    decreases |es|
  {
    if es == [] {
      assert false;
    } else {
      var t := Step(s, es[0]);
      StepLively(s, es[0]);
      if t.phase.Ended? {
        EndIsFinal(t, es[1..]);
        EndPublishes(s, es[0]);
        GaveUpOnlyWhenRejected(s, es[0]);
        forall k | 0 < k < |es| ensures es[k].arm.CallerGone? {
          assert es[k] == es[1..][k - 1];
        }
      } else {
        FailedMeansRejected(t, es[1..]);
        var i :| 0 <= i < |es[1..]| && es[1..][i].arm.AttemptRejected?
                 && forall k :: i < k < |es[1..]| ==> es[1..][k].arm.CallerGone?;
        forall k | i + 1 < k < |es| ensures es[k].arm.CallerGone? {
          assert es[k] == es[1..][k - 1];
        }
        assert es[i + 1] == es[1..][i];
      }
    }
  }

  lemma EndPublishes(s: State, e: Event)
    requires Enabled(s, e) && !s.phase.Ended? && Step(s, e).phase.Ended?
    ensures |Step(s, e).published| == |s.published| + 1
  {
    var t := s.(now := e.at);
    if s.phase.Connected? {
      TurnKeeps(t, e.arm);
    }
  }

  // ------------------------------------------------------------------
  // Reconnect backoff
  // ------------------------------------------------------------------

  /** min(2^(k-1), 60) seconds. */
  function BackoffFor(k: nat): nat
    requires k >= 1
  {
    Min(Pow2(k - 1), 60) * SECOND
  }

  /** Failed attempts since the last successful one. */
  function FailedSinceLive(es: seq<Event>): nat {
    if es == [] then 0
    else
      var before := FailedSinceLive(es[..|es| - 1]);
      match es[|es| - 1].arm
      case AttemptOk(_) => 0
      case AttemptFailed => before + 1
      case _ => before
  }

  ghost predicate Paced(s: State, failures: nat) {
    match s.phase
    case Connected(_, _, _) => failures == 0
    case Sleeping(k, b, since) => k == failures + 1 && b == BackoffFor(k) && since <= s.now
    case Attempting(k, b) => k == failures + 1 && b == BackoffFor(k)
    case Ended => true
  }

  lemma BackoffDoubles(k: nat)
    requires k >= 1
    ensures BackoffFor(k + 1) == CappedDouble(BackoffFor(k), MAX_BACKOFF)
  {
  }

  /** Leaving the connected loop means waiting for the first attempt, or the end. */
  lemma ConnectedPaced(s: State, e: Event)
    requires Enabled(s, e) && s.phase.Connected?
    ensures Paced(Step(s, e), 0)
    ensures !e.arm.AttemptOk? && !e.arm.AttemptFailed?
  {
    var t := s.(now := e.at);
    assert BackoffFor(1) == INITIAL_BACKOFF;
    if !e.arm.CallerGone? {
      TurnKeeps(t, e.arm);
      var turn := ConnectedTurn(t, e.arm);
      if turn.Leave? && turn.exit.Disconnected? {
        DispatchAllKeeps(turn.s.(inbox := []), turn.s.inbox);
      }
    }
  }

  lemma DownPaced(s: State, arm: Arm, failures: nat)
    requires (s.phase.Sleeping? || s.phase.Attempting?) && Paced(s, failures)
    ensures Paced(DownStep(s, arm), if arm.AttemptOk? then 0 else if arm.AttemptFailed? then failures + 1 else failures)
  {
    BackoffDoubles(s.phase.attempt);
  }

  lemma StepPaced(s: State, e: Event, es: seq<Event>)
    requires Enabled(s, e) && Paced(s, FailedSinceLive(es))
    ensures Paced(Step(s, e), FailedSinceLive(es + [e]))
  {
    assert (es + [e])[..|es|] == es;
    if e.arm.CallerGone? {
    } else if s.phase.Connected? {
      ConnectedPaced(s, e);
    } else {
      DownPaced(s.(now := e.at), e.arm, FailedSinceLive(es));
    }
  }

  lemma {:induction false} RunPaced(s: State, es: seq<Event>)
    requires Legal(s, es) && s.phase.Connected?
    ensures Paced(Run(s, es), FailedSinceLive(es))
    decreases |es|
  {
    if es != [] {
      var n := |es| - 1;
      RunLast(s, es);
      RunPaced(s, es[..n]);
      StepPaced(Run(s, es[..n]), es[n], es[..n]);
      assert es == es[..n] + [es[n]];
    }
  }

  /** When the driver last went to sleep: the last drop or failed attempt. */
  ghost function SetbackAt(s: State, es: seq<Event>): nat
    requires Legal(s, es)
    decreases |es|
  {
    if es == [] then s.now
    else
      RunLast(s, es);
      var n := |es| - 1;
      if Setback(Run(s, es[..n]), es[n]) then es[n].at else SetbackAt(s, es[..n])
  }

  /** The step drops a live connection, or is an attempt that fails. */
  predicate Setback(s: State, e: Event)
    requires Enabled(s, e)
  {
    (s.phase.Connected? && Step(s, e).phase.Sleeping?) || e.arm.AttemptFailed?
  }

  lemma StepSleeps(s: State, e: Event)
    requires Enabled(s, e)
    ensures Step(s, e).phase.Sleeping? ==>
              if Setback(s, e) then Step(s, e).phase.since == e.at
              else s.phase.Sleeping? && Step(s, e).phase.since == s.phase.since
  {
    var t := s.(now := e.at);
    if !e.arm.CallerGone? && s.phase.Connected? {
      TurnKeeps(t, e.arm);
      var turn := ConnectedTurn(t, e.arm);
      DispatchAllKeeps(turn.s.(inbox := []), turn.s.inbox);
    }
  }

  lemma {:induction false} SleepsSinceSetback(s: State, es: seq<Event>)
    requires Legal(s, es) && s.phase.Connected?
    ensures Run(s, es).phase.Sleeping? ==> Run(s, es).phase.since == SetbackAt(s, es)
    decreases |es|
  {
    if es != [] {
      var n := |es| - 1;
      RunLast(s, es);
      SleepsSinceSetback(s, es[..n]);
      StepSleeps(Run(s, es[..n]), es[n]);
    }
  }

  /**
   A reconnect attempt that follows k - 1 failed ones starts no sooner than
   min(2^(k-1), 60) seconds after the last of them failed, or after the drop if k is 1.
   */
  lemma BackoffSchedule(link: Link, at: nat, decode: Bytes -> Option<Option<int>>, es: seq<Event>, e: Event)
    requires Legal(Start(link, at, decode), es)
    requires Enabled(Run(Start(link, at, decode), es), e) && e.arm.SleepDone?
    ensures var s := Run(Start(link, at, decode), es); var k := FailedSinceLive(es) + 1;
            && s.phase == Sleeping(k, Min(Pow2(k - 1), 60) * SECOND, SetbackAt(Start(link, at, decode), es))
            && e.at >= SetbackAt(Start(link, at, decode), es) + Min(Pow2(k - 1), 60) * SECOND
            && Step(s, e).phase == Attempting(k, Min(Pow2(k - 1), 60) * SECOND)
  {
    RunPaced(Start(link, at, decode), es);
    SleepsSinceSetback(Start(link, at, decode), es);
  }
}
