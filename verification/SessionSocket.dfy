/**
 From the socket to the subscribers: what a connection's logon and the driver after it make
 of everything the socket delivers.
 */
module SessionSocket {
  import opened Wrappers
  import opened LittleEndian
  import opened Codec
  import opened Connection
  import opened SessionModel
  import opened SessionBasics
  import opened SessionRouting
  import opened SessionStream

  // ------------------------------------------------------------------
  // A fatal arrival is the last thing on its connection
  // ------------------------------------------------------------------

  ghost predicate NoneFatal(io: seq<Io>) {
    forall i :: 0 <= i < |io| && io[i].Arrived? ==> !Fatal(io[i].what)
  }

  ghost predicate OnlyLastFatal(io: seq<Io>) {
    io == [] || NoneFatal(io[..|io| - 1])
  }

  ghost predicate Readable(s: State) {
    && (if s.phase.Connected? then NoneFatal(s.conn.io) else OnlyLastFatal(s.conn.io))
    && forall k :: 0 <= k < |s.past| ==> OnlyLastFatal(s.past[k].io)
  }

  /** What a turn adds to the log: an arrival in the read arm, only writes in the others. */
  lemma TurnLogs(s: State, arm: Arm)
    requires s.phase.Connected? && (arm.Buffered? ==> s.inbox != [])
    ensures var turn := ConnectedTurn(s, arm);
            if arm.Wire? then
              turn.s.conn.io == s.conn.io + [Arrived(s.now, arm.what)] && (turn.Again? ==> !Fatal(arm.what))
            else
              OnlyWrites(s.conn.io, turn.s.conn.io)
  {
    if arm.Wire? {
      var seen := Log(s, Arrived(s.now, arm.what));
      assert seen.conn.io == s.conn.io + [Arrived(s.now, arm.what)];
    }
  }

  /** At most two entries more, and no arrival among them. */
  predicate OnlyWrites(io: seq<Io>, more: seq<Io>) {
    || more == io
    || (|more| == |io| + 1 && io <= more && !more[|io|].Arrived?)
    || (|more| == |io| + 2 && io <= more && !more[|io|].Arrived? && !more[|io| + 1].Arrived?)
  }

  lemma TurnReadable(s: State, arm: Arm)
    requires s.phase.Connected? && (arm.Buffered? ==> s.inbox != []) && NoneFatal(s.conn.io)
    ensures OnlyLastFatal(ConnectedTurn(s, arm).s.conn.io)
    ensures ConnectedTurn(s, arm).Again? ==> NoneFatal(ConnectedTurn(s, arm).s.conn.io)
  {
    TurnLogs(s, arm);
  }

  lemma ExitReadable(s: State, exit: LoopExit)
    requires OnlyLastFatal(s.conn.io) && forall k :: 0 <= k < |s.past| ==> OnlyLastFatal(s.past[k].io)
    ensures Readable(OnExit(s, exit))
  {
    DispatchAllKeeps(s.(inbox := []), s.inbox);
  }

  lemma StepReadable(s: State, e: Event)
    requires Readable(s) && Enabled(s, e)
    ensures Readable(Step(s, e))
  {
    var t := s.(now := e.at);
    if !e.arm.CallerGone? && s.phase.Connected? {
      TurnReadable(t, e.arm);
      TurnKeeps(t, e.arm);
      var turn := ConnectedTurn(t, e.arm);
      if turn.Leave? {
        ExitReadable(turn.s, turn.exit);
      }
    }
  }

  lemma {:induction false} RunReadable(s: State, es: seq<Event>)
    requires Readable(s) && Legal(s, es)
    ensures Readable(Run(s, es))
    decreases |es|
  {
    if es != [] {
      StepReadable(s, es[0]);
      RunReadable(Step(s, es[0]), es[1..]);
    }
  }

  // ------------------------------------------------------------------
  // What the log of a connection says about its socket
  // ------------------------------------------------------------------

  /** The arrivals logged on `io` are those the socket delivered from `lo` to `hi`. */
  ghost predicate Heard(read: Classifier, script: seq<Arrival>, lo: nat, hi: nat, io: seq<Io>)
    requires hi <= |script|
    decreases |io|
  {
    if io == [] then lo == hi
    else
      var last := io[|io| - 1];
      if last.Arrived? then
        lo < hi && last.what == read(script[hi - 1].event)
        && Heard(read, script, lo, hi - 1, io[..|io| - 1])
      else lo <= hi && Heard(read, script, lo, hi, io[..|io| - 1])
  }

  /** The last arrival read ended the connection. */
  predicate Broken(io: seq<Io>) {
    io != [] && io[|io| - 1].Arrived? && Fatal(io[|io| - 1].what)
  }

  lemma {:induction false} HeardQuietly(read: Classifier, script: seq<Arrival>, lo: nat, hi: nat, io: seq<Io>)
    requires lo <= hi <= |script| && Heard(read, script, lo, hi, io) && NoneFatal(io)
    ensures Flatten(read, script, lo) == Received(io) + Flatten(read, script, hi)
    decreases |io|
  {
    if io != [] {
      var rest := io[..|io| - 1];
      var last := io[|io| - 1];
      if last.Arrived? {
        HeardQuietly(read, script, lo, hi - 1, rest);
        assert Flatten(read, script, hi - 1) == Yield(last.what) + Flatten(read, script, hi);
        assert Received(rest) + (Yield(last.what) + Flatten(read, script, hi))
            == Received(io) + Flatten(read, script, hi);
      } else {
        HeardQuietly(read, script, lo, hi, rest);
        assert Received(io) == Received(rest);
      }
    }
  }

  /** Reading from `lo` to `hi` leaves what is unread from `hi`, which is nothing once the socket broke. */
  lemma HeardFlatten(read: Classifier, script: seq<Arrival>, lo: nat, hi: nat, io: seq<Io>)
    requires lo <= hi <= |script| && Heard(read, script, lo, hi, io) && OnlyLastFatal(io)
    ensures Flatten(read, script, lo) == Received(io) + Unread(read, script, hi, Broken(io))
  {
    if Broken(io) {
      var rest := io[..|io| - 1];
      HeardQuietly(read, script, lo, hi - 1, rest);
      assert Flatten(read, script, hi - 1) == [];
      assert Received(io) == Received(rest);
    } else {
      assert NoneFatal(io) by {
        forall i | 0 <= i < |io| && io[i].Arrived? ensures !Fatal(io[i].what) {
          if i < |io| - 1 {
            assert io[i] == io[..|io| - 1][i];
          }
        }
      }
      HeardQuietly(read, script, lo, hi, io);
    }
  }

  /** The same arrivals, of a script that stops where reading did. */
  lemma {:induction false} HeardPrefix(read: Classifier, script: seq<Arrival>, lo: nat, hi: nat, n: nat, io: seq<Io>)
    requires lo <= hi <= n <= |script| && Heard(read, script, lo, hi, io)
    ensures Heard(read, script[..n], lo, hi, io)
    decreases |io|
  {
    if io != [] {
      HeardPrefix(read, script, lo, if io[|io| - 1].Arrived? then hi - 1 else hi, n, io[..|io| - 1]);
    }
  }

  lemma ReceivedIsFlatten(read: Classifier, script: seq<Arrival>, lo: nat, hi: nat, io: seq<Io>)
    requires lo <= hi <= |script| && Heard(read, script, lo, hi, io) && OnlyLastFatal(io)
    ensures Received(io) == Flatten(read, script[..hi], lo)
  {
    HeardPrefix(read, script, lo, hi, hi, io);
    HeardFlatten(read, script[..hi], lo, hi, io);
  }

  // ------------------------------------------------------------------
  // Whole runs
  // ------------------------------------------------------------------

  /** What connection `k` still holds unrouted. */
  function Buffer(s: State, k: nat): seq<SteamMessage> {
    if k < |s.past| then [] else s.inbox
  }

  /**
   `taken` was returned by the logon, what else arrived before `lo` is in the link's inbox,
   and the driver has read on to `hi`. Then the messages taken, those decoded since and those
   unread are the whole stream; what was decoded is the inbox and the flatten of the arrivals
   read; and it was all routed, in order, but for `buffer` and a logoff acted upon.
   */
  ghost predicate Served(
    read: Classifier, script: seq<Arrival>, taken: seq<SteamMessage>, lo: nat, hi: nat,
    conn: Conn, buffer: seq<SteamMessage>)
    requires lo <= hi <= |script|
  {
    && Conserved(read, script, taken, DecodedOn(conn), hi, Broken(conn.io))
    && DecodedOn(conn) == conn.link.inbox + Flatten(read, script[..hi], lo)
    && Accounted(conn, buffer)
  }

  /** In every run and on every connection of it, however that connection ended. */
  lemma SocketToSubscribers(
    link: Link, at: nat, decode: Bytes -> Option<Option<int>>, es: seq<Event>, s: State, k: nat,
    read: Classifier, script: seq<Arrival>, taken: seq<SteamMessage>, lo: nat, hi: nat)
    requires Legal(Start(link, at, decode), es) && s == Run(Start(link, at, decode), es)
    requires k <= |s.past| && lo <= hi <= |script|
    requires Conserved(read, script, taken, ConnAt(s.conn, s.past, k).link.inbox, lo, false)
    requires Heard(read, script, lo, hi, ConnAt(s.conn, s.past, k).io)
    ensures Served(read, script, taken, lo, hi, ConnAt(s.conn, s.past, k), Buffer(s, k))
  {
    RunAccounts(link, at, decode, es, s, k);
    ConnServed(read, script, taken, lo, hi, ConnAt(s.conn, s.past, k), Buffer(s, k));
  }

  lemma RunAccounts(
    link: Link, at: nat, decode: Bytes -> Option<Option<int>>, es: seq<Event>, s: State, k: nat)
    requires Legal(Start(link, at, decode), es) && s == Run(Start(link, at, decode), es) && k <= |s.past|
    ensures OnlyLastFatal(ConnAt(s.conn, s.past, k).io) && Accounted(ConnAt(s.conn, s.past, k), Buffer(s, k))
  {
    StartStreamed(link, at, decode);
    RunStreamed(Start(link, at, decode), es);
    RunReadable(Start(link, at, decode), es);
  }

  lemma ConnServed(
    read: Classifier, script: seq<Arrival>, taken: seq<SteamMessage>, lo: nat, hi: nat,
    conn: Conn, buffer: seq<SteamMessage>)
    requires lo <= hi <= |script| && Conserved(read, script, taken, conn.link.inbox, lo, false)
    requires Heard(read, script, lo, hi, conn.io) && OnlyLastFatal(conn.io) && Accounted(conn, buffer)
    ensures Served(read, script, taken, lo, hi, conn, buffer)
  {
    HeardFlatten(read, script, lo, hi, conn.io);
    ReceivedIsFlatten(read, script, lo, hi, conn.io);
    StreamJoins(taken, conn.link.inbox, Received(conn.io), Unread(read, script, hi, Broken(conn.io)));
  }

  /** The first connection of a run is the one it was started with. */
  lemma {:induction false} FirstLink(s: State, es: seq<Event>)
    requires Legal(s, es)
    ensures ConnAt(Run(s, es).conn, Run(s, es).past, 0).link == ConnAt(s.conn, s.past, 0).link
    decreases |es|
  {
    if es != [] {
      StepKeepsFirst(s, es[0]);
      FirstLink(Step(s, es[0]), es[1..]);
    }
  }

  lemma StepKeepsFirst(s: State, e: Event)
    requires Enabled(s, e)
    ensures ConnAt(Step(s, e).conn, Step(s, e).past, 0).link == ConnAt(s.conn, s.past, 0).link
  {
    var t := s.(now := e.at);
    if !e.arm.CallerGone? && s.phase.Connected? {
      TurnKeeps(t, e.arm);
      var turn := ConnectedTurn(t, e.arm);
      DispatchAllKeeps(turn.s.(inbox := []), turn.s.inbox);
    }
  }

  lemma StreamJoins(a: seq<SteamMessage>, b: seq<SteamMessage>, c: seq<SteamMessage>, d: seq<SteamMessage>)
    ensures a + (b + (c + d)) == a + ((b + c) + d)
  {
    assert b + (c + d) == (b + c) + d;
  }
}
