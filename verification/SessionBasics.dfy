/** What the parts of a step leave alone, and runs read from their end. */
module SessionBasics {
  import opened Codec
  import opened SessionModel

  /** Routing touches the desk, the cache and what was routed, and nothing else. */
  lemma {:induction false} DispatchAllKeeps(s: State, ms: seq<SteamMessage>)
    ensures var t := DispatchAll(s, ms);
            && t.conn.link == s.conn.link && t.conn.io == s.conn.io && t.conn.logoff == s.conn.logoff
            && t.past == s.past && t.published == s.published && t.now == s.now && t.phase == s.phase
            && t.desk.issued == s.desk.issued && t.desk.nextJob == s.desk.nextJob
            && t.inbox == s.inbox
    decreases |ms|
  {
    if ms != [] {
      DispatchAllKeeps(Dispatch(s, ms[0]), ms[1..]);
    }
  }

  /** A turn of the connected loop stays on its connection and publishes nothing itself. */
  lemma TurnKeeps(s: State, arm: Arm)
    requires s.phase.Connected? && (arm.Buffered? ==> s.inbox != [])
    ensures var u := ConnectedTurn(s, arm).s;
            && u.conn.link == s.conn.link && u.past == s.past && u.published == s.published
            && u.phase.Connected? && u.now == s.now
  {
  }

  lemma {:induction false} RunLast(s: State, es: seq<Event>)
    requires es != [] && Legal(s, es)
    ensures var n := |es| - 1;
            && Legal(s, es[..n])
            && Enabled(Run(s, es[..n]), es[n])
            && Run(s, es) == Step(Run(s, es[..n]), es[n])
    decreases |es|
  {
    var n := |es| - 1;
    if n == 0 {
      assert es[1..] == [];
    } else {
      var t := Step(s, es[0]);
      RunLast(t, es[1..]);
      assert es[1..][..n - 1] == es[..n][1..];
      assert es[..n][0] == es[0];
    }
  }
}
