/**
 Replies reach the request they answer, on the connection that request was written on.
 */
module SessionRouting {
  import opened Wrappers
  import opened Codec
  import opened SessionModel
  import opened SessionDesk

  /** Connection number `k`; the last one is the current one. */
  function ConnAt(conn: Conn, past: seq<Conn>, k: nat): Conn {
    if k < |past| then past[k] else conn
  }

  predicate Targets(r: Routed, job: nat) {
    r.msg.header.jobTarget == Some(job)
  }

  /** No message routed from position `from` up to `to` targets `job`. */
  ghost predicate Untargeted(routed: seq<Routed>, from: nat, to: nat, job: nat) {
    forall i :: from <= i < to && i < |routed| ==> !Targets(routed[i], job)
  }

  /**
   A message handed to a caller is the first one, since that caller's request was
   written on this very connection, to target the request's job.
   */
  ghost predicate HandedOver(cmds: seq<Cmd>, conn: Conn, epoch: nat, i: nat)
    requires i < |conn.routed| && conn.routed[i].ToCaller?
  {
    var c := conn.routed[i].cmd;
    && c < |cmds|
    && cmds[c].outcomes == [Replied(conn.routed[i].msg)]
    && cmds[c].ticket.Some?
    && var t := cmds[c].ticket.value;
       && t.epoch == epoch
       && t.mark <= i
       && !Sentinel(t.job)
       && Targets(conn.routed[i], t.job)
       && Untargeted(conn.routed, t.mark, i, t.job)
  }

  ghost predicate ConnOk(cmds: seq<Cmd>, conn: Conn, epoch: nat) {
    forall i :: 0 <= i < |conn.routed| && conn.routed[i].ToCaller? ==> HandedOver(cmds, conn, epoch, i)
  }

  /** The request's frame is among those written, under its job id. */
  ghost predicate Wrote(conn: Conn, kind: Kind, job: nat)
    requires kind.Request?
  {
    exists i :: 0 <= i < |conn.io| && conn.io[i].Sent?
                && conn.io[i].frame.emsg == kind.emsg
                && conn.io[i].frame.job == Some(job)
                && conn.io[i].frame.body == kind.body
  }

  /** A ticket names a connection that carried the request; a reply was routed there. */
  ghost predicate CmdRouted(cmds: seq<Cmd>, conn: Conn, past: seq<Conn>, c: nat)
    requires c < |cmds|
  {
    && (cmds[c].ticket.Some? && cmds[c].kind.Request? ==>
          var t := cmds[c].ticket.value;
          t.epoch <= |past| && Wrote(ConnAt(conn, past, t.epoch), cmds[c].kind, t.job))
    && (cmds[c].outcomes != [] && cmds[c].outcomes[0].Replied? ==>
          && cmds[c].ticket.Some?
          && !Sentinel(cmds[c].ticket.value.job)
          && ToCaller(c, cmds[c].outcomes[0].msg) in ConnAt(conn, past, cmds[c].ticket.value.epoch).routed)
  }

  /** An open slot was opened on the current connection and nothing has targeted it since. */
  ghost predicate SlotCurrent(d: Desk, conn: Conn, epoch: nat, j: nat)
    requires j in d.pending && SlotOk(d, j)
  {
    var t := d.cmds[d.pending[j].cmd].ticket.value;
    && t.epoch == epoch
    && t.mark <= |conn.routed|
    && (!Sentinel(j) ==> Untargeted(conn.routed, t.mark, |conn.routed|, j))
  }

  ghost predicate Books(d: Desk, conn: Conn, past: seq<Conn>) {
    && DeskOk(d)
    && (forall j :: j in d.pending ==> SlotOk(d, j) && SlotCurrent(d, conn, |past|, j))
    && (forall c :: 0 <= c < |d.cmds| ==> CmdRouted(d.cmds, conn, past, c))
    && (forall k :: 0 <= k <= |past| ==> ConnOk(d.cmds, ConnAt(conn, past, k), k))
  }

  // ------------------------------------------------------------------
  // Each primitive keeps the books
  // ------------------------------------------------------------------

  /** A desk change that opens no slot and answers nobody with a message. */
  ghost predicate Quieter(d: Desk, e: Desk) {
    && Grows(d, e)
    && (forall j :: j in e.pending ==> j in d.pending && e.pending[j] == d.pending[j])
    && (forall c :: 0 <= c < |e.cmds| && e.cmds[c].outcomes != [] && e.cmds[c].outcomes[0].Replied? ==>
          c < |d.cmds| && d.cmds[c].outcomes == e.cmds[c].outcomes)
    && (forall c :: |d.cmds| <= c < |e.cmds| ==> e.cmds[c].ticket.None?)
  }

  lemma QuieterBooks(d: Desk, e: Desk, conn: Conn, past: seq<Conn>)
    requires Books(d, conn, past) && DeskOk(e) && Quieter(d, e)
    ensures Books(e, conn, past)
  {
    forall j | j in e.pending ensures SlotOk(e, j) && SlotCurrent(e, conn, |past|, j) {
      assert SlotOk(d, j) && SlotCurrent(d, conn, |past|, j);
    }
    forall c | 0 <= c < |e.cmds| ensures CmdRouted(e.cmds, conn, past, c) {
      if c < |d.cmds| {
        assert CmdRouted(d.cmds, conn, past, c);
      }
    }
    forall k | 0 <= k <= |past| ensures ConnOk(e.cmds, ConnAt(conn, past, k), k) {
      GrowsConn(d, e, ConnAt(conn, past, k), k);
    }
  }

  lemma GrowsConn(d: Desk, e: Desk, conn: Conn, epoch: nat)
    requires Grows(d, e) && ConnOk(d.cmds, conn, epoch)
    ensures ConnOk(e.cmds, conn, epoch)
  {
    forall i | 0 <= i < |conn.routed| && conn.routed[i].ToCaller? ensures HandedOver(e.cmds, conn, epoch, i) {
      assert HandedOver(d.cmds, conn, epoch, i);
    }
  }

  lemma AnswerNowBooks(d: Desk, conn: Conn, past: seq<Conn>, kind: Kind, at: nat, outcome: Outcome)
    requires Books(d, conn, past) && Fits(kind, outcome) && !outcome.Abandoned? && !outcome.Replied?
    ensures Books(AnswerNow(d, kind, at, outcome), conn, past)
  {
    AnswerNowOk(d, kind, at, outcome);
    QuieterBooks(d, AnswerNow(d, kind, at, outcome), conn, past);
  }

  lemma RefuseRequestBooks(d: Desk, conn: Conn, past: seq<Conn>, kind: Kind, at: nat)
    requires Books(d, conn, past) && kind.Request?
    ensures Books(RefuseRequest(d, kind, at), conn, past)
  {
    RefuseRequestOk(d, kind, at);
    QuieterBooks(d, RefuseRequest(d, kind, at), conn, past);
  }

  lemma FailAllBooks(d: Desk, conn: Conn, past: seq<Conn>, reason: Reason)
    requires Books(d, conn, past)
    ensures Books(FailAllPending(d, reason), conn, past)
  {
    FailAllPendingOk(d, reason);
    var e := FailAllPending(d, reason);
    forall c | 0 <= c < |e.cmds| && e.cmds[c].outcomes != [] && e.cmds[c].outcomes[0].Replied?
      ensures d.cmds[c].outcomes == e.cmds[c].outcomes
    {
      assert CmdOk(d, c) && CmdOk(e, c);
    }
    QuieterBooks(d, e, conn, past);
  }

  lemma SweepBooks(d: Desk, conn: Conn, past: seq<Conn>, now: nat)
    requires Books(d, conn, past)
    ensures Books(SweepPending(d, now), conn, past)
  {
    SweepPendingOk(d, now);
    var e := SweepPending(d, now);
    forall c | 0 <= c < |e.cmds| && e.cmds[c].outcomes != [] && e.cmds[c].outcomes[0].Replied?
      ensures d.cmds[c].outcomes == e.cmds[c].outcomes
    {
      assert CmdOk(d, c) && CmdOk(e, c);
    }
    QuieterBooks(d, e, conn, past);
  }

  lemma GoneBooks(d: Desk, conn: Conn, past: seq<Conn>, c: nat)
    requires Books(d, conn, past)
    ensures Books(d.(gone := d.gone + {c}), conn, past)
  {
    var e := d.(gone := d.gone + {c});
    forall j | j in e.pending ensures SlotOk(e, j) {
      assert SlotOk(d, j);
    }
    forall b | 0 <= b < |e.cmds| ensures CmdOk(e, b) {
      assert CmdOk(d, b);
    }
    QuieterBooks(d, e, conn, past);
  }

  /** Anything may be logged, and a logoff noted, without touching the books. */
  lemma LogBooks(d: Desk, conn: Conn, next: Conn, past: seq<Conn>)
    requires Books(d, conn, past) && next.routed == conn.routed && conn.io <= next.io
    ensures Books(d, next, past)
  {
    forall j | j in d.pending ensures SlotOk(d, j) && SlotCurrent(d, next, |past|, j) {
      assert SlotCurrent(d, conn, |past|, j);
    }
    forall c | 0 <= c < |d.cmds| ensures CmdRouted(d.cmds, next, past, c) {
      assert CmdRouted(d.cmds, conn, past, c);
      if d.cmds[c].ticket.Some? && d.cmds[c].kind.Request? && d.cmds[c].ticket.value.epoch == |past| {
        WroteGrows(conn, next, d.cmds[c].kind, d.cmds[c].ticket.value.job);
      }
    }
    forall k | 0 <= k <= |past| ensures ConnOk(d.cmds, ConnAt(next, past, k), k) {
      assert ConnOk(d.cmds, ConnAt(conn, past, k), k);
      if k == |past| {
        forall i | 0 <= i < |next.routed| && next.routed[i].ToCaller? ensures HandedOver(d.cmds, next, k, i) {
          assert HandedOver(d.cmds, conn, k, i);
        }
      }
    }
  }

  lemma WroteGrows(conn: Conn, next: Conn, kind: Kind, job: nat)
    requires kind.Request? && Wrote(conn, kind, job) && conn.io <= next.io
    ensures Wrote(next, kind, job)
  {
    var i :| 0 <= i < |conn.io| && conn.io[i].Sent? && conn.io[i].frame.emsg == kind.emsg
             && conn.io[i].frame.job == Some(job) && conn.io[i].frame.body == kind.body;
    assert next.io[i] == conn.io[i];
  }

  lemma OpenSlotBooks(d: Desk, conn: Conn, past: seq<Conn>, kind: Kind, at: nat)
    requires Books(d, conn, past) && kind.Request?
    requires Wrote(conn, kind, d.nextJob)
    ensures Books(OpenSlot(d, kind, at, |past|, |conn.routed|), conn, past)
  {
    OpenSlotOk(d, kind, at, |past|, |conn.routed|);
    var e := OpenSlot(d, kind, at, |past|, |conn.routed|);
    forall j | j in e.pending ensures SlotOk(e, j) && SlotCurrent(e, conn, |past|, j) {
      if j != d.nextJob {
        assert SlotOk(d, j) && SlotCurrent(d, conn, |past|, j);
      }
    }
    forall c | 0 <= c < |e.cmds| ensures CmdRouted(e.cmds, conn, past, c) {
      if c < |d.cmds| {
        assert CmdRouted(d.cmds, conn, past, c);
      }
    }
    forall k | 0 <= k <= |past| ensures ConnOk(e.cmds, ConnAt(conn, past, k), k) {
      GrowsConn(d, e, ConnAt(conn, past, k), k);
    }
  }

  lemma BroadcastBooks(d: Desk, conn: Conn, past: seq<Conn>, msg: SteamMessage)
    requires Books(d, conn, past) && Slot(d, msg).None?
    ensures Books(d, conn.(routed := conn.routed + [Broadcast(msg)]), past)
  {
    var next := conn.(routed := conn.routed + [Broadcast(msg)]);
    forall j | j in d.pending ensures SlotOk(d, j) && SlotCurrent(d, next, |past|, j) {
      assert SlotOk(d, j) && SlotCurrent(d, conn, |past|, j);
    }
    forall c | 0 <= c < |d.cmds| ensures CmdRouted(d.cmds, next, past, c) {
      assert CmdRouted(d.cmds, conn, past, c);
    }
    forall k | 0 <= k <= |past| ensures ConnOk(d.cmds, ConnAt(next, past, k), k) {
      assert ConnOk(d.cmds, ConnAt(conn, past, k), k);
      if k == |past| {
        RoutedMore(d.cmds, conn, k, Broadcast(msg));
      }
    }
  }

  /** What was handed over stays handed over as more is routed. */
  lemma RoutedMore(cmds: seq<Cmd>, conn: Conn, epoch: nat, r: Routed)
    requires ConnOk(cmds, conn, epoch)
    ensures var next := conn.(routed := conn.routed + [r]);
            (r.ToCaller? ==> HandedOver(cmds, next, epoch, |conn.routed|)) ==> ConnOk(cmds, next, epoch)
  {
    var next := conn.(routed := conn.routed + [r]);
    if r.ToCaller? ==> HandedOver(cmds, next, epoch, |conn.routed|) {
      forall i | 0 <= i < |next.routed| && next.routed[i].ToCaller? ensures HandedOver(cmds, next, epoch, i) {
        if i < |conn.routed| {
          assert HandedOver(cmds, conn, epoch, i);
        }
      }
    }
  }

  /** The message delivered is the first to target the slot since it was opened. */
  lemma DeliverHands(d: Desk, conn: Conn, epoch: nat, job: nat, msg: SteamMessage)
    requires DeskOk(d) && Slot(d, msg) == Some(job)
    requires SlotOk(d, job) && SlotCurrent(d, conn, epoch, job)
    ensures var c := d.pending[job].cmd;
            HandedOver(Deliver(d, job, msg).cmds, conn.(routed := conn.routed + [ToCaller(c, msg)]), epoch,
                       |conn.routed|)
  {
    assert CmdOk(d, d.pending[job].cmd);
  }

  lemma DeliverRoutes(d: Desk, conn: Conn, past: seq<Conn>, job: nat, msg: SteamMessage, b: nat)
    requires Books(d, conn, past) && Slot(d, msg) == Some(job) && b < |d.cmds|
    ensures CmdRouted(Deliver(d, job, msg).cmds,
                      conn.(routed := conn.routed + [ToCaller(d.pending[job].cmd, msg)]), past, b)
  {
    var c := d.pending[job].cmd;
    var next := conn.(routed := conn.routed + [ToCaller(c, msg)]);
    assert SlotOk(d, job) && SlotCurrent(d, conn, |past|, job) && CmdOk(d, c);
    assert CmdRouted(d.cmds, conn, past, b);
    if b == c {
      assert next.routed[|conn.routed|] == ToCaller(c, msg);
    }
  }

  lemma DeliverBooks(d: Desk, conn: Conn, past: seq<Conn>, job: nat, msg: SteamMessage)
    requires Books(d, conn, past) && Slot(d, msg) == Some(job)
    ensures Books(Deliver(d, job, msg),
                  conn.(routed := conn.routed + [ToCaller(d.pending[job].cmd, msg)]), past)
  {
    var e := Deliver(d, job, msg);
    var r := ToCaller(d.pending[job].cmd, msg);
    var next := conn.(routed := conn.routed + [r]);
    assert SlotOk(d, job) && SlotCurrent(d, conn, |past|, job);
    DeliverOk(d, job, msg);
    forall j | j in e.pending ensures SlotOk(e, j) && SlotCurrent(e, next, |past|, j) {
      assert SlotOk(d, j) && SlotCurrent(d, conn, |past|, j);
    }
    forall b | 0 <= b < |e.cmds| ensures CmdRouted(e.cmds, next, past, b) {
      DeliverRoutes(d, conn, past, job, msg, b);
    }
    forall k | 0 <= k <= |past| ensures ConnOk(e.cmds, ConnAt(next, past, k), k) {
      GrowsConn(d, e, ConnAt(conn, past, k), k);
      if k == |past| {
        DeliverHands(d, conn, k, job, msg);
        RoutedMore(e.cmds, conn, k, r);
      }
    }
  }

  lemma GoLiveBooks(d: Desk, conn: Conn, past: seq<Conn>, blank: Conn)
    requires Books(d, conn, past) && d.pending == map[] && blank.routed == []
    ensures Books(d, blank, past + [conn])
  {
    var closed := past + [conn];
    forall c | 0 <= c < |d.cmds| ensures CmdRouted(d.cmds, blank, closed, c) {
      assert CmdRouted(d.cmds, conn, past, c);
      assert CmdOk(d, c);
      if d.cmds[c].ticket.Some? {
        assert ConnAt(blank, closed, d.cmds[c].ticket.value.epoch)
            == ConnAt(conn, past, d.cmds[c].ticket.value.epoch);
      }
    }
    forall k | 0 <= k <= |closed| ensures ConnOk(d.cmds, ConnAt(blank, closed, k), k) {
      if k < |closed| {
        assert ConnOk(d.cmds, ConnAt(conn, past, k), k);
        assert ConnAt(blank, closed, k) == ConnAt(conn, past, k);
      }
    }
  }
}
