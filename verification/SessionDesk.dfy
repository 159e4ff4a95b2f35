/** The books of the desk: a command is settled at most once, and while open not at all. */
module SessionDesk {
  import opened Codec
  import opened SessionModel

  /** Command `c` holds the slot its ticket names. */
  predicate Open(d: Desk, c: nat)
    requires c < |d.cmds|
  {
    var t := d.cmds[c].ticket;
    t.Some? && t.value.job in d.pending && d.pending[t.value.job].cmd == c
  }

  /** The outcomes a command of this kind can have. */
  predicate Fits(kind: Kind, outcome: Outcome) {
    match kind
    case Request(_, _, _) => outcome.Replied? || outcome.Refused? || outcome.TimedOut? || outcome.Abandoned?
    case Notify(_, _) => outcome.Acked?
    case Logoff => outcome.LogoffAcked?
  }

  /** An open slot belongs to the request whose ticket names it, and carries its deadline. */
  predicate SlotOk(d: Desk, j: nat)
    requires j in d.pending
  {
    var c := d.pending[j].cmd;
    && c < |d.cmds|
    && d.cmds[c].kind.Request?
    && d.cmds[c].kind.deadline == d.pending[j].deadline
    && d.cmds[c].ticket.Some?
    && d.cmds[c].ticket.value.job == j
  }

  /** A command is settled at most once, and not at all while its slot is open. */
  predicate CmdOk(d: Desk, c: nat)
    requires c < |d.cmds|
  {
    var cmd := d.cmds[c];
    && |cmd.outcomes| <= 1
    && (Open(d, c) ==> cmd.outcomes == [])
    && (cmd.outcomes != [] ==> Fits(cmd.kind, cmd.outcomes[0]))
    && (cmd.outcomes == [Abandoned] ==> c in d.gone)
    && (cmd.ticket.Some? ==> cmd.kind.Request?)
  }

  ghost predicate DeskOk(d: Desk) {
    && (forall j :: j in d.pending ==> SlotOk(d, j))
    && (forall c :: 0 <= c < |d.cmds| ==> CmdOk(d, c))
  }

  /** Nothing but the outcome list of a waiting command ever changes. */
  ghost predicate Grows(a: Desk, b: Desk) {
    && |a.cmds| <= |b.cmds|
    && forall c :: 0 <= c < |a.cmds| ==>
         && b.cmds[c].kind == a.cmds[c].kind
         && b.cmds[c].at == a.cmds[c].at
         && b.cmds[c].ticket == a.cmds[c].ticket
         && (a.cmds[c].outcomes != [] ==> b.cmds[c].outcomes == a.cmds[c].outcomes)
  }

  // ------------------------------------------------------------------
  // Each desk operation keeps the books
  // ------------------------------------------------------------------

  lemma AnswerNowOk(d: Desk, kind: Kind, at: nat, outcome: Outcome)
    requires DeskOk(d) && Fits(kind, outcome) && !outcome.Abandoned?
    ensures DeskOk(AnswerNow(d, kind, at, outcome))
    ensures Grows(d, AnswerNow(d, kind, at, outcome))
  {
    var e := AnswerNow(d, kind, at, outcome);
    forall j | j in e.pending ensures SlotOk(e, j) {
      assert SlotOk(d, j);
    }
    forall c | 0 <= c < |e.cmds| ensures CmdOk(e, c) {
      if c < |d.cmds| {
        assert CmdOk(d, c);
      }
    }
  }

  lemma RefuseRequestOk(d: Desk, kind: Kind, at: nat)
    requires DeskOk(d) && kind.Request?
    ensures DeskOk(RefuseRequest(d, kind, at))
    ensures Grows(d, RefuseRequest(d, kind, at))
  {
    AnswerNowOk(d, kind, at, Refused(Reconnecting));
    var a := AnswerNow(d, kind, at, Refused(Reconnecting));
    var e := RefuseRequest(d, kind, at);
    forall j | j in e.pending ensures SlotOk(e, j) {
      assert SlotOk(a, j);
    }
    forall c | 0 <= c < |e.cmds| ensures CmdOk(e, c) {
      assert CmdOk(a, c);
    }
  }

  /** A new slot keeps the books, also when it takes the place of an open one. */
  lemma OpenSlotOk(d: Desk, kind: Kind, at: nat, epoch: nat, mark: nat)
    requires DeskOk(d) && kind.Request?
    ensures DeskOk(OpenSlot(d, kind, at, epoch, mark))
    ensures Grows(d, OpenSlot(d, kind, at, epoch, mark))
  {
    var e := OpenSlot(d, kind, at, epoch, mark);
    forall j | j in e.pending ensures SlotOk(e, j) {
      if j != d.nextJob {
        assert SlotOk(d, j);
      }
    }
    forall c | 0 <= c < |e.cmds| ensures CmdOk(e, c) {
      if c < |d.cmds| {
        assert CmdOk(d, c);
      }
    }
  }

  /** Close the slots of `targets`, answering each of them once. */
  function Close(d: Desk, targets: set<nat>, outcome: Outcome): Desk {
    d.(pending := map j | j in d.pending && d.pending[j].cmd !in targets :: d.pending[j],
       cmds := SendAll(d.cmds, targets, outcome))
  }

  lemma CloseOk(d: Desk, targets: set<nat>, outcome: Outcome)
    requires DeskOk(d)
    requires outcome.Replied? || outcome.Refused? || outcome.TimedOut? || outcome.Abandoned?
    requires outcome.Abandoned? ==> targets <= d.gone
    requires targets <= Holders(d.pending)
    ensures DeskOk(Close(d, targets, outcome))
    ensures Grows(d, Close(d, targets, outcome))
  {
    var e := Close(d, targets, outcome);
    forall j | j in e.pending ensures SlotOk(e, j) {
      assert SlotOk(d, j);
    }
    forall c | 0 <= c < |e.cmds|
      ensures CmdOk(e, c)
      ensures d.cmds[c].outcomes != [] ==> c !in targets
    {
      assert CmdOk(d, c);
      if c in targets {
        var j :| j in d.pending && d.pending[j].cmd == c;
        assert SlotOk(d, j);
      }
    }
  }

  lemma FailAllPendingOk(d: Desk, reason: Reason)
    requires DeskOk(d)
    ensures DeskOk(FailAllPending(d, reason)) && Grows(d, FailAllPending(d, reason))
  {
    assert FailAllPending(d, reason) == Close(d, Holders(d.pending), Refused(reason));
    CloseOk(d, Holders(d.pending), Refused(reason));
  }

  lemma DeliverOk(d: Desk, job: nat, msg: SteamMessage)
    requires DeskOk(d) && job in d.pending
    ensures DeskOk(Deliver(d, job, msg)) && Grows(d, Deliver(d, job, msg))
  {
    var c := d.pending[job].cmd;
    assert SlotOk(d, job);
    forall j | j in d.pending && d.pending[j].cmd == c ensures j == job {
      assert SlotOk(d, j);
    }
    assert Deliver(d, job, msg) == Close(d, {c}, Replied(msg));
    CloseOk(d, {c}, Replied(msg));
  }

  lemma SweepPendingOk(d: Desk, now: nat)
    requires DeskOk(d)
    ensures DeskOk(SweepPending(d, now)) && Grows(d, SweepPending(d, now))
  {
    CloseOk(d, Reaped(d), Abandoned);
    var e := Close(d, Reaped(d), Abandoned);
    SweepIsTwoCloses(d, now);
    CloseOk(e, Expired(d, now), TimedOut);
  }

  lemma SweepIsTwoCloses(d: Desk, now: nat)
    requires DeskOk(d)
    ensures SweepPending(d, now) == Close(Close(d, Reaped(d), Abandoned), Expired(d, now), TimedOut)
    ensures Expired(d, now) <= Holders(Close(d, Reaped(d), Abandoned).pending)
  {
    var live := Close(d, Reaped(d), Abandoned).pending;
    forall j | j in d.pending
      ensures j in live <==> d.pending[j].cmd !in d.gone
      ensures d.pending[j].cmd in Expired(d, now) <==> d.pending[j].cmd !in d.gone && d.pending[j].deadline <= now
    {
      SlotOnce(d, j, now);
    }
    forall c | c in Expired(d, now) ensures c in Holders(live) {
      var j :| j in d.pending && d.pending[j].cmd == c && c !in d.gone && d.pending[j].deadline <= now;
      assert j in live && live[j].cmd == c;
    }
    assert SweepPending(d, now).pending == Close(Close(d, Reaped(d), Abandoned), Expired(d, now), TimedOut).pending;
  }

  /** A command holds at most one slot, so being expired is a matter of that slot alone. */
  lemma SlotOnce(d: Desk, j: nat, now: nat)
    requires DeskOk(d) && j in d.pending
    ensures d.pending[j].cmd in Expired(d, now)
            <==> d.pending[j].cmd !in d.gone && d.pending[j].deadline <= now
  {
    assert SlotOk(d, j);
    if d.pending[j].cmd in Expired(d, now) {
      var k :| k in d.pending && d.pending[k].cmd == d.pending[j].cmd && d.pending[k].deadline <= now;
      assert SlotOk(d, k);
    }
  }

  /**
   A sweep closes a slot if and only if its caller is gone or its deadline has passed,
   and says which of the two it was.
   */
  lemma SweepExact(d: Desk, now: nat, j: nat)
    requires DeskOk(d) && j in d.pending
    ensures var p := d.pending[j]; var e := SweepPending(d, now);
            && p.cmd < |d.cmds|
            && (j in e.pending <==> p.cmd !in d.gone && now < p.deadline)
            && (j in e.pending ==> e.pending[j] == p)
            && e.cmds[p.cmd].outcomes ==
               (if p.cmd in d.gone then [Abandoned] else if p.deadline <= now then [TimedOut] else [])
  {
    var c := d.pending[j].cmd;
    assert SlotOk(d, j) && CmdOk(d, c);
    SlotOnce(d, j, now);
    assert c in Reaped(d) <==> c in d.gone;
  }

  /** What the books say about one command and about two slots. */
  lemma Balance(d: Desk, c: nat)
    requires DeskOk(d) && c < |d.cmds|
    ensures |d.cmds[c].outcomes| <= 1
    ensures Open(d, c) <==> exists j :: j in d.pending && d.pending[j].cmd == c
    ensures Open(d, c) ==> d.cmds[c].outcomes == []
    ensures d.cmds[c].outcomes == [Abandoned] ==> c in d.gone
    ensures d.cmds[c].outcomes != [] ==> Fits(d.cmds[c].kind, d.cmds[c].outcomes[0])
  {
    assert CmdOk(d, c);
    if Open(d, c) {
      assert d.cmds[c].ticket.value.job in d.pending;
    } else {
      forall j | j in d.pending ensures d.pending[j].cmd != c {
        assert SlotOk(d, j);
      }
    }
  }

  lemma OneSlotEach(d: Desk, j: nat, k: nat)
    requires DeskOk(d) && j in d.pending && k in d.pending && d.pending[j].cmd == d.pending[k].cmd
    ensures j == k
  {
    assert SlotOk(d, j) && SlotOk(d, k);
  }

  // ------------------------------------------------------------------
  // Nobody left out
  // ------------------------------------------------------------------

  /** Whoever has no answer yet has a slot to get it from. */
  ghost predicate Complete(d: Desk) {
    forall c :: 0 <= c < |d.cmds| && d.cmds[c].outcomes == [] ==> Open(d, c)
  }

  /** Unanswered, and no slot is left to answer it from. */
  ghost predicate Orphaned(d: Desk, c: nat) {
    && c < |d.cmds|
    && d.cmds[c].outcomes == []
    && forall j :: j in d.pending ==> d.pending[j].cmd != c
  }

  lemma AnswerNowComplete(d: Desk, kind: Kind, at: nat, outcome: Outcome)
    requires Complete(d)
    ensures Complete(AnswerNow(d, kind, at, outcome)) && Complete(RefuseRequest(d, kind, at))
  {
  }

  lemma DeliverComplete(d: Desk, job: nat, msg: SteamMessage)
    requires Complete(d) && job in d.pending
    ensures Complete(Deliver(d, job, msg))
  {
  }

  lemma FailAllComplete(d: Desk, reason: Reason)
    requires Complete(d)
    ensures Complete(FailAllPending(d, reason))
  {
    var e := FailAllPending(d, reason);
    forall c | 0 <= c < |d.cmds| ensures e.cmds[c].outcomes != [] {
      if d.cmds[c].outcomes == [] {
        assert Open(d, c) && c in Holders(d.pending);
      }
    }
  }

  lemma SweepComplete(d: Desk, now: nat)
    requires Complete(d)
    ensures Complete(SweepPending(d, now))
  {
    var e := SweepPending(d, now);
    forall c | 0 <= c < |e.cmds| && e.cmds[c].outcomes == [] ensures Open(e, c) {
      assert c !in Reaped(d) && c !in Expired(d, now);
      assert Open(d, c);
    }
  }

  /** A slot opened under a held id leaves out the command that held it. */
  lemma HeldIdOrphans(d: Desk, kind: Kind, at: nat, epoch: nat, mark: nat)
    requires DeskOk(d) && kind.Request? && d.nextJob in d.pending
    ensures Orphaned(OpenSlot(d, kind, at, epoch, mark), d.pending[d.nextJob].cmd)
  {
    var c := d.pending[d.nextJob].cmd;
    var e := OpenSlot(d, kind, at, epoch, mark);
    assert SlotOk(d, d.nextJob) && CmdOk(d, c);
    forall j | j in e.pending ensures e.pending[j].cmd != c {
      if j != d.nextJob {
        assert SlotOk(d, j);
      }
    }
  }

  /** Opening a slot leaves nobody out exactly when its id is free. */
  lemma OpenSlotCompleteIff(d: Desk, kind: Kind, at: nat, epoch: nat, mark: nat)
    requires DeskOk(d) && Complete(d) && kind.Request?
    ensures Complete(OpenSlot(d, kind, at, epoch, mark)) <==> d.nextJob !in d.pending
  {
    var e := OpenSlot(d, kind, at, epoch, mark);
    if d.nextJob in d.pending {
      HeldIdOrphans(d, kind, at, epoch, mark);
      assert !Open(e, d.pending[d.nextJob].cmd);
    }
  }
}
