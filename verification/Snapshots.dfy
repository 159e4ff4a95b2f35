/**
 The snapshot protocol between the driver and the readers of src/friends.rs: `dispatch`
 caches a push and then broadcasts it, a reconnect clears the cache, and a reader
 subscribes, then looks in the cache, then waits. Every atomic action of either side is a
 step, so that all interleavings are covered.
 */
module Snapshots {
  import opened Wrappers
  import opened LittleEndian
  import opened Codec
  import opened SessionModel
  import opened SessionStream

  /** Between its two actions the driver holds the message it has cached but not broadcast. */
  datatype Hand = Empty | Holding(msg: SteamMessage)

  /** An unmatched message, with the logon it was dispatched under. */
  datatype Logged = Logged(logon: nat, msg: SteamMessage)

  /** A cache read: what it found, under which logon, after how many dispatches. */
  datatype Look = Look(hit: Option<Bytes>, logon: nat, seen: nat)

  /** A subscription: where in the broadcast history it starts, and under which logon. */
  datatype Subscription = Subscription(from: nat, logon: nat)

  datatype Shared = Shared(
    emsg: nat,
    cache: map<nat, Bytes>,
    events: seq<SteamMessage>,
    hand: Hand,
    logon: nat,
    log: seq<Logged>,
    subscription: Option<Subscription>,
    look: Option<Look>)

  datatype Action = Insert(msg: SteamMessage) | Publish | Clear | Subscribe | ReadCache

  predicate Can(s: Shared, a: Action) {
    match a
    case Insert(_) => s.hand.Empty?
    case Publish => s.hand.Holding?
    case Clear => s.hand.Empty?
    case Subscribe => s.subscription.None?
    case ReadCache => s.subscription.Some? && s.look.None?
  }

  function Do(s: Shared, a: Action): Shared
    requires Can(s, a)
  {
    match a
    case Insert(msg) =>
      s.(cache := Remember(s.cache, msg), hand := Holding(msg), log := s.log + [Logged(s.logon, msg)])
    case Publish => s.(events := s.events + [s.hand.msg], hand := Empty)
    case Clear => s.(cache := map[], logon := s.logon + 1)
    case Subscribe => s.(subscription := Some(Subscription(|s.events|, s.logon)))
    case ReadCache => s.(look := Some(Look(Lookup(s.cache, s.emsg), s.logon, |s.log|)))
  }

  ghost predicate CanAll(s: Shared, run: seq<Action>)
    decreases |run|
  {
    run != [] ==> Can(s, run[0]) && CanAll(Do(s, run[0]), run[1..])
  }

  ghost function DoAll(s: Shared, run: seq<Action>): Shared
    requires CanAll(s, run)
    decreases |run|
  {
    if run == [] then s else DoAll(Do(s, run[0]), run[1..])
  }

  function Fresh(emsg: nat): Shared {
    Shared(emsg, map[], [], Empty, 0, [], None, None)
  }

  // ------------------------------------------------------------------
  // First pushes
  // ------------------------------------------------------------------

  predicate IsPush(x: Logged, logon: nat, emsg: nat) {
    x.logon == logon && x.msg.emsg == emsg
  }

  /** Where the first push of `emsg` under `logon` is, or the length of the log. */
  function FirstIndex(log: seq<Logged>, logon: nat, emsg: nat): (i: nat)
    ensures i <= |log|
    ensures i < |log| ==> IsPush(log[i], logon, emsg)
    ensures forall k :: 0 <= k < i ==> !IsPush(log[k], logon, emsg)
  {
    if log == [] then 0
    else
      var n := |log| - 1;
      var before := FirstIndex(log[..n], logon, emsg);
      if before < n then before
      else if IsPush(log[n], logon, emsg) then n
      else n + 1
  }

  /** What a cache read after `seen` dispatches finds under `logon`. */
  function Cached(log: seq<Logged>, logon: nat, emsg: nat, seen: nat): Option<Bytes> {
    var i := FirstIndex(log, logon, emsg);
    if emsg in SNAPSHOT_EMSGS && i < seen && i < |log| then Some(log[i].msg.body) else None
  }

  /** A later dispatch does not change what an earlier read found. */
  lemma CachedStable(log: seq<Logged>, x: Logged, logon: nat, emsg: nat, seen: nat)
    requires seen <= |log|
    ensures Cached(log + [x], logon, emsg, seen) == Cached(log, logon, emsg, seen)
  {
    assert (log + [x])[..|log|] == log;
  }

  // ------------------------------------------------------------------
  // The invariant
  // ------------------------------------------------------------------

  ghost predicate LogOk(s: Shared) {
    && |s.log| == |s.events| + (if s.hand.Holding? then 1 else 0)
    && (forall i :: 0 <= i < |s.events| ==> s.events[i] == s.log[i].msg)
    && (s.hand.Holding? ==> s.log[|s.log| - 1] == Logged(s.logon, s.hand.msg))
    && (forall i :: 0 <= i < |s.log| ==> s.log[i].logon <= s.logon)
  }

  ghost predicate CacheOk(s: Shared) {
    forall emsg :: Lookup(s.cache, emsg) == Cached(s.log, s.logon, emsg, |s.log|)
  }

  ghost predicate ReaderOk(s: Shared) {
    && (s.subscription.Some? ==>
          var sub := s.subscription.value;
          && sub.from <= |s.events|
          && sub.logon <= s.logon
          && forall i :: sub.from <= i < |s.log| ==> s.log[i].logon >= sub.logon)
    && (s.look.Some? ==>
          && s.subscription.Some?
          && s.subscription.value.from <= s.look.value.seen <= |s.log|
          && s.subscription.value.logon <= s.look.value.logon <= s.logon
          && s.look.value.hit == Cached(s.log, s.look.value.logon, s.emsg, s.look.value.seen))
  }

  ghost predicate Inv(s: Shared) {
    LogOk(s) && CacheOk(s) && ReaderOk(s)
  }

  lemma InsertInv(s: Shared, msg: SteamMessage)
    requires Inv(s) && s.hand.Empty?
    ensures Inv(Do(s, Insert(msg)))
  {
    var x := Logged(s.logon, msg);
    var t := Do(s, Insert(msg));
    assert t.log[..|s.log|] == s.log;
    forall emsg ensures Lookup(t.cache, emsg) == Cached(t.log, t.logon, emsg, |t.log|) {
      assert Lookup(s.cache, emsg) == Cached(s.log, s.logon, emsg, |s.log|);
    }
    if s.look.Some? {
      CachedStable(s.log, x, s.look.value.logon, s.emsg, s.look.value.seen);
    }
  }

  lemma DoInv(s: Shared, a: Action)
    requires Inv(s) && Can(s, a)
    ensures Inv(Do(s, a))
  {
    match a
    case Insert(msg) => InsertInv(s, msg);
    case Clear =>
      var next := s.logon + 1;
      forall emsg: nat ensures FirstIndex(s.log, next, emsg) == |s.log| {
      }
    case _ =>
  }

  lemma {:induction false} DoAllInv(s: Shared, run: seq<Action>)
    requires Inv(s) && CanAll(s, run)
    ensures Inv(DoAll(s, run)) && DoAll(s, run).emsg == s.emsg
    decreases |run|
  {
    if run != [] {
      DoInv(s, run[0]);
      DoAllInv(Do(s, run[0]), run[1..]);
    }
  }

  /** At any moment of any interleaving the cache is exactly the first pushes of the logon in force. */
  lemma CacheIsFirstOfLogon(emsg: nat, run: seq<Action>, e: nat)
    requires CanAll(Fresh(emsg), run)
    ensures var s := DoAll(Fresh(emsg), run);
            Lookup(s.cache, e) == Cached(s.log, s.logon, e, |s.log|)
  {
    DoAllInv(Fresh(emsg), run);
  }

  /**
   Race freedom: in every interleaving, the first push of the logon in force at the cache
   read either was found by that read, or is still to come through the subscription.
   */
  lemma RaceFree(emsg: nat, run: seq<Action>)
    requires CanAll(Fresh(emsg), run) && emsg in SNAPSHOT_EMSGS
    requires DoAll(Fresh(emsg), run).look.Some?
    ensures var s := DoAll(Fresh(emsg), run);
            var look := s.look.value;
            var i := FirstIndex(s.log, look.logon, emsg);
            && s.subscription.Some?
            && (i < |s.log| ==>
                  || look.hit == Some(s.log[i].msg.body)
                  || (&& look.hit == None
                      && s.subscription.value.from <= i
                      && (i < |s.events| ==> s.events[i] == s.log[i].msg)
                      && (s.hand.Empty? ==> i < |s.events|)))
  {
    DoAllInv(Fresh(emsg), run);
  }

  // ------------------------------------------------------------------
  // The readers
  // ------------------------------------------------------------------

  /** The two flags the readers look at. */
  datatype ListFlags = ListFlags(incremental: Option<bool>, removal: Option<bool>)

  predicate IsFullFriends(f: ListFlags) {
    f.incremental != Some(true)
  }

  /** Nicknames and groups share this test. */
  predicate IsFullNicknames(f: ListFlags) {
    !(f.incremental.Some? && f.incremental.value) && !(f.removal.Some? && f.removal.value)
  }

  datatype Verdict = Full | Delta | Bad

  /** How a reader judges a body: undecodable, the full list, or a delta to skip. */
  function Judge(decode: Bytes -> Option<ListFlags>, full: ListFlags -> bool): Bytes -> Verdict {
    body =>
      match decode(body)
      case None => Bad
      case Some(flags) => if full(flags) then Full else Delta
  }

  /** What a wait on the subscription can bring. */
  datatype Delivery = Delivered(msg: SteamMessage) | Lagged | ChannelClosed | DeadlinePassed

  datatype Answer = Snapshot(body: Bytes) | CodecFailure | SessionStopped | NoneInTime | StillWaiting

  function Verdicts(v: Verdict, body: Bytes): Answer
    requires !v.Delta?
  {
    if v.Full? then Snapshot(body) else CodecFailure
  }

  predicate Skips(judge: Bytes -> Verdict, emsg: nat, msg: SteamMessage) {
    msg.emsg != emsg || judge(msg.body).Delta?
  }

  predicate WaitsOn(judge: Bytes -> Verdict, emsg: nat, d: Delivery) {
    d.Lagged? || (d.Delivered? && Skips(judge, emsg, d.msg))
  }

  /** Where the waiting loop stops, or the end of what came. */
  function FirstStop(judge: Bytes -> Verdict, emsg: nat, ds: seq<Delivery>, i: nat): (n: nat)
    requires i <= |ds|
    ensures i <= n <= |ds|
    ensures forall k :: i <= k < n ==> WaitsOn(judge, emsg, ds[k])
    ensures n < |ds| ==> !WaitsOn(judge, emsg, ds[n])
    decreases |ds| - i
  {
    if i == |ds| then i
    else if WaitsOn(judge, emsg, ds[i]) then FirstStop(judge, emsg, ds, i + 1)
    else i
  }

  /** What the wait answers, from `i` on. */
  function FirstAnswer(judge: Bytes -> Verdict, emsg: nat, ds: seq<Delivery>, i: nat): Answer
    requires i <= |ds|
  {
    var n := FirstStop(judge, emsg, ds, i);
    if n == |ds| then StillWaiting
    else
      match ds[n]
      case Delivered(msg) => Verdicts(judge(msg.body), msg.body)
      case ChannelClosed => SessionStopped
      case DeadlinePassed => NoneInTime
  }

  /** The cached body unless there is none or it is a delta, else the wait. */
  function Reads(judge: Bytes -> Verdict, emsg: nat, hit: Option<Bytes>, ds: seq<Delivery>, i: nat): Answer
    requires i <= |ds|
  {
    if hit.Some? && !judge(hit.value).Delta? then Verdicts(judge(hit.value), hit.value)
    else FirstAnswer(judge, emsg, ds, i)
  }

  /** A body the reader was given: from the cache, or in a message of its type. */
  ghost predicate Given(emsg: nat, hit: Option<Bytes>, ds: seq<Delivery>, body: Bytes) {
    || hit == Some(body)
    || exists k :: 0 <= k < |ds| && ds[k].Delivered? && ds[k].msg.emsg == emsg && ds[k].msg.body == body
  }

  /** The loop all three readers share. */
  method RequestSnapshot(judge: Bytes -> Verdict, emsg: nat, hit: Option<Bytes>, incoming: seq<Delivery>)
    returns (r: Answer)
    ensures r == Reads(judge, emsg, hit, incoming, 0)
    ensures r.Snapshot? ==> judge(r.body).Full? && Given(emsg, hit, incoming, r.body)
    ensures r.SessionStopped? ==> ChannelClosed in incoming
    ensures r.NoneInTime? ==> DeadlinePassed in incoming
  {
    if hit.Some? {
      var v := judge(hit.value);
      if v.Bad? {
        return CodecFailure;
      }
      if v.Full? {
        return Snapshot(hit.value);
      }
    }
    var i := 0;
    while i < |incoming|
      invariant 0 <= i <= |incoming|
      invariant FirstStop(judge, emsg, incoming, 0) == FirstStop(judge, emsg, incoming, i)
    {
      match incoming[i] {
        case Delivered(msg) =>
          if msg.emsg == emsg {
            var v := judge(msg.body);
            if v.Bad? {
              return CodecFailure;
            }
            if v.Full? {
              return Snapshot(msg.body);
            }
          }
        case Lagged =>
        case ChannelClosed => return SessionStopped;
        case DeadlinePassed => return NoneInTime;
      }
      i := i + 1;
    }
    return StillWaiting;
  }

  /** Not marked incremental, nor, where that counts, a removal. */
  predicate Unmarked(f: ListFlags, removals: bool) {
    f.incremental != Some(true) && (removals ==> f.removal != Some(true))
  }

  /** A body that decodes to a list without either mark, or without the first if removals do not count. */
  predicate IsList(decode: Bytes -> Option<ListFlags>, removals: bool, body: Bytes) {
    decode(body).Some? && Unmarked(decode(body).value, removals)
  }

  /** A delivery that a reader of `emsg` must wait past: a lag, another type, or a marked list. */
  predicate PassedOver(decode: Bytes -> Option<ListFlags>, removals: bool, emsg: nat, d: Delivery) {
    || d.Lagged?
    || (d.Delivered?
        && (d.msg.emsg != emsg || (decode(d.msg.body).Some? && !Unmarked(decode(d.msg.body).value, removals))))
  }

  /** The cache settles nothing: it is empty, or holds a marked list. */
  predicate NothingCached(decode: Bytes -> Option<ListFlags>, removals: bool, hit: Option<Bytes>) {
    hit.None? || (decode(hit.value).Some? && !Unmarked(decode(hit.value).value, removals))
  }

  /** Everything before delivery `k` is passed over. */
  ghost predicate WaitsUntil(
    decode: Bytes -> Option<ListFlags>, removals: bool, emsg: nat, ds: seq<Delivery>, k: nat)
    requires k < |ds|
  {
    forall i :: 0 <= i < k ==> PassedOver(decode, removals, emsg, ds[i])
  }

  /**
   What a reader answers, in terms of the lists themselves: a list found in the cache; else
   the first delivery it does not pass over, if that is a list of its type; and a list
   answered always is one it was given.
   */
  ghost predicate ReadsLists(
    decode: Bytes -> Option<ListFlags>, removals: bool, emsg: nat, hit: Option<Bytes>, ds: seq<Delivery>, r: Answer)
  {
    && (r.Snapshot? ==> IsList(decode, removals, r.body) && Given(emsg, hit, ds, r.body))
    && (hit.Some? && IsList(decode, removals, hit.value) ==> r == Snapshot(hit.value))
    && (hit.Some? && decode(hit.value).None? ==> r == CodecFailure)
    && (NothingCached(decode, removals, hit) ==>
          forall k :: 0 <= k < |ds| && WaitsUntil(decode, removals, emsg, ds, k) ==>
            && (ds[k].Delivered? && ds[k].msg.emsg == emsg && IsList(decode, removals, ds[k].msg.body) ==>
                  r == Snapshot(ds[k].msg.body))
            && (ds[k].Delivered? && ds[k].msg.emsg == emsg && decode(ds[k].msg.body).None? ==> r == CodecFailure)
            && (ds[k].ChannelClosed? ==> r == SessionStopped)
            && (ds[k].DeadlinePassed? ==> r == NoneInTime))
  }

  /** A test that accepts exactly the lists in question makes the shared loop read them so. */
  lemma ReadsMeans(
    decode: Bytes -> Option<ListFlags>, full: ListFlags -> bool, removals: bool, emsg: nat, hit: Option<Bytes>,
    ds: seq<Delivery>, r: Answer)
    requires forall f :: full(f) <==> Unmarked(f, removals)
    requires r == Reads(Judge(decode, full), emsg, hit, ds, 0)
    requires r.Snapshot? ==> Judge(decode, full)(r.body).Full? && Given(emsg, hit, ds, r.body)
    ensures ReadsLists(decode, removals, emsg, hit, ds, r)
  {
    var judge := Judge(decode, full);
    if NothingCached(decode, removals, hit) {
      forall k | 0 <= k < |ds| && WaitsUntil(decode, removals, emsg, ds, k)
        ensures PassedOver(decode, removals, emsg, ds[k]) || FirstStop(judge, emsg, ds, 0) == k
      {
        assert forall i :: 0 <= i < k ==> PassedOver(decode, removals, emsg, ds[i]) ==> WaitsOn(judge, emsg, ds[i]);
      }
    }
  }

  /** A friends list is any that is not marked incremental. */
  method RequestFriendsList(decode: Bytes -> Option<ListFlags>, hit: Option<Bytes>, incoming: seq<Delivery>)
    returns (r: Answer)
    ensures r == Reads(Judge(decode, IsFullFriends), EMSG_FRIENDS_LIST, hit, incoming, 0)
    ensures ReadsLists(decode, false, 767, hit, incoming, r)
  {
    r := RequestSnapshot(Judge(decode, IsFullFriends), EMSG_FRIENDS_LIST, hit, incoming);
    ReadsMeans(decode, IsFullFriends, false, EMSG_FRIENDS_LIST, hit, incoming, r);
  }

  /** A nickname list is any marked neither incremental nor a removal. */
  method RequestNicknames(decode: Bytes -> Option<ListFlags>, hit: Option<Bytes>, incoming: seq<Delivery>)
    returns (r: Answer)
    ensures r == Reads(Judge(decode, IsFullNicknames), EMSG_PLAYER_NICKNAME_LIST, hit, incoming, 0)
    ensures ReadsLists(decode, true, 5587, hit, incoming, r)
  {
    r := RequestSnapshot(Judge(decode, IsFullNicknames), EMSG_PLAYER_NICKNAME_LIST, hit, incoming);
    ReadsMeans(decode, IsFullNicknames, true, EMSG_PLAYER_NICKNAME_LIST, hit, incoming, r);
  }

  /** And so is a groups list. */
  method RequestFriendsGroupsList(decode: Bytes -> Option<ListFlags>, hit: Option<Bytes>, incoming: seq<Delivery>)
    returns (r: Answer)
    ensures r == Reads(Judge(decode, IsFullNicknames), EMSG_FRIENDS_GROUPS_LIST, hit, incoming, 0)
    ensures ReadsLists(decode, true, 5553, hit, incoming, r)
  {
    r := RequestSnapshot(Judge(decode, IsFullNicknames), EMSG_FRIENDS_GROUPS_LIST, hit, incoming);
    ReadsMeans(decode, IsFullNicknames, true, EMSG_FRIENDS_GROUPS_LIST, hit, incoming, r);
  }

  // ------------------------------------------------------------------
  // What a reader gets
  // ------------------------------------------------------------------

  function AllDelivered(events: seq<SteamMessage>): seq<Delivery> {
    seq(|events|, i requires 0 <= i < |events| => Delivered(events[i]))
  }

  /** Where a reader that loses nothing stops waiting in state `s`. */
  function StopsAt(s: Shared, judge: Bytes -> Verdict): (n: nat)
    requires s.subscription.Some? && s.subscription.value.from <= |s.events|
    ensures s.subscription.value.from <= n <= |s.events|
    ensures forall k :: s.subscription.value.from <= k < n ==> Skips(judge, s.emsg, s.events[k])
    ensures n < |s.events| ==> !Skips(judge, s.emsg, s.events[n])
  {
    var ds := AllDelivered(s.events);
    var n := FirstStop(judge, s.emsg, ds, s.subscription.value.from);
    assert forall k :: 0 <= k < |ds| ==> (WaitsOn(judge, s.emsg, ds[k]) <==> Skips(judge, s.emsg, s.events[k]));
    n
  }

  /** What it answers. */
  function ReaderAnswer(s: Shared, judge: Bytes -> Verdict): Answer
    requires s.look.Some? && s.subscription.Some? && s.subscription.value.from <= |s.events|
  {
    Reads(judge, s.emsg, s.look.value.hit, AllDelivered(s.events), s.subscription.value.from)
  }

  /** A state of some interleaving in which the cache was read and the logon's first push, a full list, is out. */
  ghost predicate PushIsOut(emsg: nat, run: seq<Action>, judge: Bytes -> Verdict, s: Shared) {
    && CanAll(Fresh(emsg), run) && s == DoAll(Fresh(emsg), run)
    && emsg in SNAPSHOT_EMSGS
    && s.look.Some?
    && var i := FirstIndex(s.log, s.look.value.logon, emsg);
       i < |s.events| <= |s.log| && judge(s.log[i].msg.body).Full?
  }

  /** Every list of the reader's type that reaches it from an earlier logon is a delta. */
  ghost predicate OnlyDeltasBefore(s: Shared, judge: Bytes -> Verdict)
    requires s.look.Some? && s.subscription.Some? && |s.events| <= |s.log|
  {
    forall k :: s.subscription.value.from <= k < |s.events| && s.log[k].logon < s.look.value.logon ==>
      Skips(judge, s.emsg, s.log[k].msg)
  }

  lemma PushFacts(emsg: nat, run: seq<Action>, judge: Bytes -> Verdict, s: Shared)
    requires PushIsOut(emsg, run, judge, s)
    ensures Inv(s) && Sorted(s) && s.emsg == emsg && s.subscription.Some? && s.subscription.value.from <= |s.events|
    ensures var i := FirstIndex(s.log, s.look.value.logon, emsg);
            && s.events[i] == s.log[i].msg && s.events[i].emsg == emsg
            && (s.look.value.hit.Some? ==> s.look.value.hit == Some(s.log[i].msg.body))
            && (s.look.value.hit.None? ==> s.subscription.value.from <= i)
  {
    DoAllInv(Fresh(emsg), run);
    LogSorted(emsg, run);
  }

  /**
   What a reader answers once the first push of the logon in force at its cache read is out.
   If the read found it, that. Otherwise it answers with the message it stops at, which is
   that push if and only if nothing but deltas of its type reaches it from an earlier logon.
   */
  lemma ReaderAnswersIff(emsg: nat, run: seq<Action>, judge: Bytes -> Verdict, s: Shared)
    requires PushIsOut(emsg, run, judge, s)
    ensures s.subscription.Some? && s.subscription.value.from <= |s.events|
    ensures var i := FirstIndex(s.log, s.look.value.logon, emsg);
            var n := StopsAt(s, judge);
            if s.look.value.hit.Some? then
              ReaderAnswer(s, judge) == Snapshot(s.log[i].msg.body)
            else
              && n < |s.events|
              && ReaderAnswer(s, judge) == Verdicts(judge(s.events[n].body), s.events[n].body)
              && (n == i <==> OnlyDeltasBefore(s, judge))
  {
    PushFacts(emsg, run, judge, s);
    if s.look.value.hit.None? {
      StopIsPushIff(s, judge);
    }
  }

  lemma StopIsPushIff(s: Shared, judge: Bytes -> Verdict)
    requires Inv(s) && Sorted(s) && s.look.Some? && s.subscription.Some?
    requires s.subscription.value.from <= FirstIndex(s.log, s.look.value.logon, s.emsg) < |s.events| <= |s.log|
    requires judge(s.log[FirstIndex(s.log, s.look.value.logon, s.emsg)].msg.body).Full?
    ensures StopsAt(s, judge) == FirstIndex(s.log, s.look.value.logon, s.emsg) <==> OnlyDeltasBefore(s, judge)
    ensures StopsAt(s, judge) < |s.events|
  {
    var i := FirstIndex(s.log, s.look.value.logon, s.emsg);
    assert !Skips(judge, s.emsg, s.events[i]);
    forall k | 0 <= k < |s.events| && !Skips(judge, s.emsg, s.log[k].msg)
      ensures k < i <==> s.log[k].logon < s.look.value.logon
    {
      assert !IsPush(s.log[k], s.look.value.logon, s.emsg) || i <= k;
      if k < i {
        assert s.log[k].logon <= s.log[i].logon;
      } else {
        assert s.log[i].logon <= s.log[k].logon;
      }
    }
  }

  /**
   In particular, with no reconnect between subscribing and reading the cache, a reader that
   loses nothing returns exactly that list, whatever else is going on.
   */
  lemma ReaderGetsSnapshot(emsg: nat, run: seq<Action>, judge: Bytes -> Verdict, s: Shared)
    requires PushIsOut(emsg, run, judge, s)
    requires s.subscription.Some? && s.subscription.value.logon == s.look.value.logon
    ensures s.subscription.value.from <= |s.events|
    ensures ReaderAnswer(s, judge) == Snapshot(s.log[FirstIndex(s.log, s.look.value.logon, emsg)].msg.body)
  {
    PushFacts(emsg, run, judge, s);
    ReaderAnswersIff(emsg, run, judge, s);
    if s.look.value.hit.None? {
      assert OnlyDeltasBefore(s, judge);
    }
  }

  ghost predicate Sorted(s: Shared) {
    && (forall i :: 0 <= i < |s.log| ==> s.log[i].logon <= s.logon)
    && (forall i, k :: 0 <= i <= k < |s.log| ==> s.log[i].logon <= s.log[k].logon)
  }

  lemma {:induction false} LogSortedFrom(s: Shared, run: seq<Action>)
    requires Sorted(s) && CanAll(s, run)
    ensures Sorted(DoAll(s, run))
    decreases |run|
  {
    if run != [] {
      LogSortedFrom(Do(s, run[0]), run[1..]);
    }
  }

  lemma LogSorted(emsg: nat, run: seq<Action>)
    requires CanAll(Fresh(emsg), run)
    ensures Sorted(DoAll(Fresh(emsg), run))
  {
    LogSortedFrom(Fresh(emsg), run);
  }

  /** A reader subscribes, the list of one logon comes, a reconnect clears it, and then the reader looks. */
  function StaleInterleaving(before: SteamMessage, after: SteamMessage): seq<Action> {
    [Subscribe, Insert(before), Publish, Clear, ReadCache, Insert(after), Publish]
  }

  /**
   The condition is needed: with a reconnect between the subscription and the cache read, a
   reader can answer with the list of the logon before.
   */
  lemma StaleSnapshotAcrossReconnect(before: SteamMessage, after: SteamMessage, judge: Bytes -> Verdict)
    requires before.emsg == EMSG_FRIENDS_LIST && after.emsg == EMSG_FRIENDS_LIST && before.body != after.body
    requires judge(before.body).Full? && judge(after.body).Full?
    ensures var run := StaleInterleaving(before, after);
            && CanAll(Fresh(EMSG_FRIENDS_LIST), run)
            && var s := DoAll(Fresh(EMSG_FRIENDS_LIST), run);
               && s.look.Some? && s.subscription.Some? && s.subscription.value.from <= |s.events|
               && s.look.value.logon == 1
               && FirstIndex(s.log, 1, EMSG_FRIENDS_LIST) < |s.log|
               && s.log[FirstIndex(s.log, 1, EMSG_FRIENDS_LIST)].msg == after
               && ReaderAnswer(s, judge) == Snapshot(before.body)
  {
    StaleRun(before, after);
    var s := StaleEnd(before, after);
    assert s.log[..1] == [Logged(0, before)] && s.log[..1][..0] == [];
    assert FirstIndex(s.log[..1], 1, EMSG_FRIENDS_LIST) == 1;
  }

  /** Where that run ends. */
  function StaleEnd(before: SteamMessage, after: SteamMessage): Shared {
    Shared(EMSG_FRIENDS_LIST, Remember(map[], after), [before, after], Empty, 1, [Logged(0, before), Logged(1, after)],
           Some(Subscription(0, 0)), Some(Look(None, 1, 1)))
  }

  lemma StaleRun(before: SteamMessage, after: SteamMessage)
    ensures var run := StaleInterleaving(before, after);
            CanAll(Fresh(EMSG_FRIENDS_LIST), run) && DoAll(Fresh(EMSG_FRIENDS_LIST), run) == StaleEnd(before, after)
  {
    var s1 := Do(Fresh(EMSG_FRIENDS_LIST), Subscribe);
    var s3 := Do(Do(s1, Insert(before)), Publish);
    var s5 := Do(Do(s3, Clear), ReadCache);
    var s6 := Do(s5, Insert(after));
    assert Do(s6, Publish) == StaleEnd(before, after);
    Chain(s6, Publish, []);
    Chain(s5, Insert(after), [Publish]);
    Chain(Do(s3, Clear), ReadCache, [Insert(after), Publish]);
    Chain(s3, Clear, [ReadCache, Insert(after), Publish]);
    Chain(Do(s1, Insert(before)), Publish, [Clear, ReadCache, Insert(after), Publish]);
    Chain(s1, Insert(before), [Publish, Clear, ReadCache, Insert(after), Publish]);
    Chain(Fresh(EMSG_FRIENDS_LIST), Subscribe, [Insert(before), Publish, Clear, ReadCache, Insert(after), Publish]);
  }

  lemma Chain(s: Shared, a: Action, run: seq<Action>)
    requires Can(s, a) && CanAll(Do(s, a), run)
    ensures CanAll(s, [a] + run)
    ensures DoAll(s, [a] + run) == DoAll(Do(s, a), run)
  {
    assert ([a] + run)[1..] == run;
  }
}
