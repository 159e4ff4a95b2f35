/**
 The search for a first connection: `CmConnection::establish` tries discovered servers in
 turn (src/session/connection.rs), `establish_resilient` repeats that with backoff
 (src/session/driver.rs).
 */
module ConnectSearch {
  import opened Wrappers
  import opened Backoff

  const MAX_CONNECT_ATTEMPTS: nat := 5
  const INITIAL_CONNECT_ATTEMPTS: nat := 4

  /** `id` tells errors of one kind apart. */
  datatype Failure = AuthRejected(id: nat) | Transient(id: nat) | AttemptTimeout | NoServers | NoAttempt

  /** How one server's connect and logon went; a timeout is the per-server budget running out. */
  datatype Try<T> = LoggedOn(conn: T) | Refused(failure: Failure) | TimedOut

  /** What discovery found, and how each server would answer. */
  datatype Discovery<T> = DiscoveryFailed(failure: Failure) | Servers(tries: seq<Try<T>>)

  function AsResult<T>(t: Try<T>): Result<T, Failure> {
    match t
    case LoggedOn(conn) => Ok(conn)
    case Refused(failure) => Err(failure)
    case TimedOut => Err(AttemptTimeout)
  }

  /** A result that ends the search: a connection, or a rejected token. */
  predicate Decisive<T>(r: Result<T, Failure>) {
    r.Ok? || r.error.AuthRejected?
  }

  /** What one discovery round can yield, in the order it is met. */
  function Met<T>(d: Discovery<T>): (rs: seq<Result<T, Failure>>)
    ensures 1 <= |rs| <= MAX_CONNECT_ATTEMPTS
  {
    match d
    case DiscoveryFailed(failure) => [Err(failure)]
    case Servers(tries) =>
      var n := if |tries| < MAX_CONNECT_ATTEMPTS then |tries| else MAX_CONNECT_ATTEMPTS;
      if n == 0 then [Err(NoServers)]
      else seq(n, i requires 0 <= i < n => AsResult(tries[i]))
  }

  /** The first decisive result, or the last one when none is. */
  function Search<T>(rs: seq<Result<T, Failure>>): (r: Result<T, Failure>)
    requires rs != []
    ensures r in rs
  {
    if Decisive(rs[0]) || |rs| == 1 then rs[0] else Search(rs[1..])
  }

  /** The search ends at the first connection or rejected token, and otherwise at the last error. */
  lemma {:induction false} SearchAt<T>(rs: seq<Result<T, Failure>>, i: nat)
    requires i < |rs|
    requires forall k :: 0 <= k < i ==> rs[k].Err? && !rs[k].error.AuthRejected?
    requires rs[i].Ok? || rs[i].error.AuthRejected? || i == |rs| - 1
    ensures Search(rs) == rs[i]
    decreases i
  {
    if i > 0 {
      SearchAt(rs[1..], i - 1);
    }
  }

  /** What each server's attempt, a failed discovery and an empty one count as; a sixth server is never tried. */
  lemma MetMeans<T>(d: Discovery<T>, i: nat)
    ensures d.DiscoveryFailed? ==> Met(d) == [Err(d.failure)]
    ensures d.Servers? && d.tries == [] ==> Met(d) == [Err(NoServers)]
    ensures d.Servers? && d.tries != [] ==> |Met(d)| == if |d.tries| < 5 then |d.tries| else 5
    ensures d.Servers? && i < |d.tries| && i < 5 ==>
              && (d.tries[i].LoggedOn? ==> Met(d)[i] == Ok(d.tries[i].conn))
              && (d.tries[i].Refused? ==> Met(d)[i] == Err(d.tries[i].failure))
              && (d.tries[i].TimedOut? ==> Met(d)[i] == Err(AttemptTimeout))
  {
  }

  /** Servers in turn, at most five, stopping at the first decisive one. */
  method Establish<T>(d: Discovery<T>) returns (r: Result<T, Failure>, logons: nat)
    ensures r == Search(Met(d))
    ensures logons <= |Met(d)|
    ensures d.Servers? ==> forall k :: 0 <= k < logons - 1 ==> !Decisive(Met(d)[k])
    ensures d.Servers? && !Decisive(r) ==> logons == if d.tries == [] then 0 else |Met(d)|
    ensures d.Servers? && Decisive(r) ==> 0 < logons && r == Met(d)[logons - 1]
  {
    logons := 0;
    if d.DiscoveryFailed? {
      return Err(d.failure), 0;
    }
    var lastErr := None;
    while logons < |d.tries| && logons < MAX_CONNECT_ATTEMPTS
      invariant logons <= |d.tries| && logons <= MAX_CONNECT_ATTEMPTS
      invariant forall k :: 0 <= k < logons ==> !Decisive(AsResult(d.tries[k]))
      invariant logons == 0 ==> lastErr.None?
      invariant logons > 0 ==> lastErr.Some? && AsResult(d.tries[logons - 1]) == Err(lastErr.value)
      decreases MAX_CONNECT_ATTEMPTS - logons
    {
      var attempt := d.tries[logons];
      logons := logons + 1;
      match attempt {
        case LoggedOn(conn) =>
          SearchAt(Met(d), logons - 1);
          return Ok(conn), logons;
        case Refused(failure) =>
          if failure.AuthRejected? {
            SearchAt(Met(d), logons - 1);
            return Err(failure), logons;
          }
          lastErr := Some(failure);
        case TimedOut =>
          lastErr := Some(AttemptTimeout);
      }
    }
    SearchAt(Met(d), |Met(d)| - 1);
    r := Err(if lastErr.Some? then lastErr.value else NoServers);
  }

  /** The results of the first `n` rounds, one after the other. */
  function MetAll<T>(rounds: seq<Discovery<T>>, n: nat): seq<Result<T, Failure>>
    requires n <= |rounds|
  {
    if n == 0 then [] else MetAll(rounds, n - 1) + Met(rounds[n - 1])
  }

  ghost predicate NoneDecisive<T>(rs: seq<Result<T, Failure>>) {
    forall k :: 0 <= k < |rs| ==> !Decisive(rs[k])
  }

  /** A decisive first round decides; an indecisive one leaves the search to the rest. */
  lemma {:induction false} SearchJoin<T>(a: seq<Result<T, Failure>>, b: seq<Result<T, Failure>>)
    requires a != []
    ensures Decisive(Search(a)) ==> Search(a + b) == Search(a)
    ensures !Decisive(Search(a)) ==> NoneDecisive(a) && Search(a) == a[|a| - 1]
    ensures !Decisive(Search(a)) && b != [] ==> Search(a + b) == Search(b)
    decreases |a|
  {
    if |a| == 1 {
      assert (a + b)[1..] == b;
    } else {
      assert (a + b)[1..] == a[1..] + b;
      SearchJoin(a[1..], b);
      if !Decisive(Search(a)) {
        forall k | 0 <= k < |a| ensures !Decisive(a[k]) {
          if k > 0 {
            assert a[k] == a[1..][k - 1];
          }
        }
      }
    }
  }

  /** Prepending results that decide nothing changes nothing. */
  lemma SearchSkips<T>(a: seq<Result<T, Failure>>, b: seq<Result<T, Failure>>)
    requires NoneDecisive(a) && b != []
    ensures Search(a + b) == Search(b)
  {
    if a == [] {
      assert a + b == b;
    } else {
      assert Search(a) in a;
      SearchJoin(a, b);
    }
  }

  /** After rounds that decided nothing, the next one decides what it decides alone. */
  lemma RoundStep<T>(rounds: seq<Discovery<T>>, n: nat)
    requires n < |rounds| && NoneDecisive(MetAll(rounds, n))
    ensures var all := MetAll(rounds, n + 1); var r := Search(Met(rounds[n]));
            && all != []
            && Search(all) == r
            && (!Decisive(r) ==> NoneDecisive(all) && all[|all| - 1] == r)
  {
    SearchSkips(MetAll(rounds, n), Met(rounds[n]));
    SearchJoin(Met(rounds[n]), []);
  }

  ghost predicate LastIs<T>(rs: seq<Result<T, Failure>>, failure: Failure) {
    rs != [] && rs[|rs| - 1] == Err(failure)
  }

  /** The i-th wait, from 0, is 2^i seconds. */
  ghost predicate Doubling(waits: seq<nat>) {
    forall i :: 0 <= i < |waits| ==> waits[i] == Pow2(i)
  }

  /** The cap on the wait is never reached here. */
  lemma DoublingMore(waits: seq<nat>)
    requires Doubling(waits) && |waits| < INITIAL_CONNECT_ATTEMPTS
    ensures Doubling(waits + [Pow2(|waits|)]) && 2 * Pow2(|waits|) == Pow2(|waits| + 1) <= MAX_BACKOFF_SECS
  {
    assert Pow2(1) == 2 && Pow2(2) == 4 && Pow2(3) == 8;
  }

  /** Once a round is decisive, later rounds cannot change the result. */
  lemma {:induction false} LaterRoundsIdle<T>(rounds: seq<Discovery<T>>, n: nat)
    requires 0 < n <= |rounds| == INITIAL_CONNECT_ATTEMPTS
    requires MetAll(rounds, n) != [] && Decisive(Search(MetAll(rounds, n)))
    ensures MetAll(rounds, INITIAL_CONNECT_ATTEMPTS) != []
    ensures Search(MetAll(rounds, INITIAL_CONNECT_ATTEMPTS)) == Search(MetAll(rounds, n))
    decreases INITIAL_CONNECT_ATTEMPTS - n
  {
    if n < INITIAL_CONNECT_ATTEMPTS {
      SearchJoin(MetAll(rounds, n), Met(rounds[n]));
      LaterRoundsIdle(rounds, n + 1);
    }
  }

  /** After `tried` rounds nothing was decisive, and `lastErr` is the last error, if any. */
  ghost predicate Searching<T>(rounds: seq<Discovery<T>>, tried: nat, lastErr: Failure)
    requires tried <= |rounds|
  {
    && NoneDecisive(MetAll(rounds, tried))
    && (tried > 0 ==> LastIs(MetAll(rounds, tried), lastErr) && NoneDecisive(MetAll(rounds, tried - 1)))
  }

  lemma StillSearching<T>(rounds: seq<Discovery<T>>, tried: nat, lastErr: Failure)
    requires tried < |rounds| == INITIAL_CONNECT_ATTEMPTS && Searching(rounds, tried, lastErr)
    ensures var r := Search(Met(rounds[tried]));
            if Decisive(r) then
              MetAll(rounds, |rounds|) != [] && r == Search(MetAll(rounds, |rounds|))
            else
              r.Err? && Searching(rounds, tried + 1, r.error)
  {
    RoundStep(rounds, tried);
    if Decisive(Search(Met(rounds[tried]))) {
      LaterRoundsIdle(rounds, tried + 1);
    }
  }

  lemma SearchLast<T>(rs: seq<Result<T, Failure>>, failure: Failure)
    requires NoneDecisive(rs) && LastIs(rs, failure)
    ensures Search(rs) == Err(failure)
  {
    SearchAt(rs, |rs| - 1);
  }

  lemma SearchOver<T>(rounds: seq<Discovery<T>>, lastErr: Failure)
    requires rounds != [] && Searching(rounds, |rounds|, lastErr)
    ensures MetAll(rounds, |rounds|) != [] && Search(MetAll(rounds, |rounds|)) == Err(lastErr)
  {
    SearchLast(MetAll(rounds, |rounds|), lastErr);
  }

  /** The waits so far, and the next one. */
  ghost predicate Waited(waits: seq<nat>, n: nat, next: nat) {
    |waits| == n && Doubling(waits) && next == Pow2(n)
  }

  lemma WaitedMore(waits: seq<nat>, n: nat, next: nat)
    requires Waited(waits, n, next) && n < INITIAL_CONNECT_ATTEMPTS
    ensures Waited(waits + [next], n + 1, CappedDouble(next, MAX_BACKOFF_SECS))
  {
    DoublingMore(waits);
  }

  /**
   Up to four rounds with a doubling wait between them. Over any sequence of outcomes: the
   first success or rejected token met ends the search and is its result, otherwise the last
   error is; at most 4 * 5 logons are made; the i-th wait (from 0) is 2^i seconds.
   */
  method EstablishResilient<T>(rounds: seq<Discovery<T>>)
    returns (r: Result<T, Failure>, logons: nat, tried: nat, waits: seq<nat>)
    requires |rounds| == INITIAL_CONNECT_ATTEMPTS
    ensures MetAll(rounds, INITIAL_CONNECT_ATTEMPTS) != []
    ensures r == Search(MetAll(rounds, INITIAL_CONNECT_ATTEMPTS))
    ensures 1 <= tried <= INITIAL_CONNECT_ATTEMPTS
    ensures NoneDecisive(MetAll(rounds, tried - 1))
    ensures tried < INITIAL_CONNECT_ATTEMPTS ==> Decisive(r)
    ensures logons <= 20
    ensures |waits| == tried - 1 && Doubling(waits)
  {
    var backoff: nat := 1;
    var lastErr := NoAttempt;
    logons := 0;
    tried := 0;
    waits := [];
    while tried < INITIAL_CONNECT_ATTEMPTS
      invariant 0 <= tried <= INITIAL_CONNECT_ATTEMPTS
      invariant logons <= MAX_CONNECT_ATTEMPTS * tried
      invariant Searching(rounds, tried, lastErr)
      invariant Waited(waits, if tried < INITIAL_CONNECT_ATTEMPTS then tried else tried - 1, backoff)
    {
      var result, tries := Establish(rounds[tried]);
      StillSearching(rounds, tried, lastErr);
      tried := tried + 1;
      logons := logons + tries;
      if Decisive(result) {
        return result, logons, tried, waits;
      }
      lastErr := result.error;
      if tried < INITIAL_CONNECT_ATTEMPTS {
        WaitedMore(waits, tried - 1, backoff);
        waits := waits + [backoff];
        backoff := CappedDouble(backoff, MAX_BACKOFF_SECS);
      }
    }
    SearchOver(rounds, lastErr);
    r := Err(lastErr);
  }
}
