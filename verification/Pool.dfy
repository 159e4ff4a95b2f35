/** The proxy pool (src/pool.rs): round-robin over healthy proxies, least-failed otherwise. */
module Pool {
  import opened Wrappers

  const U32_MAX: nat := 0xFFFF_FFFF

  // ------------------------------------------------------------------
  // Which proxy comes next
  // ------------------------------------------------------------------

  predicate Healthy(failures: seq<nat>, deadAfter: nat, i: nat)
    requires i < |failures|
  {
    failures[i] < deadAfter
  }

  /** Position `step` places on from the cursor. */
  function At(cursor: nat, step: nat, n: nat): (i: nat)
    requires n > 0
    ensures i < n
  {
    (cursor + step) % n
  }

  /** How many places from the cursor the first healthy proxy is, or the pool size. */
  function Steps(failures: seq<nat>, deadAfter: nat, cursor: nat, step: nat): (r: nat)
    requires 0 < |failures| && step <= |failures|
    ensures step <= r <= |failures|
    ensures r < |failures| ==> Healthy(failures, deadAfter, At(cursor, r, |failures|))
    ensures forall k :: step <= k < r ==> !Healthy(failures, deadAfter, At(cursor, k, |failures|))
    decreases |failures| - step
  {
    if step == |failures| then step
    else if Healthy(failures, deadAfter, At(cursor, step, |failures|)) then step
    else Steps(failures, deadAfter, cursor, step + 1)
  }

  /** The leftmost of the least-failed proxies among the first `n`. */
  function Least(failures: seq<nat>, n: nat): (i: nat)
    requires 0 < n <= |failures|
    ensures i < n
    ensures forall k :: 0 <= k < n ==> failures[i] <= failures[k]
    ensures forall k :: 0 <= k < i ==> failures[i] < failures[k]
  {
    if n == 1 then 0
    else
      var best := Least(failures, n - 1);
      if failures[n - 1] < failures[best] then n - 1 else best
  }

  /** The proxy an acquire hands out. */
  function Pick(failures: seq<nat>, deadAfter: nat, cursor: nat): (i: nat)
    requires 0 < |failures|
    ensures i < |failures|
  {
    var r := Steps(failures, deadAfter, cursor, 0);
    if r < |failures| then At(cursor, r, |failures|) else Least(failures, |failures|)
  }

  function Advance(failures: seq<nat>, deadAfter: nat, cursor: nat): (c: nat)
    requires 0 < |failures|
    ensures c < |failures|
  {
    (Pick(failures, deadAfter, cursor) + 1) % |failures|
  }

  function Failed(failures: seq<nat>, i: nat): seq<nat> {
    if i < |failures| then failures[i := if failures[i] < U32_MAX then failures[i] + 1 else U32_MAX] else failures
  }

  function Succeeded(failures: seq<nat>, i: nat): seq<nat> {
    if i < |failures| then failures[i := 0] else failures
  }

  // ------------------------------------------------------------------
  // The pool
  // ------------------------------------------------------------------

  datatype ProxyStatus = IsHealthy | Unhealthy(consecutiveFailures: nat)

  datatype Lease<T> = Lease(index: nat, proxy: T)

  class ProxyPool<T> {
    const proxies: seq<T>
    const deadAfter: nat
    var failures: seq<nat>
    var cursor: nat

    ghost predicate Valid()
      reads this
    {
      && |failures| == |proxies|
      && (|proxies| == 0 ==> cursor == 0)
      && (|proxies| > 0 ==> cursor < |proxies|)
      && forall i :: 0 <= i < |failures| ==> failures[i] <= U32_MAX
    }

    constructor (proxies: seq<T>, deadAfter: nat)
      ensures Valid() && this.proxies == proxies && this.deadAfter == deadAfter && cursor == 0
      ensures forall i :: 0 <= i < |failures| ==> failures[i] == 0
    {
      this.proxies := proxies;
      this.deadAfter := deadAfter;
      failures := seq(|proxies|, _ => 0);
      cursor := 0;
    }

    /** The fallback when no proxy is healthy. */
    method LeastFailed() returns (index: nat)
      requires |failures| > 0
      ensures index == Least(failures, |failures|)
    {
      index := 0;
      var i := 1;
      while i < |failures|
        invariant 1 <= i <= |failures|
        invariant index == Least(failures, i)
      {
        if failures[i] < failures[index] {
          index := i;
        }
        i := i + 1;
      }
    }

    method Acquire() returns (lease: Option<Lease<T>>)
      requires Valid()
      modifies this`cursor
      ensures Valid()
      ensures lease.None? <==> |proxies| == 0
      ensures lease.None? ==> cursor == old(cursor)
      ensures lease.Some? ==>
                && lease.value.index == Pick(failures, deadAfter, old(cursor))
                && lease.value.proxy == proxies[lease.value.index]
                && cursor == Advance(failures, deadAfter, old(cursor))
    {
      var n := |proxies|;
      if n == 0 {
        return None;
      }
      var step := 0;
      while step < n
        invariant 0 <= step <= n && cursor == old(cursor)
        invariant Steps(failures, deadAfter, cursor, 0) == Steps(failures, deadAfter, cursor, step)
      {
        var index := (cursor + step) % n;
        if failures[index] < deadAfter {
          cursor := (index + 1) % n;
          return Some(Lease(index, proxies[index]));
        }
        step := step + 1;
      }
      var index := LeastFailed();
      cursor := (index + 1) % n;
      return Some(Lease(index, proxies[index]));
    }

    method ReportSuccess(lease: Lease<T>)
      requires Valid()
      modifies this`failures
      ensures Valid() && failures == Succeeded(old(failures), lease.index)
    {
      if lease.index < |failures| {
        failures := failures[lease.index := 0];
      }
    }

    method ReportFailure(lease: Lease<T>)
      requires Valid()
      modifies this`failures
      ensures Valid() && failures == Failed(old(failures), lease.index)
    {
      if lease.index < |failures| {
        var f := failures[lease.index];
        failures := failures[lease.index := if f < U32_MAX then f + 1 else U32_MAX];
      }
    }

    /** How many proxies are healthy. */
    method HealthyCount() returns (count: nat)
      requires Valid()
      ensures count == |HealthySet(failures, deadAfter)|
    {
      count := 0;
      ghost var seen: set<nat> := {};
      for i := 0 to |failures|
        invariant seen == set k | 0 <= k < i && failures[k] < deadAfter
        invariant count == |seen|
      {
        if failures[i] < deadAfter {
          count := count + 1;
          seen := seen + {i};
        }
      }
      assert seen == HealthySet(failures, deadAfter);
    }

    method Status(lease: Lease<T>) returns (status: ProxyStatus)
      requires Valid()
      ensures lease.index < |failures| ==>
                (status.IsHealthy? <==> lease.index in HealthySet(failures, deadAfter))
      ensures lease.index < |failures| && failures[lease.index] >= deadAfter ==>
                status == Unhealthy(failures[lease.index])
      ensures lease.index >= |failures| || failures[lease.index] < deadAfter ==> status == IsHealthy
    {
      if lease.index < |failures| && failures[lease.index] >= deadAfter {
        return Unhealthy(failures[lease.index]);
      }
      return IsHealthy;
    }
  }

  ghost function HealthySet(failures: seq<nat>, deadAfter: nat): set<nat> {
    set i | 0 <= i < |failures| && failures[i] < deadAfter
  }

  // ------------------------------------------------------------------
  // Modular distance from the cursor
  // ------------------------------------------------------------------

  /** How many places on from the cursor proxy `i` is. */
  function Distance(i: nat, cursor: nat, n: nat): (d: nat)
    requires i < n && cursor < n
    ensures d < n && At(cursor, d, n) == i
  {
    if i >= cursor then i - cursor else i + n - cursor
  }

  lemma AtIsWrap(cursor: nat, step: nat, n: nat)
    requires cursor < n && step <= n
    ensures At(cursor, step, n) == if cursor + step < n then cursor + step else cursor + step - n
  {
  }

  // ------------------------------------------------------------------
  // Health
  // ------------------------------------------------------------------

  /** A success for proxy `i`, then `k` failures in a row. */
  function AfterSuccess(failures: seq<nat>, i: nat, k: nat): seq<nat> {
    if k == 0 then Succeeded(failures, i) else Failed(AfterSuccess(failures, i, k - 1), i)
  }

  /**
   A proxy is skipped after exactly `deadAfter` failures since its last success, whatever it
   was before, and the others' counts are not touched.
   */
  lemma {:induction false} DeadAfterExactly(failures: seq<nat>, deadAfter: nat, i: nat, k: nat)
    requires i < |failures| && k <= U32_MAX
    ensures var now := AfterSuccess(failures, i, k);
            && |now| == |failures| && now[i] == k
            && (Healthy(now, deadAfter, i) <==> k < deadAfter)
            && (i in HealthySet(now, deadAfter) <==> k < deadAfter)
            && forall n :: 0 <= n < |failures| && n != i ==> now[n] == failures[n]
    decreases k
  {
    if k > 0 {
      DeadAfterExactly(failures, deadAfter, i, k - 1);
    }
  }

  /** An acquire hands out the first healthy proxy from the cursor on, or the first of the least failed. */
  lemma PickMeans(failures: seq<nat>, deadAfter: nat, cursor: nat, p: nat)
    requires cursor < |failures| && p < |failures|
    ensures var i := Pick(failures, deadAfter, cursor);
            var n := |failures|;
            if exists k :: 0 <= k < n && failures[k] < deadAfter then
              && failures[i] < deadAfter
              && (failures[p] < deadAfter ==> Distance(i, cursor, n) <= Distance(p, cursor, n))
            else
              failures[i] <= failures[p] && (p < i ==> failures[i] < failures[p])
  {
    var n := |failures|;
    var r := Steps(failures, deadAfter, cursor, 0);
    if failures[p] < deadAfter {
      var d := Distance(p, cursor, n);
      assert Healthy(failures, deadAfter, At(cursor, d, n));
    }
    if k :| 0 <= k < n && failures[k] < deadAfter {
      var d := Distance(k, cursor, n);
      assert Healthy(failures, deadAfter, At(cursor, d, n));
      AtIsWrap(cursor, r, n);
    }
  }

  // ------------------------------------------------------------------
  // Starvation freedom
  // ------------------------------------------------------------------

  /**
   A schedule of acquires: before the k-th the failure counts are `health[k]`, however they
   came to be so, and the cursor is where the acquires before left it.
   */
  function CursorAt(health: seq<seq<nat>>, deadAfter: nat, cursor: nat, n: nat, k: nat): (c: nat)
    requires 0 < n && cursor < n && k <= |health|
    requires forall i :: 0 <= i < |health| ==> |health[i]| == n
    ensures c < n
  {
    if k == 0 then cursor
    else Advance(health[k - 1], deadAfter, CursorAt(health, deadAfter, cursor, n, k - 1))
  }

  /** Each acquire that misses a healthy proxy moves the cursor closer to it. */
  lemma MissMovesCloser(failures: seq<nat>, deadAfter: nat, cursor: nat, p: nat)
    requires p < |failures| && cursor < |failures| && Healthy(failures, deadAfter, p)
    ensures Pick(failures, deadAfter, cursor) == p
            || Distance(p, Advance(failures, deadAfter, cursor), |failures|) < Distance(p, cursor, |failures|)
  {
    var n := |failures|;
    var d := Distance(p, cursor, n);
    var r := Steps(failures, deadAfter, cursor, 0);
    assert r <= d;
    AtIsWrap(cursor, r, n);
    AtIsWrap(Pick(failures, deadAfter, cursor), 1, n);
  }

  /**
   A proxy that stays healthy is returned within n consecutive acquires, however the
   others' health changes in between.
   */
  lemma NoStarvation(health: seq<seq<nat>>, deadAfter: nat, cursor: nat, n: nat, p: nat)
    requires p < n && cursor < n && |health| == n
    requires forall i :: 0 <= i < |health| ==> |health[i]| == n
    requires forall i :: 0 <= i < |health| ==> Healthy(health[i], deadAfter, p)
    ensures exists k :: 0 <= k < n && Pick(health[k], deadAfter, CursorAt(health, deadAfter, cursor, n, k)) == p
  {
    StarvationFrom(health, deadAfter, cursor, n, p, 0);
  }

  lemma {:induction false} StarvationFrom(
    health: seq<seq<nat>>, deadAfter: nat, cursor: nat, n: nat, p: nat, k: nat)
    requires p < n && cursor < n && |health| == n && k < n
    requires forall i :: 0 <= i < |health| ==> |health[i]| == n
    requires forall i :: 0 <= i < |health| ==> Healthy(health[i], deadAfter, p)
    requires Distance(p, CursorAt(health, deadAfter, cursor, n, k), n) < n - k
    ensures exists m :: k <= m < n && Pick(health[m], deadAfter, CursorAt(health, deadAfter, cursor, n, m)) == p
    decreases n - k
  {
    var c := CursorAt(health, deadAfter, cursor, n, k);
    MissMovesCloser(health[k], deadAfter, c, p);
    if Pick(health[k], deadAfter, c) != p {
      assert CursorAt(health, deadAfter, cursor, n, k + 1) == Advance(health[k], deadAfter, c);
      StarvationFrom(health, deadAfter, cursor, n, p, k + 1);
    }
  }

  // ------------------------------------------------------------------
  // Exact rotation
  // ------------------------------------------------------------------

  /** The members of `healthy` from `lo` up to `hi`, in order. */
  function Range(healthy: set<nat>, lo: nat, hi: nat): seq<nat>
    decreases hi - lo
  {
    if lo >= hi then []
    else (if lo in healthy then [lo] else []) + Range(healthy, lo + 1, hi)
  }

  /** The healthy proxies in the order the cursor meets them. */
  function Round(healthy: set<nat>, cursor: nat, n: nat): seq<nat> {
    Range(healthy, cursor, n) + Range(healthy, 0, cursor)
  }

  lemma {:induction false} RangeSplit(healthy: set<nat>, lo: nat, mid: nat, hi: nat)
    requires lo <= mid <= hi
    ensures Range(healthy, lo, hi) == Range(healthy, lo, mid) + Range(healthy, mid, hi)
    decreases mid - lo
  {
    if lo < mid {
      RangeSplit(healthy, lo + 1, mid, hi);
    }
  }

  lemma {:induction false} RangeNone(healthy: set<nat>, lo: nat, hi: nat)
    requires forall i :: lo <= i < hi ==> i !in healthy
    ensures Range(healthy, lo, hi) == []
    decreases hi - lo
  {
    if lo < hi {
      RangeNone(healthy, lo + 1, hi);
    }
  }

  /** With only `i` healthy between `lo` and itself, `i` heads the range. */
  lemma RangeHead(healthy: set<nat>, lo: nat, i: nat, hi: nat)
    requires lo <= i < hi && i in healthy
    requires forall k :: lo <= k < i ==> k !in healthy
    ensures Range(healthy, lo, hi) == [i] + Range(healthy, i + 1, hi)
    ensures Range(healthy, lo, i + 1) == [i]
  {
    RangeNone(healthy, lo, i);
    RangeSplit(healthy, lo, i, hi);
    RangeSplit(healthy, lo, i, i + 1);
    assert Range(healthy, i, i + 1) == [i] + Range(healthy, i + 1, i + 1);
  }

  /** Where the scan stops: the first healthy proxy at or after the cursor, or else before it. */
  lemma PickIsNext(failures: seq<nat>, deadAfter: nat, cursor: nat)
    requires cursor < |failures| && HealthySet(failures, deadAfter) != {}
    ensures var healthy := HealthySet(failures, deadAfter);
            var i := Pick(failures, deadAfter, cursor);
            && i in healthy
            && (i >= cursor ==> forall k :: cursor <= k < i ==> k !in healthy)
            && (i < cursor ==> (forall k :: cursor <= k < |failures| ==> k !in healthy)
                               && (forall k :: 0 <= k < i ==> k !in healthy))
  {
    var n := |failures|;
    var healthy := HealthySet(failures, deadAfter);
    var r := Steps(failures, deadAfter, cursor, 0);
    forall k | 0 <= k < n && Distance(k, cursor, n) < r ensures k !in healthy {
      assert !Healthy(failures, deadAfter, At(cursor, Distance(k, cursor, n), n));
    }
    var p :| p in healthy;
    assert r <= Distance(p, cursor, n);
    AtIsWrap(cursor, r, n);
  }

  /** An acquire takes the head of the round and leaves the round turned by one. */
  lemma AcquireTurnsRound(failures: seq<nat>, deadAfter: nat, cursor: nat)
    requires cursor < |failures| && HealthySet(failures, deadAfter) != {}
    ensures var healthy := HealthySet(failures, deadAfter);
            var i := Pick(failures, deadAfter, cursor);
            var round := Round(healthy, cursor, |failures|);
            && round != []
            && i == round[0]
            && Round(healthy, Advance(failures, deadAfter, cursor), |failures|) == round[1..] + [i]
  {
    var n := |failures|;
    var healthy := HealthySet(failures, deadAfter);
    var i := Pick(failures, deadAfter, cursor);
    PickIsNext(failures, deadAfter, cursor);
    AtIsWrap(i, 1, n);
    if i >= cursor {
      TurnAhead(healthy, cursor, i, n);
    } else {
      TurnBehind(healthy, cursor, i, n);
    }
    assert Range(healthy, n, n) == [] && Range(healthy, 0, 0) == [];
    assert Round(healthy, n, n) == Range(healthy, 0, n) == Round(healthy, 0, n);
  }

  lemma TurnAhead(healthy: set<nat>, cursor: nat, i: nat, n: nat)
    requires cursor <= i < n && i in healthy
    requires forall k :: cursor <= k < i ==> k !in healthy
    ensures var round := Round(healthy, cursor, n);
            round != [] && round[0] == i && Round(healthy, i + 1, n) == round[1..] + [i]
  {
    RangeHead(healthy, cursor, i, n);
    RangeSplit(healthy, 0, cursor, i + 1);
    var ahead, behind := Range(healthy, i + 1, n), Range(healthy, 0, cursor);
    assert Round(healthy, cursor, n) == [i] + (ahead + behind);
    assert Round(healthy, i + 1, n) == ahead + (behind + [i]);
  }

  lemma TurnBehind(healthy: set<nat>, cursor: nat, i: nat, n: nat)
    requires i < cursor <= n && i in healthy
    requires forall k :: cursor <= k < n ==> k !in healthy
    requires forall k :: 0 <= k < i ==> k !in healthy
    ensures var round := Round(healthy, cursor, n);
            round != [] && round[0] == i && Round(healthy, i + 1, n) == round[1..] + [i]
  {
    RangeNone(healthy, cursor, n);
    RangeHead(healthy, 0, i, cursor);
    RangeHead(healthy, 0, i, i + 1);
    RangeSplit(healthy, i + 1, cursor, n);
    var rest := Range(healthy, i + 1, cursor);
    assert Round(healthy, cursor, n) == [i] + rest;
    assert Round(healthy, i + 1, n) == rest + [i];
  }

  /** A round holds each healthy proxy exactly once. */
  lemma {:induction false} RangeMembers(healthy: set<nat>, lo: nat, hi: nat)
    ensures forall i :: i in Range(healthy, lo, hi) <==> lo <= i < hi && i in healthy
    ensures Distinct(Range(healthy, lo, hi))
    decreases hi - lo
  {
    if lo < hi {
      RangeMembers(healthy, lo + 1, hi);
      var rest := Range(healthy, lo + 1, hi);
      if lo in healthy {
        assert Range(healthy, lo, hi) == [lo] + rest;
        forall i | 0 <= i < |rest| ensures rest[i] != lo {
          assert rest[i] in rest;
        }
      } else {
        assert Range(healthy, lo, hi) == rest;
      }
    }
  }

  ghost predicate Distinct(s: seq<nat>) {
    forall i, k :: 0 <= i < k < |s| ==> s[i] != s[k]
  }

  lemma {:induction false} DistinctCard(s: seq<nat>, members: set<nat>)
    requires Distinct(s) && (forall x :: x in s <==> x in members)
    ensures |s| == |members|
    decreases |s|
  {
    if s != [] {
      var n := |s| - 1;
      assert s[n] in members;
      forall x ensures x in s[..n] <==> x in members - {s[n]} {
        if x in members - {s[n]} {
          var k :| 0 <= k < |s| && s[k] == x;
          assert s[..n][k] == x;
        }
      }
      DistinctCard(s[..n], members - {s[n]});
    } else {
      assert members == {};
    }
  }

  lemma RoundIsHealthySet(healthy: set<nat>, cursor: nat, n: nat)
    requires cursor <= n && forall i :: i in healthy ==> i < n
    ensures var round := Round(healthy, cursor, n);
            && Distinct(round)
            && (forall i :: i in round <==> i in healthy)
            && |round| == |healthy|
  {
    var a, b := Range(healthy, cursor, n), Range(healthy, 0, cursor);
    RangeMembers(healthy, cursor, n);
    RangeMembers(healthy, 0, cursor);
    forall i, k | 0 <= i < |a| && 0 <= k < |b| ensures a[i] != b[k] {
      assert a[i] in a && b[k] in b;
    }
    DistinctCard(a + b, healthy);
  }

  ghost predicate HealthyAre(failures: seq<nat>, deadAfter: nat, healthy: set<nat>) {
    HealthySet(failures, deadAfter) == healthy
  }

  /** The round as the k-th acquire finds it. */
  function Rotated(round: seq<nat>, k: nat): seq<nat>
    requires k <= |round|
  {
    round[k..] + round[..k]
  }

  function Turned(round: seq<nat>): seq<nat> {
    if round == [] then [] else round[1..] + [round[0]]
  }

  lemma TurnList(round: seq<nat>, k: nat)
    requires 0 < k <= |round|
    ensures Turned(Rotated(round, k - 1)) == Rotated(round, k)
  {
    assert Rotated(round, k - 1)[0] == round[k - 1];
  }

  /** Lists that turn by one at each step are rotations of the first. */
  lemma {:induction false} TurnsRotate(lists: seq<seq<nat>>, k: nat)
    requires k < |lists| && k <= |lists[0]|
    requires forall i :: 0 < i < |lists| ==> lists[i] == Turned(lists[i - 1])
    ensures lists[k] == Rotated(lists[0], k)
    decreases k
  {
    if k == 0 {
      assert Rotated(lists[0], 0) == lists[0];
    } else {
      TurnsRotate(lists, k - 1);
      TurnList(lists[0], k);
    }
  }

  lemma RotationStep(health: seq<seq<nat>>, deadAfter: nat, cursor: nat, n: nat, healthy: set<nat>, k: nat)
    requires 0 < n && cursor < n && healthy != {} && 0 < k <= |health|
    requires forall i :: 0 <= i < |health| ==> |health[i]| == n
    requires HealthyAre(health[k - 1], deadAfter, healthy)
    ensures Round(healthy, CursorAt(health, deadAfter, cursor, n, k), n)
            == Turned(Round(healthy, CursorAt(health, deadAfter, cursor, n, k - 1), n))
  {
    AcquireTurnsRound(health[k - 1], deadAfter, CursorAt(health, deadAfter, cursor, n, k - 1));
  }

  lemma RotationAt(health: seq<seq<nat>>, deadAfter: nat, cursor: nat, n: nat, healthy: set<nat>, k: nat)
    requires 0 < n && cursor < n && healthy != {}
    requires k <= |health| && k <= |Round(healthy, cursor, n)|
    requires forall i :: 0 <= i < |health| ==> |health[i]| == n
    requires forall i :: 0 <= i < |health| ==> HealthyAre(health[i], deadAfter, healthy)
    ensures Round(healthy, CursorAt(health, deadAfter, cursor, n, k), n) == Rotated(Round(healthy, cursor, n), k)
  {
    var lists := seq(k + 1, i requires 0 <= i <= k => Round(healthy, CursorAt(health, deadAfter, cursor, n, i), n));
    forall i | 0 < i < |lists| ensures lists[i] == Turned(lists[i - 1]) {
      RotationStep(health, deadAfter, cursor, n, healthy, i);
    }
    TurnsRotate(lists, k);
  }

  /**
   While the healthy set stays the same and is not empty, as many consecutive acquires as
   it has members return each of them exactly once: the k-th returns the k-th of a
   duplicate-free listing of the set.
   */
  lemma ExactRotation(health: seq<seq<nat>>, deadAfter: nat, cursor: nat, n: nat, healthy: set<nat>)
    requires 0 < n && cursor < n && healthy != {} && |health| == |healthy|
    requires forall i :: 0 <= i < |health| ==> |health[i]| == n
    requires forall i :: 0 <= i < |health| ==> HealthyAre(health[i], deadAfter, healthy)
    ensures forall p :: p in healthy ==>
              exists k :: 0 <= k < |health|
                          && Pick(health[k], deadAfter, CursorAt(health, deadAfter, cursor, n, k)) == p
    ensures forall i, k :: 0 <= i < k < |health| ==>
              Pick(health[i], deadAfter, CursorAt(health, deadAfter, cursor, n, i))
              != Pick(health[k], deadAfter, CursorAt(health, deadAfter, cursor, n, k))
  {
    assert HealthyAre(health[0], deadAfter, healthy);
    RoundIsHealthySet(healthy, cursor, n);
    var round := Round(healthy, cursor, n);
    forall k | 0 <= k < |health|
      ensures Pick(health[k], deadAfter, CursorAt(health, deadAfter, cursor, n, k)) == round[k]
    {
      RotationAt(health, deadAfter, cursor, n, healthy, k);
      AcquireTurnsRound(health[k], deadAfter, CursorAt(health, deadAfter, cursor, n, k));
    }
    forall p | p in healthy
      ensures exists k :: 0 <= k < |health|
                          && Pick(health[k], deadAfter, CursorAt(health, deadAfter, cursor, n, k)) == p
    {
      var k :| 0 <= k < |round| && round[k] == p;
      assert Pick(health[k], deadAfter, CursorAt(health, deadAfter, cursor, n, k)) == p;
    }
  }

  // ------------------------------------------------------------------
  // Failure-only runs
  // ------------------------------------------------------------------

  /** A fresh pool of `n` after `k` acquires, each followed by a failure report on its lease. */
  function AfterFailures(n: nat, deadAfter: nat, k: nat): (r: (seq<nat>, nat))
    requires 0 < n
    ensures |r.0| == n && r.1 < n
  {
    if k == 0 then (seq(n, _ => 0), 0)
    else
      var (failures, cursor) := AfterFailures(n, deadAfter, k - 1);
      (Failed(failures, Pick(failures, deadAfter, cursor)), Advance(failures, deadAfter, cursor))
  }

  /** `q` failures everywhere, one more on the first `r`. */
  ghost predicate Level(failures: seq<nat>, q: nat, r: nat) {
    forall i :: 0 <= i < |failures| ==> failures[i] == if i < r then q + 1 else q
  }

  /** On level counts the next proxy is the first of the lower ones, healthy or not. */
  lemma LevelPick(failures: seq<nat>, deadAfter: nat, q: nat, r: nat)
    requires r < |failures| && Level(failures, q, r)
    ensures Pick(failures, deadAfter, r) == r
  {
    var n := |failures|;
    AtIsWrap(r, 0, n);
    if q >= deadAfter {
      var s := Steps(failures, deadAfter, r, 0);
      if s < n {
        assert false;
      }
      var least := Least(failures, n);
      assert failures[least] <= failures[r];
      if least > r {
        assert false;
      }
    }
  }

  /** Whole rounds done and proxies into the next one, after `k` acquires. */
  function Lap(n: nat, k: nat): (r: (nat, nat))
    requires 0 < n
    ensures r.1 < n
  {
    if k == 0 then (0, 0)
    else
      var (q, r) := Lap(n, k - 1);
      if r + 1 == n then (q + 1, 0) else (q, r + 1)
  }

  lemma {:induction false} LapIsDivision(n: nat, k: nat)
    requires 0 < n
    ensures k == Lap(n, k).0 * n + Lap(n, k).1
    ensures Lap(n, k).1 == k % n
    ensures k < n * U32_MAX <==> Lap(n, k).0 < U32_MAX
    decreases k
  {
    if k > 0 {
      LapIsDivision(n, k - 1);
      var (q, r) := Lap(n, k - 1);
      assert (q + 1) * n == q * n + n;
    }
    var (q, r) := Lap(n, k);
    DivisionIsUnique(n, q, r);
    QuotientBound(n, q, r);
  }

  lemma MulMono(a: nat, b: nat, n: nat)
    requires a <= b
    ensures a * n <= b * n
  {
    assert b * n == a * n + (b - a) * n;
  }

  lemma MulGap(a: nat, b: nat, n: nat)
    requires a < b
    ensures a * n + n <= b * n
  {
    MulMono(a + 1, b, n);
    assert (a + 1) * n == a * n + n;
  }

  lemma DivisionIsUnique(n: nat, q: nat, r: nat)
    requires r < n
    ensures (q * n + r) % n == r
  {
    var k := q * n + r;
    var d, m := k / n, k % n;
    assert k == d * n + m;
    if q > d {
      MulGap(d, q, n);
    } else if q < d {
      MulGap(q, d, n);
    }
  }

  lemma QuotientBound(n: nat, q: nat, r: nat)
    requires r < n
    ensures q * n + r < n * U32_MAX <==> q < U32_MAX
  {
    if q < U32_MAX {
      MulGap(q, U32_MAX, n);
    } else {
      MulMono(U32_MAX, q, n);
    }
  }

  /** A failure on level counts leaves them level, one place on. */
  lemma LevelStep(failures: seq<nat>, deadAfter: nat, q: nat, r: nat)
    requires r < |failures| && q < U32_MAX && Level(failures, q, r) && Pick(failures, deadAfter, r) == r
    ensures var (q', r') := if r + 1 == |failures| then (q + 1, 0) else (q, r + 1);
            Level(Failed(failures, r), q', r') && Advance(failures, deadAfter, r) == r'
  {
    AtIsWrap(r, 1, |failures|);
  }

  /** Counts stay level while the run lasts. */
  lemma {:induction false} FailureRun(n: nat, deadAfter: nat, k: nat)
    requires 0 < n && Lap(n, k).0 < U32_MAX
    ensures var (failures, cursor) := AfterFailures(n, deadAfter, k);
            && Level(failures, Lap(n, k).0, Lap(n, k).1)
            && cursor == Lap(n, k).1
            && Pick(failures, deadAfter, cursor) == cursor
    decreases k
  {
    if k > 0 {
      FailureRun(n, deadAfter, k - 1);
      LevelStep(AfterFailures(n, deadAfter, k - 1).0, deadAfter, Lap(n, k - 1).0, Lap(n, k - 1).1);
    }
    LevelPick(AfterFailures(n, deadAfter, k).0, deadAfter, Lap(n, k).0, Lap(n, k).1);
  }

  /**
   When every acquire is followed by a failure on its lease, the k-th acquire returns proxy
   k mod n and the counts never differ by more than one, through the switch from healthy
   proxies to the least-failed fallback and for every threshold, as long as k < n (2^32 - 1).
   */
  lemma FailuresStillRotate(n: nat, deadAfter: nat, k: nat)
    requires 0 < n && k < n * U32_MAX
    ensures var (failures, cursor) := AfterFailures(n, deadAfter, k);
            && Pick(failures, deadAfter, cursor) == k % n
            && forall i, j :: 0 <= i < n && 0 <= j < n ==> failures[i] <= failures[j] + 1
  {
    LapIsDivision(n, k);
    FailureRun(n, deadAfter, k);
  }

  /** The last failure of the last lap brings every counter to its maximum. */
  lemma Saturates(n: nat, deadAfter: nat)
    requires 0 < n
    ensures forall i :: 0 <= i < n ==> AfterFailures(n, deadAfter, n * U32_MAX).0[i] == U32_MAX
  {
    LastLap(n);
    FailureRun(n, deadAfter, n * U32_MAX - 1);
  }

  /** Once every count has saturated the pool stops rotating and hands out proxy 0 for ever. */
  lemma {:induction false} SaturatedPoolSticks(n: nat, deadAfter: nat, k: nat)
    requires 0 < n && deadAfter <= U32_MAX && k >= n * U32_MAX
    ensures var (failures, cursor) := AfterFailures(n, deadAfter, k);
            (forall i :: 0 <= i < n ==> failures[i] == U32_MAX) && Pick(failures, deadAfter, cursor) == 0
    decreases k
  {
    if k == n * U32_MAX {
      Saturates(n, deadAfter);
    } else {
      SaturatedPoolSticks(n, deadAfter, k - 1);
    }
    var (failures, cursor) := AfterFailures(n, deadAfter, k);
    AllDead(failures, deadAfter, cursor);
  }

  /** The last acquire before saturation is the last of its round. */
  lemma LastLap(n: nat)
    requires 0 < n
    ensures n * U32_MAX >= 1 && Lap(n, n * U32_MAX - 1) == (U32_MAX - 1, n - 1)
  {
    var k := n * U32_MAX;
    assert k >= U32_MAX;
    LapIsDivision(n, k - 1);
    LapIsDivision(n, k);
    var (q, r) := Lap(n, k - 1);
  }

  lemma AllDead(failures: seq<nat>, deadAfter: nat, cursor: nat)
    requires 0 < |failures| && deadAfter <= U32_MAX
    requires forall i :: 0 <= i < |failures| ==> failures[i] == U32_MAX
    ensures Pick(failures, deadAfter, cursor) == 0
  {
    var least := Least(failures, |failures|);
    assert failures[0] == failures[least];
  }

  /** So the bound is exact: rotation continues up to it, and past it only where k mod n is 0. */
  lemma RotationBoundIsExact(n: nat, deadAfter: nat, k: nat)
    requires 0 < n && deadAfter <= U32_MAX
    ensures var (failures, cursor) := AfterFailures(n, deadAfter, k);
            Pick(failures, deadAfter, cursor) == k % n <==> k < n * U32_MAX || k % n == 0
  {
    if k < n * U32_MAX {
      FailuresStillRotate(n, deadAfter, k);
    } else {
      SaturatedPoolSticks(n, deadAfter, k);
    }
  }
}
