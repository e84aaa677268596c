/** Replay protection of the bank connector: the in-memory nonce store and the timestamp window in
    front of it. Clock readings are seconds as reals, timestamps whole seconds. */
module ReplayGuard {
  import opened Common

  type Store = map<string, real>

  /** What is left after evicting everything expired by now. */
  function Kept(seen: Store, now: real): Store {
    map n | n in seen && seen[n] > now :: seen[n]
  }

  predicate IsFresh(seen: Store, nonce: string, now: real) {
    nonce !in Kept(seen, now)
  }

  function Checked(seen: Store, nonce: string, now: real, ttl: real): Store {
    if IsFresh(seen, nonce, now) then Kept(seen, now)[nonce := now + ttl] else Kept(seen, now)
  }

  class NonceReplayGuard {
    const ttl: real
    var seen: Store

    constructor (ttlSec: real)
      ensures ttl == ttlSec && seen == map[]
    {
      ttl := ttlSec;
      seen := map[];
    }

    /** True, and the nonce is recorded, exactly when no unexpired entry has it. Nothing expired is
        left behind. */
    method CheckAndStore(nonce: string, now: real) returns (isFresh: bool)
      modifies this`seen
      ensures isFresh <==> !(nonce in old(seen) && old(seen)[nonce] > now)
      ensures seen == Checked(old(seen), nonce, now, ttl)
      ensures ttl > 0.0 ==> forall n :: n in seen ==> seen[n] > now
      ensures nonce in seen
    {
      var expired := set n | n in seen && seen[n] <= now;
      while expired != {}
        invariant expired <= seen.Keys
        invariant forall n :: n in seen ==> n in old(seen) && seen[n] == old(seen)[n]
        invariant forall n :: n in old(seen) && n !in seen ==> old(seen)[n] <= now
        invariant forall n :: n in expired <==> n in seen && seen[n] <= now
        decreases |expired|
      {
        var n :| n in expired;
        seen := seen - {n};
        expired := expired - {n};
      }
      assert seen == Kept(old(seen), now);
      if nonce in seen {
        return false;
      }
      seen := seen[nonce := now + ttl];
      return true;
    }
  }

  // ---------------------------------------------------------------- require_bank_auth

  /** One request as the dependency sees it. timestamp is None when it is not an integer. */
  datatype Call = Call(
    secretSet: bool, headersPresent: bool, timestamp: Option<int>, nonce: string, now: real, signatureOk: bool)

  datatype Answer = Unconfigured | MissingHeaders | InvalidTimestamp | Stale | BadSignature | Replayed | Accepted

  predicate InWindow(now: real, timestamp: int, skew: nat) {
    -(skew as real) <= now - timestamp as real <= skew as real
  }

  /** The request gets as far as the nonce store. */
  predicate Authentic(call: Call, skew: nat) {
    && call.secretSet && call.headersPresent && call.timestamp.Some?
    && InWindow(call.now, call.timestamp.value, skew) && call.signatureOk
  }

  function TtlOf(skew: nat): real {
    2.0 * skew as real
  }

  function Authenticate(seen: Store, call: Call, skew: nat): Answer {
    if !call.secretSet then Unconfigured
    else if !call.headersPresent then MissingHeaders
    else if call.timestamp.None? then InvalidTimestamp
    else if !InWindow(call.now, call.timestamp.value, skew) then Stale
    else if !call.signatureOk then BadSignature
    else if !IsFresh(seen, call.nonce, call.now) then Replayed
    else Accepted
  }

  /** Only an authentic request touches the store. */
  function StoreAfter(seen: Store, call: Call, skew: nat): Store {
    if Authentic(call, skew) then Checked(seen, call.nonce, call.now, TtlOf(skew)) else seen
  }

  /** The checks in their order; the nonce is spent only by a request that passed all the others. The
      first four look at the request alone, so the guard counts as it is once the body has arrived. */
  method RequireBankAuth(guard: NonceReplayGuard, call: Call, skew: nat) returns (answer: Answer)
    requires guard.ttl == TtlOf(skew)
    modifies guard`seen
    ensures answer == Authenticate(old(guard.seen), call, skew)
    ensures guard.seen == StoreAfter(old(guard.seen), call, skew)
  {
    if !call.secretSet { return Unconfigured; }
    if !call.headersPresent { return MissingHeaders; }
    if call.timestamp.None? { return InvalidTimestamp; }
    var drift := call.now - call.timestamp.value as real;
    if (if drift < 0.0 then -drift else drift) > skew as real { return Stale; }
    if !call.signatureOk { return BadSignature; }
    var isFresh := guard.CheckAndStore(call.nonce, call.now);
    if !isFresh { return Replayed; }
    return Accepted;
  }

  // ---------------------------------------------------------------- runs

  /** The store before each request and after the last, in the order in which they reach it. Nothing is
      said of the clock readings, which each request took before it waited for its body. */
  ghost predicate IsRun(stores: seq<Store>, calls: seq<Call>, skew: nat) {
    && |stores| == |calls| + 1
    && stores[0] == map[]
    && forall i :: 0 <= i < |calls| ==> stores[i + 1] == StoreAfter(stores[i], calls[i], skew)
  }

  ghost predicate AcceptedAt(stores: seq<Store>, calls: seq<Call>, skew: nat, i: nat)
    requires |stores| == |calls| + 1
  {
    i < |calls| && Authenticate(stores[i], calls[i], skew).Accepted?
  }

  /** Request k is authentic and reads a clock at which the entry of request i has expired. */
  ghost predicate Expires(calls: seq<Call>, skew: nat, i: nat, k: nat)
    requires i < |calls| && k < |calls|
  {
    Authentic(calls[k], skew) && calls[k].now >= calls[i].now + TtlOf(skew)
  }

  /** Until such a request the entry of an accepted request is still there. */
  lemma {:induction false} EntryStays(stores: seq<Store>, calls: seq<Call>, skew: nat, i: nat, j: nat)
    requires IsRun(stores, calls, skew) && i < j < |stores| && AcceptedAt(stores, calls, skew, i)
    requires forall k :: i < k < j ==> !Expires(calls, skew, i, k)
    ensures calls[i].nonce in stores[j] && stores[j][calls[i].nonce] == calls[i].now + TtlOf(skew)
    decreases j
  {
    assert stores[j - 1 + 1] == StoreAfter(stores[j - 1], calls[j - 1], skew);
    if j > i + 1 {
      EntryStays(stores, calls, skew, i, j - 1);
      assert !Expires(calls, skew, i, j - 1);
    }
  }

  /** A nonce is accepted a second time only after some authentic request, possibly this one, read a
      clock at least two windows past the first acceptance; whatever order clocks are read in. */
  lemma SecondAcceptanceNeedsExpiry(stores: seq<Store>, calls: seq<Call>, skew: nat, i: nat, j: nat)
    requires IsRun(stores, calls, skew) && i < j
    requires AcceptedAt(stores, calls, skew, i) && AcceptedAt(stores, calls, skew, j)
    requires calls[i].nonce == calls[j].nonce
    ensures exists k :: i < k <= j && Expires(calls, skew, i, k)
  {
    if forall k :: i < k < j ==> !Expires(calls, skew, i, k) {
      EntryStays(stores, calls, skew, i, j);
      assert Expires(calls, skew, i, j);
    }
  }

  ghost predicate ClockNeverRunsBack(calls: seq<Call>) {
    forall i, j :: 0 <= i < j < |calls| ==> calls[i].now <= calls[j].now
  }

  /** A request reads the clock, then awaits its body, then reaches the store: at times that never run
      back, each within wait of its own reading. Readings themselves may come out of order. */
  ghost predicate BodiesWithin(calls: seq<Call>, reached: seq<real>, wait: real) {
    && |reached| == |calls|
    && (forall i :: 0 <= i < |calls| ==> calls[i].now <= reached[i] <= calls[i].now + wait)
    && (forall i, j :: 0 <= i < j < |calls| ==> reached[i] <= reached[j])
  }

  /** If no body takes longer than wait, the same (timestamp, nonce) is accepted twice only in the last
      wait seconds before the far edge: two windows after the first acceptance, less wait. */
  lemma ReplayOnlyNearTheEdge(stores: seq<Store>, calls: seq<Call>, reached: seq<real>, skew: nat, wait: real, i: nat, j: nat)
    requires IsRun(stores, calls, skew) && BodiesWithin(calls, reached, wait) && i < j
    requires AcceptedAt(stores, calls, skew, i) && AcceptedAt(stores, calls, skew, j)
    requires calls[i].nonce == calls[j].nonce && calls[i].timestamp == calls[j].timestamp
    ensures calls[i].now + TtlOf(skew) - wait <= calls[j].now <= calls[i].now + TtlOf(skew)
  {
    SecondAcceptanceNeedsExpiry(stores, calls, skew, i, j);
    var k :| i < k <= j && Expires(calls, skew, i, k);
    assert k < j ==> reached[k] <= reached[j];
  }

  /** With readings in the order of the store, as when no body is waited for, only the edge itself is
      left: exactly two windows later, for a timestamp that was one window ahead. Strictly inside the
      window nothing is accepted twice. */
  lemma ReplayOnlyAtTheEdge(stores: seq<Store>, calls: seq<Call>, skew: nat, i: nat, j: nat)
    requires IsRun(stores, calls, skew) && ClockNeverRunsBack(calls) && i < j
    requires AcceptedAt(stores, calls, skew, i) && AcceptedAt(stores, calls, skew, j)
    requires calls[i].nonce == calls[j].nonce && calls[i].timestamp == calls[j].timestamp
    ensures calls[j].now == calls[i].now + 2.0 * skew as real
    ensures calls[i].timestamp.value as real == calls[i].now + skew as real
  {
    var reached := seq(|calls|, k requires 0 <= k < |calls| => calls[k].now);
    ReplayOnlyNearTheEdge(stores, calls, reached, skew, 0.0, i, j);
  }

  /** And there it is: the edge does let a replay through. */
  lemma EdgeReplay(skew: nat, t: int, nonce: string) returns (stores: seq<Store>, calls: seq<Call>)
    ensures IsRun(stores, calls, skew) && ClockNeverRunsBack(calls) && |calls| == 2
    ensures calls[0].nonce == calls[1].nonce && calls[0].timestamp == calls[1].timestamp == Some(t + skew)
    ensures calls[0].now == t as real
    ensures AcceptedAt(stores, calls, skew, 0) && AcceptedAt(stores, calls, skew, 1)
  {
    var first := Call(true, true, Some(t + skew), nonce, t as real, true);
    var again := first.(now := (t + 2 * skew) as real);
    var s1 := StoreAfter(map[], first, skew);
    calls := [first, again];
    stores := [map[], s1, StoreAfter(s1, again, skew)];
  }

  /** Slow bodies reach that bound everywhere: for any two clock readings inside the window of a timestamp,
      the second at most wait before two windows after the first, some run accepts the same request at
      both, once another request evicted the entry while the second waited for its body. */
  lemma SlowBodyReplay(skew: nat, timestamp: int, first: real, again: real, wait: real, nonce: string, other: string)
    returns (stores: seq<Store>, calls: seq<Call>, reached: seq<real>)
    requires InWindow(first, timestamp, skew) && InWindow(again, timestamp, skew) && wait >= 0.0 && other != nonce
    requires again >= first + TtlOf(skew) - wait
    ensures IsRun(stores, calls, skew) && BodiesWithin(calls, reached, wait) && |calls| == 3
    ensures calls[0].nonce == calls[2].nonce == nonce && calls[0].timestamp == calls[2].timestamp == Some(timestamp)
    ensures calls[0].now == first && calls[2].now == again
    ensures AcceptedAt(stores, calls, skew, 0) && AcceptedAt(stores, calls, skew, 2)
  {
    var edge := first + TtlOf(skew);
    var near := if skew == 0 then timestamp else edge.Floor;
    var one := Call(true, true, Some(timestamp), nonce, first, true);
    var evicting := Call(true, true, Some(near), other, edge, true);
    var two := one.(now := again);
    var s1 := StoreAfter(map[], one, skew);
    var s2 := StoreAfter(s1, evicting, skew);
    calls := [one, evicting, two];
    reached := [first, edge, edge];
    stores := [map[], s1, s2, StoreAfter(s2, two, skew)];
    assert InWindow(edge, near, skew);
    assert nonce !in s2;
  }

  /** In no run whose bodies take at most wait is a request, first accepted when its timestamp is lead
      ahead of the clock, accepted again. */
  ghost predicate NeverReplayed(skew: nat, wait: real, lead: real) {
    forall stores: seq<Store>, calls: seq<Call>, reached: seq<real>, i: nat, j: nat ::
      IsRun(stores, calls, skew) && BodiesWithin(calls, reached, wait) && i < j
      && AcceptedAt(stores, calls, skew, i) && AcceptedAt(stores, calls, skew, j)
      && calls[i].nonce == calls[j].nonce && calls[i].timestamp == calls[j].timestamp
      ==> calls[i].timestamp.value as real - calls[i].now != lead
  }

  /** What decides it is known at the first acceptance: the request is safe from replay exactly when its
      timestamp was ahead of the clock by less than the skew, less what bodies may take. */
  lemma ReplayExactly(skew: nat, wait: real, lead: real)
    requires wait >= 0.0 && -(skew as real) <= lead <= skew as real
    ensures NeverReplayed(skew, wait, lead) <==> lead < skew as real - wait
  {
    if lead < skew as real - wait {
      forall stores: seq<Store>, calls: seq<Call>, reached: seq<real>, i: nat, j: nat |
        IsRun(stores, calls, skew) && BodiesWithin(calls, reached, wait) && i < j
        && AcceptedAt(stores, calls, skew, i) && AcceptedAt(stores, calls, skew, j)
        && calls[i].nonce == calls[j].nonce && calls[i].timestamp == calls[j].timestamp
        ensures calls[i].timestamp.value as real - calls[i].now != lead
      {
        ReplayOnlyNearTheEdge(stores, calls, reached, skew, wait, i, j);
      }
    } else {
      var first, again := 0.0 - lead, skew as real;
      var stores, calls, reached := SlowBodyReplay(skew, 0, first, again, wait, "a", "b");
      assert calls[0].timestamp.value as real - calls[0].now == lead;
    }
  }
}
