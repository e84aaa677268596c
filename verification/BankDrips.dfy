/** The gas drip of the welcome claim: what its balance read had seen when the drip went out. */
module BankDrips {
  import opened Common
  import opened BankModel
  import opened BankInvariant
  import opened BankLocks
  import opened BankSafety
  import opened BankOnce
  import opened BankProgress

  ghost predicate IsDrip(chain: map<Hash, Tx>, h: Hash, u: UserId) {
    h in chain && chain[h].effect.Drip? && chain[h].effect.user == u
  }

  /** r is sending a drip to u. */
  predicate Dripping(s: State, r: RequestId, u: UserId) {
    r in s.reqs && s.reqs[r].user == u && s.reqs[r].pc.Sending? && s.reqs[r].pc.leg.Gas?
  }

  /** r is about to read the balance of u. */
  predicate Reading(s: State, r: RequestId, u: UserId) {
    r in s.reqs && s.reqs[r].user == u && s.reqs[r].pc.Funding?
  }

  predicate IsLowRead(c: Config, a: Action, r: RequestId) {
    a.ReadBalance? && a.r == r && a.reading.Some? && a.reading.value < c.dripThreshold
  }

  // ---------------------------------------------------------------- where a drip comes from

  /** A request that sends a drip did so before, or has just read a low balance. */
  ghost predicate DripCame(c: Config, s: State, a: Action, s': State, r: RequestId, u: UserId) {
    Dripping(s', r, u) ==> Dripping(s, r, u) || (Reading(s, r, u) && IsLowRead(c, a, r))
  }

  lemma CheckDripCame(c: Config, s: State, a: Action, s': State, u: UserId)
    requires CheckStep(c, s, a, s') && !a.Lock? && !a.ClaimRow? && !a.ReserveKey?
    ensures DripCame(c, s, a, s', a.r, u)
  {
  }

  lemma LockDripCame(c: Config, s: State, a: Action, s': State, u: UserId)
    requires CheckStep(c, s, a, s') && (a.Lock? || a.ClaimRow? || a.ReserveKey?)
    ensures DripCame(c, s, a, s', a.r, u)
  {
  }

  lemma SendDripCame(c: Config, s: State, a: Action, s': State, u: UserId)
    requires SendStep(c, s, a, s')
    ensures DripCame(c, s, a, s', a.r, u)
  {
  }

  lemma EndDripCame(c: Config, s: State, a: Action, s': State, u: UserId)
    requires EndStep(s, a, s')
    ensures DripCame(c, s, a, s', a.r, u)
  {
  }

  lemma OwnDripCame(c: Config, s: State, a: Action, s': State, u: UserId)
    requires Step(c, s, a, s') && Actor(a).Some?
    ensures DripCame(c, s, a, s', Actor(a).value, u)
  {
    if a.Lock? || a.ClaimRow? || a.ReserveKey? {
      LockDripCame(c, s, a, s', u);
    } else if CheckStep(c, s, a, s') {
      CheckDripCame(c, s, a, s', u);
    } else if SendStep(c, s, a, s') {
      SendDripCame(c, s, a, s', u);
    } else {
      EndDripCame(c, s, a, s', u);
    }
  }

  lemma StepDripCame(c: Config, s: State, a: Action, s': State, r: RequestId, u: UserId)
    requires Step(c, s, a, s')
    ensures DripCame(c, s, a, s', r, u)
  {
    if Actor(a) == Some(r) {
      OwnDripCame(c, s, a, s', u);
    } else if Actor(a).Some? {
      StepMoves(c, s, a, s');
    }
  }

  lemma {:induction false} DripCameAlong(c: Config, states: seq<State>, actions: seq<Action>, i: nat, r: RequestId, u: UserId)
    returns (k: nat)
    requires |states| == |actions| + 1 && i < |states| && states[0].reqs == map[] && Dripping(states[i], r, u)
    requires forall k :: 0 <= k < |actions| ==> DripCame(c, states[k], actions[k], states[k + 1], r, u)
    ensures k < i && Reading(states[k], r, u) && IsLowRead(c, actions[k], r)
    ensures forall m :: k < m <= i ==> Dripping(states[m], r, u)
  {
    assert DripCame(c, states[i - 1], actions[i - 1], states[i - 1 + 1], r, u);
    if Dripping(states[i - 1], r, u) {
      k := DripCameAlong(c, states, actions, i - 1, r, u);
    } else {
      k := i - 1;
    }
  }

  lemma DripCameRun(c: Config, states: seq<State>, actions: seq<Action>, i: nat, r: RequestId, u: UserId) returns (k: nat)
    requires IsRun(c, states, actions) && i < |states| && Dripping(states[i], r, u)
    ensures k < i && Reading(states[k], r, u) && IsLowRead(c, actions[k], r)
    ensures forall m :: k < m <= i ==> Dripping(states[m], r, u)
  {
    forall k | 0 <= k < |actions| ensures DripCame(c, states[k], actions[k], states[k + 1], r, u) {
      StepDripCame(c, states[k], actions[k], states[k + 1], r, u);
    }
    k := DripCameAlong(c, states, actions, i, r, u);
  }

  // ---------------------------------------------------------------- what the read had seen

  lemma UnderLock(c: Config, s: State, r: RequestId, u: UserId)
    requires LocksOk(c, s) && ReqsOk(c, s) && (Dripping(s, r, u) || Reading(s, r, u))
    ensures HasAdvisory(s.reqs[r])
    ensures Advisory(c.lockKey(u)) in s.locks && s.locks[Advisory(c.lockKey(u))] == r
  {
    assert ReqOk(c, s, r);
    assert Holds(c, s.reqs[r], Advisory(c.lockKey(u)));
  }

  lemma TakenDrip(c: Config, s: State, r: RequestId, h: Hash, s': State, u: UserId)
    requires StepTaken(c, s, r, h, s') && ReqOk(c, s, r) && IsDrip(s'.chain, h, u)
    ensures Dripping(s, r, u) && !Dripping(s', r, u)
  {
  }

  /** While r reads the balance and gets ready to send, nobody else's drip to u goes out. */
  lemma NoOtherDrip(c: Config, s: State, a: Action, s': State, r: RequestId, u: UserId, h: Hash)
    requires LocksOk(c, s) && ReqsOk(c, s) && Step(c, s, a, s')
    requires (Reading(s, r, u) || Dripping(s, r, u)) && Dripping(s', r, u) && IsDrip(s'.chain, h, u)
    ensures IsDrip(s.chain, h, u)
  {
    NewTxIsTaken(c, s, a, s', h);
    if h !in s.chain {
      assert ReqOk(c, s, a.r);
      TakenDrip(c, s, a.r, h, s', u);
      UnderLock(c, s, r, u);
      UnderLock(c, s, a.r, u);
    }
  }

  lemma {:induction false} NoDripAlong(states: seq<State>, k: nat, i: nat, u: UserId, h: Hash)
    requires k <= i < |states| && IsDrip(states[i].chain, h, u)
    requires forall m :: k <= m < i && IsDrip(states[m + 1].chain, h, u) ==> IsDrip(states[m].chain, h, u)
    ensures IsDrip(states[k].chain, h, u)
    decreases i
  {
    if k < i {
      assert IsDrip(states[i - 1 + 1].chain, h, u);
      NoDripAlong(states, k, i - 1, u, h);
    }
  }

  lemma NoDripAt(c: Config, states: seq<State>, actions: seq<Action>, m: nat, r: RequestId, u: UserId, h: Hash)
    requires IsRun(c, states, actions) && m < |actions|
    requires (Reading(states[m], r, u) || Dripping(states[m], r, u)) && Dripping(states[m + 1], r, u)
    requires IsDrip(states[m + 1].chain, h, u)
    ensures IsDrip(states[m].chain, h, u)
  {
    InvRun(c, states, actions, m);
    NoOtherDrip(c, states[m], actions[m], states[m + 1], r, u, h);
  }

  lemma NoDripSince(c: Config, states: seq<State>, actions: seq<Action>, k: nat, i: nat, r: RequestId, u: UserId, h: Hash)
    requires IsRun(c, states, actions) && k < i < |states| && Reading(states[k], r, u)
    requires forall m :: k < m <= i ==> Dripping(states[m], r, u)
    requires IsDrip(states[i].chain, h, u)
    ensures IsDrip(states[k].chain, h, u)
  {
    forall m | k <= m < i && IsDrip(states[m + 1].chain, h, u) ensures IsDrip(states[m].chain, h, u) {
      NoDripAt(c, states, actions, m, r, u, h);
    }
    NoDripAlong(states, k, i, u, h);
  }

  /** At the read, a drip that may still mine is one whose sender gave up on it. */
  lemma ReadSeesAll(c: Config, s: State, r: RequestId, u: UserId, h: Hash)
    requires Inv(c, s) && Reading(s, r, u) && IsDrip(s.chain, h, u) && s.chain[h].status.Accepted?
    ensures s.chain[h].abandoned
  {
    assert ReqOk(c, s, r);
    assert TxOk(s, h);
    if !s.chain[h].abandoned {
      ExclusiveUser(c, s, r, s.chain[h].origin);
    }
  }

  // ---------------------------------------------------------------- the gate

  /** The user's advisory lock belongs to r from state k to state i. */
  ghost predicate LockedThrough(c: Config, states: seq<State>, k: nat, i: nat, r: RequestId, u: UserId)
    requires k <= i < |states|
  {
    forall m :: k <= m <= i ==> Advisory(c.lockKey(u)) in states[m].locks && states[m].locks[Advisory(c.lockKey(u))] == r
  }

  lemma LockIsKept(c: Config, states: seq<State>, actions: seq<Action>, k: nat, i: nat, r: RequestId, u: UserId)
    requires IsRun(c, states, actions) && k < i < |states| && Reading(states[k], r, u)
    requires forall m :: k < m <= i ==> Dripping(states[m], r, u)
    ensures LockedThrough(c, states, k, i, r, u)
  {
    forall m | k <= m <= i
      ensures Advisory(c.lockKey(u)) in states[m].locks && states[m].locks[Advisory(c.lockKey(u))] == r
    {
      InvRun(c, states, actions, m);
      UnderLock(c, states[m], r, u);
    }
  }

  lemma TakenIsDripping(c: Config, states: seq<State>, actions: seq<Action>, i: nat, r: RequestId, h: Hash, u: UserId)
    requires IsRun(c, states, actions) && i < |actions| && actions[i] == Broadcast(r, Taken(h)) && IsDrip(states[i + 1].chain, h, u)
    ensures Dripping(states[i], r, u)
  {
    InvRun(c, states, actions, i);
    assert Step(c, states[i], actions[i], states[i + 1]);
    assert ReqOk(c, states[i], r);
    TakenDrip(c, states[i], r, h, states[i + 1], u);
  }

  /** Before every drip its request read a balance below the threshold, at some step k, and has held
      the user's lock from then on. Every drip of the user on chain at the broadcast was on chain at
      that read, and had then settled, so that the balance counted it, or had been given up on. */
  lemma DripIsGated(c: Config, states: seq<State>, actions: seq<Action>, i: nat, r: RequestId, h: Hash, u: UserId)
    returns (k: nat, balance: nat)
    requires IsRun(c, states, actions) && i < |actions| && actions[i] == Broadcast(r, Taken(h)) && IsDrip(states[i + 1].chain, h, u)
    ensures k < i && actions[k] == ReadBalance(r, Some(balance)) && balance < c.dripThreshold
    ensures LockedThrough(c, states, k, i, r, u)
    ensures forall j :: IsDrip(states[i].chain, j, u) ==>
              IsDrip(states[k].chain, j, u) && (states[k].chain[j].status.Accepted? ==> states[k].chain[j].abandoned)
  {
    TakenIsDripping(c, states, actions, i, r, h, u);
    k := DripCameRun(c, states, actions, i, r, u);
    balance := actions[k].reading.value;
    LockIsKept(c, states, actions, k, i, r, u);
    InvRun(c, states, actions, k);
    forall j | IsDrip(states[i].chain, j, u)
      ensures IsDrip(states[k].chain, j, u) && (states[k].chain[j].status.Accepted? ==> states[k].chain[j].abandoned)
    {
      NoDripSince(c, states, actions, k, i, r, u, j);
      if states[k].chain[j].status.Accepted? { ReadSeesAll(c, states[k], r, u, j); }
    }
  }

  /** When a drip goes out, another drip of the user can still mine exactly when one that was given up
      on can. So as long as no drip times out, none ever goes out on top of another. */
  lemma DripsOverlapExactly(c: Config, states: seq<State>, actions: seq<Action>, i: nat, r: RequestId, h: Hash, u: UserId)
    requires IsRun(c, states, actions) && i < |actions| && actions[i] == Broadcast(r, Taken(h)) && IsDrip(states[i + 1].chain, h, u)
    ensures (exists j :: IsDrip(states[i].chain, j, u) && states[i].chain[j].status.Accepted?)
       <==> (exists j :: IsDrip(states[i].chain, j, u) && states[i].chain[j].status.Accepted? && states[i].chain[j].abandoned)
  {
    if j :| IsDrip(states[i].chain, j, u) && states[i].chain[j].status.Accepted? {
      var k, _ := DripIsGated(c, states, actions, i, r, h, u);
      assert IsDrip(states[k].chain, j, u);
      GrowsRun(c, states, actions, k, i);
      assert states[i].chain[j].abandoned;
    }
  }
}
