/** No deadlock and no endless run: locks are taken in rank order, and every request is a bounded
    number of its own steps away from its end. */
module BankProgress {
  import opened Sums
  import opened Common
  import opened BankModel
  import opened BankInvariant
  import opened BankSafety
  import opened BankNonces

  // ---------------------------------------------------------------- rank order

  /** The lock a request is waiting for; such a request has no other step. */
  function Wants(c: Config, q: Request): Option<Resource>
    requires PcFits(q)
  {
    match q.pc
    case Locking => Some(Advisory(c.lockKey(q.user)))
    case Claiming => Some(Reservation(q.kind))
    case Reserving => Some(Reservation(q.kind))
    case Sending(_, Queued) => Some(SignerKey(SignerFor(c, q)))
    case _ => None
  }

  function Rank(x: Resource): nat {
    match x
    case Advisory(_) => 0
    case SignerKey(_) => 2
    case _ => 1
  }

  lemma WaitsInOrder(c: Config, q: Request, x: Resource)
    requires PcFits(q) && Wants(c, q).Some? && Holds(c, q, x)
    ensures Rank(x) < Rank(Wants(c, q).value)
  {
  }

  /** In every reachable state a request that waits for a lock holds, in the lock table, only locks of a
      lower rank: advisory, then row or unique key, then signer. */
  lemma RankOrder(c: Config, states: seq<State>, actions: seq<Action>, i: nat, x: Resource)
    requires IsRun(c, states, actions) && i < |states| && x in states[i].locks
    ensures var r := states[i].locks[x];
            && r in states[i].reqs && PcFits(states[i].reqs[r])
            && (Wants(c, states[i].reqs[r]).Some? ==> Rank(x) < Rank(Wants(c, states[i].reqs[r]).value))
  {
    var s := states[i];
    InvRun(c, states, actions, i);
    assert Holds(c, s.reqs[s.locks[x]], x) && ReqOk(c, s, s.locks[x]);
    if Wants(c, s.reqs[s.locks[x]]).Some? { WaitsInOrder(c, s.reqs[s.locks[x]], x); }
  }

  /** In every reachable state the holder of a signer lock waits for nothing: not for the database, not
      for another signer, not for a receipt. */
  lemma SignerNeverWaits(c: Config, states: seq<State>, actions: seq<Action>, i: nat, g: SignerId)
    requires IsRun(c, states, actions) && i < |states| && SignerKey(g) in states[i].locks
    ensures var r := states[i].locks[SignerKey(g)];
            && r in states[i].reqs && PcFits(states[i].reqs[r])
            && Wants(c, states[i].reqs[r]).None? && !states[i].reqs[r].pc.Waiting?
  {
    var s := states[i];
    InvRun(c, states, actions, i);
    assert Holds(c, s.reqs[s.locks[SignerKey(g)]], SignerKey(g)) && ReqOk(c, s, s.locks[SignerKey(g)]);
  }

  // ---------------------------------------------------------------- somebody can step

  predicate InFlight(s: State, r: RequestId) {
    r in s.reqs && !s.reqs[r].pc.Done?
  }

  /** The request whose own step an action is. */
  function Actor(a: Action): Option<RequestId> {
    match a
    case Arrive(_, _) => None
    case Mine(_, _) => None
    case GrowCount(_, _) => None
    case BindWallet(_, _) => None
    case InsertPending(_, _, _) => None
    case _ => Some(a.r)
  }

  ghost predicate CanStep(c: Config, s: State, r: RequestId) {
    exists a, s' :: Actor(a) == Some(r) && Step(c, s, a, s')
  }

  lemma Can(c: Config, s: State, r: RequestId, a: Action, s': State)
    requires Actor(a) == Some(r) && Step(c, s, a, s')
    ensures CanStep(c, s, r)
  {
  }

  lemma Fresh(used: set<nat>) returns (n: nat)
    ensures n !in used
  {
    n := Above(used);
  }

  lemma {:induction false} Above(used: set<nat>) returns (n: nat)
    ensures forall m :: m in used ==> m < n
    decreases |used|
  {
    if used == {} {
      n := 0;
    } else {
      var m :| m in used;
      var k := Above(used - {m});
      n := if k > m then k else m + 1;
      assert forall j :: j in used ==> j == m || j in used - {m};
    }
  }

  /** A request that waits for a lock which is free can take it. */
  lemma CanTake(c: Config, s: State, r: RequestId)
    requires InFlight(s, r) && ReqOk(c, s, r)
    requires Wants(c, s.reqs[r]).Some? && Wants(c, s.reqs[r]).value !in s.locks
    ensures CanStep(c, s, r)
  {
    var q := s.reqs[r];
    match q.pc
    case Locking =>
      Can(c, s, r, Lock(r), Take(s, r, Advisory(c.lockKey(q.user)), AfterLock(q.kind)));
    case Claiming =>
      var s' := if s.db.withdrawals[q.kind.wid].status.Pending?
                then Take(s, r, Row(q.kind.wid), if q.kind.Confirm? then SumDeposits else Rejecting)
                else End(s, r, s.db, Done);
      Can(c, s, r, ClaimRow(r), s');
    case Reserving =>
      var x := Reservation(q.kind);
      var s' := if Exists(s.db, x) then End(s, r, s.db, Done) else Take(s, r, x, Sending(Main, Resolving));
      Can(c, s, r, ReserveKey(r), s');
    case Sending(leg, _) =>
      var g := SignerFor(c, q);
      var stage := if SignerAt(s, g).counter.None? then NeedNonce else Sign(false);
      Can(c, s, r, TakeSigner(r), Take(s, r, SignerKey(g), Sending(leg, stage)));
  }

  lemma CanCheck(c: Config, s: State, r: RequestId)
    requires InFlight(s, r) && ReqOk(c, s, r)
    requires s.reqs[r].pc.Begin? || s.reqs[r].pc.Funding? || s.reqs[r].pc.SumDeposits? || s.reqs[r].pc.SumWithdrawals? || s.reqs[r].pc.Capping?
    ensures CanStep(c, s, r)
  {
    var q := s.reqs[r];
    match q.pc
    case Begin => Can(c, s, r, Load(r), Goto(s, r, Loaded(s.db, q)));
    case Funding => Can(c, s, r, ReadBalance(r, Some(0)), GotoPc(s, r, AfterBalance(c, Some(0))));
    case SumDeposits => Can(c, s, r, ReadDeposits(r), GotoPc(s, r, SumWithdrawals(Deposited(s.db, q.user))));
    case SumWithdrawals(d) =>
      var spent := if q.kind.Confirm? then Burned(s.db, q.user) + q.uzd else Outstanding(s.db, q.user);
      Can(c, s, r, ReadWithdrawals(r), GotoPc(s, r, Capping(d, spent)));
    case Capping(d, spent) =>
      var s' := if q.kind.File?
                then if q.uzd > d - spent then End(s, r, s.db, Done) else GotoPc(s, r, Filing)
                else if spent > d then End(s, r, s.db, Done) else GotoPc(s, r, Sending(Main, Resolving));
      Can(c, s, r, CheckCap(r), s');
  }

  lemma CanEnd(c: Config, s: State, r: RequestId)
    requires InFlight(s, r) && ReqOk(c, s, r)
    requires s.reqs[r].pc.Filing? || s.reqs[r].pc.Rejecting? || s.reqs[r].pc.Settling? || s.reqs[r].pc.Failing?
    ensures CanStep(c, s, r)
  {
    var q := s.reqs[r];
    match q.pc
    case Filing =>
      var wid := Fresh(s.db.withdrawals.Keys);
      Can(c, s, r, CommitFile(r, wid), End(s, r, WithFiled(s.db, wid, q.user, q.uzd, q.wei), Done));
    case Rejecting => Can(c, s, r, CommitReject(r), End(s, r, WithRejected(s.db, q.kind.wid), Done));
    case Settling(h, parked) =>
      var pc := if q.kind.Welcome? && !parked then Sending(Bonus, Resolving) else Done;
      Can(c, s, r, Settle(r), End(s, r, Committed(s.db, r, q, h, parked), pc));
    case Failing => Can(c, s, r, Rollback(r), End(s, r, s.db, Done));
  }

  lemma CanTimeOut(c: Config, s: State, r: RequestId)
    requires InFlight(s, r) && ReqOk(c, s, r) && s.reqs[r].pc.Waiting?
    ensures CanStep(c, s, r)
  {
    var leg, h := s.reqs[r].pc.leg, s.reqs[r].pc.hash;
    Can(c, s, r, Timeout(r), GotoPc(s, r, AfterTimeout(leg, h)).(chain := s.chain[h := s.chain[h].(abandoned := true)]));
  }

  /** Under the signer lock the request goes on without waiting: it loads the counter, or the node
      takes or refuses the nonce. */
  lemma CanSend(c: Config, s: State, r: RequestId)
    requires InFlight(s, r) && ReqOk(c, s, r) && StageOk(c, s, s.reqs[r])
    requires s.reqs[r].pc.Sending? && !s.reqs[r].pc.stage.Queued?
    ensures CanStep(c, s, r)
  {
    var q := s.reqs[r];
    var g := SignerFor(c, q);
    var signer := SignerAt(s, g);
    if q.pc.stage.Resolving? {
      Can(c, s, r, Resolve(r, true), GotoPc(s, r, Sending(q.pc.leg, Queued)));
    } else if q.pc.stage.Sign? {
      CanSign(c, s, r);
    } else {
      Can(c, s, r, FetchNonce(r, true), GotoPc(s, r, Sending(q.pc.leg, Sign(q.pc.stage.Resync?))).(
            signers := s.signers[g := signer.(counter := Some(signer.count), resynced := true)]));
    }
  }

  lemma CanSign(c: Config, s: State, r: RequestId)
    requires InFlight(s, r) && ReqOk(c, s, r) && StageOk(c, s, s.reqs[r])
    requires s.reqs[r].pc.Sending? && s.reqs[r].pc.stage.Sign?
    ensures CanStep(c, s, r)
  {
    var q := s.reqs[r];
    var g := SignerFor(c, q);
    var signer := SignerAt(s, g);
    assert Signing(c, s, r);
    var nonce := signer.counter.value;
    if signer.count <= nonce {
      var h := Fresh(s.chain.Keys);
      var s' := GotoPc(s, r, Waiting(q.pc.leg, h)).(
        locks := s.locks - {SignerKey(g)},
        chain := s.chain[h := Tx(r, g, nonce, EffectOf(q, q.pc.leg), Accepted, false)],
        signers := s.signers[g := Signer(Some(nonce + 1), signer.count, signer.log + [Sent(h, nonce, signer.resynced)], false)]);
      Can(c, s, r, Broadcast(r, Taken(h)), s');
    } else {
      var s' := if q.pc.stage.retried then FailSend(c, s, r) else GotoPc(s, r, Sending(q.pc.leg, Resync));
      Can(c, s, r, Broadcast(r, TooLow), s');
    }
  }

  lemma CanRun(c: Config, s: State, r: RequestId)
    requires InFlight(s, r) && ReqOk(c, s, r) && StageOk(c, s, s.reqs[r])
    requires Wants(c, s.reqs[r]).Some? ==> Wants(c, s.reqs[r]).value !in s.locks
    ensures CanStep(c, s, r)
  {
    var pc := s.reqs[r].pc;
    if Wants(c, s.reqs[r]).Some? {
      CanTake(c, s, r);
    } else if pc.Sending? {
      CanSend(c, s, r);
    } else if pc.Waiting? {
      CanTimeOut(c, s, r);
    } else if pc.Filing? || pc.Rejecting? || pc.Settling? || pc.Failing? {
      CanEnd(c, s, r);
    } else {
      CanCheck(c, s, r);
    }
  }

  /** Follow the waits from any request in flight: within three hops somebody can step. */
  lemma {:induction false} SomebodySteps(c: Config, s: State, r: RequestId) returns (o: RequestId)
    requires Inv(c, s) && NoncesOk(c, s) && InFlight(s, r)
    ensures InFlight(s, o) && CanStep(c, s, o)
    decreases 3 - (if Wants(c, s.reqs[r]).Some? then Rank(Wants(c, s.reqs[r]).value) else 3)
  {
    assert ReqOk(c, s, r) && StageOk(c, s, s.reqs[r]);
    var want := Wants(c, s.reqs[r]);
    if want.Some? && want.value in s.locks {
      var holder := s.locks[want.value];
      assert Holds(c, s.reqs[holder], want.value);
      assert ReqOk(c, s, holder);
      if Wants(c, s.reqs[holder]).Some? {
        WaitsInOrder(c, s.reqs[holder], want.value);
      }
      o := SomebodySteps(c, s, holder);
    } else {
      CanRun(c, s, r);
      o := r;
    }
  }

  /** No reachable state is deadlocked. */
  lemma NoDeadlock(c: Config, states: seq<State>, actions: seq<Action>, i: nat, r: RequestId)
    requires IsRun(c, states, actions) && i < |states| && InFlight(states[i], r)
    ensures exists o :: InFlight(states[i], o) && CanStep(c, states[i], o)
  {
    InvRun(c, states, actions, i);
    NoncesRun(c, states, actions, i);
    var o := SomebodySteps(c, states[i], r);
  }

  // ---------------------------------------------------------------- every request ends

  function StagesLeft(stage: Stage): nat {
    match stage
    case Resolving => 7
    case Queued => 6
    case NeedNonce => 5
    case Sign(retried) => if retried then 2 else 4
    case Resync => 3
  }

  function LegsLeft(leg: Leg): nat {
    match leg
    case Bonus => 0
    case Rate => 0
    case Main => 8
    case Gas => 16
  }

  /** An upper bound on the steps a request still makes. */
  function StepsLeft(pc: Pc): nat {
    match pc
    case Begin => 26
    case Locking => 25
    case Funding => 24
    case Claiming => 19
    case SumDeposits => 18
    case SumWithdrawals(_) => 17
    case Capping(_, _) => 16
    case Reserving => 16
    case Sending(leg, stage) => LegsLeft(leg) + StagesLeft(stage)
    case Waiting(leg, _) => LegsLeft(leg) + 1
    case Settling(_, _) => 8
    case Failing => 8
    case Filing => 1
    case Rejecting => 1
    case Done => 0
  }

  ghost predicate Moves(s: State, s': State, r: RequestId) {
    && r in s.reqs && r in s'.reqs && s'.reqs == s.reqs[r := s'.reqs[r]]
    && StepsLeft(s'.reqs[r].pc) < StepsLeft(s.reqs[r].pc)
  }

  lemma LockMoves(c: Config, s: State, a: Action, s': State)
    requires CheckStep(c, s, a, s') && (a.Lock? || a.ClaimRow? || a.ReserveKey?)
    ensures Moves(s, s', a.r)
  {
  }

  lemma SumMoves(c: Config, s: State, a: Action, s': State)
    requires CheckStep(c, s, a, s') && (a.ReadDeposits? || a.ReadWithdrawals? || a.CheckCap?)
    ensures Moves(s, s', a.r)
  {
  }

  lemma LoadMoves(c: Config, s: State, a: Action, s': State)
    requires CheckStep(c, s, a, s') && (a.Load? || a.ReadBalance?)
    ensures Moves(s, s', a.r)
  {
  }

  lemma QueueMoves(c: Config, s: State, a: Action, s': State)
    requires SendStep(c, s, a, s') && !a.Broadcast?
    ensures Moves(s, s', a.r)
  {
  }

  lemma BroadcastMoves(c: Config, s: State, a: Action, s': State)
    requires SendStep(c, s, a, s') && a.Broadcast?
    ensures Moves(s, s', a.r)
  {
  }

  lemma EndMoves(s: State, a: Action, s': State)
    requires EndStep(s, a, s')
    ensures Moves(s, s', a.r)
  {
  }

  /** Every step of a request brings that request closer to its end and moves no other. */
  lemma StepMoves(c: Config, s: State, a: Action, s': State)
    requires Step(c, s, a, s') && Actor(a).Some?
    ensures Moves(s, s', Actor(a).value)
  {
    if a.Lock? || a.ClaimRow? || a.ReserveKey? {
      LockMoves(c, s, a, s');
    } else if a.Load? || a.ReadBalance? {
      LoadMoves(c, s, a, s');
    } else if CheckStep(c, s, a, s') {
      SumMoves(c, s, a, s');
    } else if a.Broadcast? {
      BroadcastMoves(c, s, a, s');
    } else if SendStep(c, s, a, s') {
      QueueMoves(c, s, a, s');
    } else {
      EndMoves(s, a, s');
    }
  }

  ghost function Left(reqs: map<RequestId, Request>): map<RequestId, nat> {
    map r | r in reqs :: StepsLeft(reqs[r].pc)
  }

  /** Steps left over all requests. */
  ghost function Work(s: State): nat {
    Total(Left(s.reqs))
  }

  lemma WorkFalls(s: State, s': State, r: RequestId)
    requires Moves(s, s', r)
    ensures Work(s') < Work(s)
  {
    TotalRemove(Left(s.reqs), r);
    TotalRemove(Left(s'.reqs), r);
    LeftWithout(s, s', r);
  }

  lemma LeftWithout(s: State, s': State, r: RequestId)
    requires r in s.reqs && r in s'.reqs && s'.reqs == s.reqs[r := s'.reqs[r]]
    ensures Left(s.reqs) - {r} == Left(s'.reqs) - {r}
  {
  }

  /** States joined by steps, of requests or of the environment. */
  ghost predicate IsSegment(c: Config, states: seq<State>, actions: seq<Action>) {
    && |states| == |actions| + 1
    && forall i :: 0 <= i < |actions| ==> Step(c, states[i], actions[i], states[i + 1])
  }

  /** How many of the first i actions are steps of r; of any request; arrivals. */
  function StepsOf(actions: seq<Action>, i: nat, r: RequestId): nat
    requires i <= |actions|
  {
    if i == 0 then 0 else StepsOf(actions, i - 1, r) + if Actor(actions[i - 1]) == Some(r) then 1 else 0
  }

  function RequestSteps(actions: seq<Action>, i: nat): nat
    requires i <= |actions|
  {
    if i == 0 then 0 else RequestSteps(actions, i - 1) + if Actor(actions[i - 1]).Some? then 1 else 0
  }

  function Arrivals(actions: seq<Action>, i: nat): nat
    requires i <= |actions|
  {
    if i == 0 then 0 else Arrivals(actions, i - 1) + if actions[i - 1].Arrive? then 1 else 0
  }

  const MAX_STEPS: nat := StepsLeft(Begin)

  lemma EnvMoves(c: Config, s: State, a: Action, s': State)
    requires Step(c, s, a, s') && Actor(a).None?
    ensures a.Arrive? ==> a.r !in s.reqs && a.r in s'.reqs && s'.reqs == s.reqs[a.r := s'.reqs[a.r]] && s'.reqs[a.r].pc.Begin?
    ensures !a.Arrive? ==> s'.reqs == s.reqs
  {
  }

  /** What one step does to the steps r has left; MAX_STEPS are left before it arrives. */
  ghost predicate StepsFall(s: State, a: Action, s': State, r: RequestId) {
    Remaining(s', r) + (if Actor(a) == Some(r) then 1 else 0) <= Remaining(s, r)
  }

  function Remaining(s: State, r: RequestId): nat {
    if r in s.reqs then StepsLeft(s.reqs[r].pc) else MAX_STEPS
  }

  lemma StepFalls(c: Config, s: State, a: Action, s': State, r: RequestId)
    requires Step(c, s, a, s')
    ensures StepsFall(s, a, s', r)
  {
    if Actor(a).Some? {
      StepMoves(c, s, a, s');
    } else {
      EnvMoves(c, s, a, s');
    }
  }

  lemma {:induction false} RemainingAlong(states: seq<State>, actions: seq<Action>, i: nat, r: RequestId)
    requires |states| == |actions| + 1 && i < |states|
    requires forall k :: 0 <= k < |actions| ==> StepsFall(states[k], actions[k], states[k + 1], r)
    ensures StepsOf(actions, i, r) + Remaining(states[i], r) <= Remaining(states[0], r)
  {
    if i > 0 {
      RemainingAlong(states, actions, i - 1, r);
      assert StepsFall(states[i - 1], actions[i - 1], states[i - 1 + 1], r);
    }
  }

  /** In every run every request makes at most 26 steps of its own, whatever the others and the chain do
      in between. */
  lemma RequestIsBounded(c: Config, states: seq<State>, actions: seq<Action>, i: nat, r: RequestId)
    requires IsRun(c, states, actions) && i < |states|
    ensures StepsOf(actions, i, r) <= 26
    ensures r in states[i].reqs ==> StepsOf(actions, i, r) + StepsLeft(states[i].reqs[r].pc) <= 26
  {
    forall k | 0 <= k < |actions| ensures StepsFall(states[k], actions[k], states[k + 1], r) {
      StepFalls(c, states[k], actions[k], states[k + 1], r);
    }
    RemainingAlong(states, actions, i, r);
  }

  /** What one step does to the work of all requests. */
  ghost predicate WorkMoves(s: State, a: Action, s': State) {
    Work(s') + (if Actor(a).Some? then 1 else 0) <= Work(s) + (if a.Arrive? then MAX_STEPS else 0)
  }

  lemma StepWork(c: Config, s: State, a: Action, s': State)
    requires Step(c, s, a, s')
    ensures WorkMoves(s, a, s')
  {
    if Actor(a).Some? {
      StepMoves(c, s, a, s');
      WorkFalls(s, s', Actor(a).value);
    } else {
      EnvMoves(c, s, a, s');
      if a.Arrive? {
        assert Left(s'.reqs) == Left(s.reqs)[a.r := MAX_STEPS];
        TotalInsert(Left(s.reqs), a.r, MAX_STEPS);
      }
    }
  }

  lemma {:induction false} WorkAlong(states: seq<State>, actions: seq<Action>, i: nat)
    requires |states| == |actions| + 1 && i < |states|
    requires forall k :: 0 <= k < |actions| ==> WorkMoves(states[k], actions[k], states[k + 1])
    ensures RequestSteps(actions, i) + Work(states[i]) <= Work(states[0]) + MAX_STEPS * Arrivals(actions, i)
  {
    if i > 0 {
      WorkAlong(states, actions, i - 1);
      assert WorkMoves(states[i - 1], actions[i - 1], states[i - 1 + 1]);
    }
  }

  /** Whatever the scheduler and the chain do from any state on, the requests make at most the steps
      that those in flight have left and 26 for each that arrives: between them they always drain. */
  lemma DrainIsBounded(c: Config, states: seq<State>, actions: seq<Action>)
    requires IsSegment(c, states, actions)
    ensures RequestSteps(actions, |actions|) + Work(states[|actions|]) <= Work(states[0]) + 26 * Arrivals(actions, |actions|)
  {
    forall k | 0 <= k < |actions| ensures WorkMoves(states[k], actions[k], states[k + 1]) {
      StepWork(c, states[k], actions[k], states[k + 1]);
    }
    WorkAlong(states, actions, |actions|);
  }

  /** States joined by steps of requests only. */
  ghost predicate IsDrain(c: Config, states: seq<State>, actions: seq<Action>) {
    IsSegment(c, states, actions) && forall i :: 0 <= i < |actions| ==> Actor(actions[i]).Some?
  }

  lemma DrainOnce(c: Config, s: State, r: RequestId) returns (a: Action, s': State)
    requires Inv(c, s) && NoncesOk(c, s) && InFlight(s, r)
    ensures Actor(a).Some? && Step(c, s, a, s') && Inv(c, s') && NoncesOk(c, s') && Work(s') < Work(s)
  {
    var o := SomebodySteps(c, s, r);
    a, s' :| Actor(a) == Some(o) && Step(c, s, a, s');
    InvStep(c, s, a, s');
    NoncesStep(c, s, a, s');
    StepMoves(c, s, a, s');
    WorkFalls(s, s', o);
  }

  /** And from every reachable state they can all be brought to their end. */
  lemma {:induction false} Drain(c: Config, s: State) returns (states: seq<State>, actions: seq<Action>)
    requires Inv(c, s) && NoncesOk(c, s)
    ensures IsDrain(c, states, actions) && states[0] == s
    ensures forall r :: !InFlight(states[|actions|], r)
    decreases Work(s)
  {
    if r :| InFlight(s, r) {
      var a, s' := DrainOnce(c, s, r);
      var states', actions' := Drain(c, s');
      states, actions := [s] + states', [a] + actions';
      Prepend(c, s, a, states', actions');
    } else {
      states, actions := [s], [];
    }
  }

  lemma Prepend(c: Config, s: State, a: Action, states: seq<State>, actions: seq<Action>)
    requires IsDrain(c, states, actions) && Actor(a).Some? && Step(c, s, a, states[0])
    ensures IsDrain(c, [s] + states, [a] + actions)
  {
    var all, steps := [s] + states, [a] + actions;
    forall i | 0 <= i < |steps| ensures Actor(steps[i]).Some? && Step(c, all[i], steps[i], all[i + 1]) {
      if i > 0 { assert steps[i] == actions[i - 1] && all[i] == states[i - 1] && all[i + 1] == states[i]; }
    }
  }

  /** From every reachable state some schedule finishes every request in flight. */
  lemma AllRequestsCanFinish(c: Config, states: seq<State>, actions: seq<Action>, i: nat)
    requires IsRun(c, states, actions) && i < |states|
    ensures exists more, steps ::
              IsDrain(c, more, steps) && more[0] == states[i] && forall r :: !InFlight(more[|steps|], r)
  {
    InvRun(c, states, actions, i);
    NoncesRun(c, states, actions, i);
    var more, steps := Drain(c, states[i]);
  }
}
