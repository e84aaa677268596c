/** Building runs: the parts of a request as lemmas from one reachable state to the next. */
module BankReach {
  import opened Common
  import opened BankModel

  ghost predicate EndsIn(c: Config, states: seq<State>, actions: seq<Action>, s: State) {
    IsRun(c, states, actions) && states[|actions|] == s
  }

  ghost predicate Reachable(c: Config, s: State) {
    exists states, actions :: EndsIn(c, states, actions, s)
  }

  lemma Start(c: Config, s: State)
    requires Init(s)
    ensures Reachable(c, s)
  {
    var states, actions: seq<Action> := [s], [];
    assert EndsIn(c, states, actions, s);
  }

  lemma Extend(c: Config, states: seq<State>, actions: seq<Action>, s: State, a: Action, s': State)
    requires EndsIn(c, states, actions, s) && Step(c, s, a, s')
    ensures EndsIn(c, states + [s'], actions + [a], s')
  {
    var states', actions' := states + [s'], actions + [a];
    forall i | 0 <= i < |actions'| ensures Step(c, states'[i], actions'[i], states'[i + 1]) {
      if i < |actions| {
        assert states'[i] == states[i] && states'[i + 1] == states[i + 1] && actions'[i] == actions[i];
      }
    }
  }

  lemma Then(c: Config, s: State, a: Action, s': State)
    requires Reachable(c, s) && Step(c, s, a, s')
    ensures Reachable(c, s')
  {
    var states, actions :| EndsIn(c, states, actions, s);
    Extend(c, states, actions, s, a, s');
  }

  /** From its arrival a request gets to where its first reads lead. */
  lemma Enter(c: Config, s: State, r: RequestId, kind: Kind) returns (s': State)
    requires Reachable(c, s) && r !in s.reqs
    ensures Reachable(c, s')
    ensures s' == Goto(s, r, Loaded(s.db, Request(kind, Subject(kind), 0, 0, 0, Begin)))
  {
    var q := Request(kind, Subject(kind), 0, 0, 0, Begin);
    var s1 := Goto(s, r, q);
    Then(c, s, Arrive(r, kind), s1);
    s' := Goto(s1, r, Loaded(s.db, q));
    Then(c, s1, Load(r), s');
    assert s'.reqs == s.reqs[r := Loaded(s.db, q)];
  }

  lemma TakeLock(c: Config, s: State, r: RequestId) returns (s': State)
    requires Reachable(c, s) && r in s.reqs && s.reqs[r].pc.Locking? && s.locks == map[]
    ensures Reachable(c, s')
    ensures s' == Take(s, r, Advisory(c.lockKey(s.reqs[r].user)), AfterLock(s.reqs[r].kind))
  {
    s' := Take(s, r, Advisory(c.lockKey(s.reqs[r].user)), AfterLock(s.reqs[r].kind));
    Then(c, s, Lock(r), s');
  }

  lemma ReadBoth(c: Config, s: State, r: RequestId, spent: nat) returns (s': State)
    requires Reachable(c, s) && r in s.reqs && s.reqs[r].pc.SumDeposits?
    requires var q := s.reqs[r];
             spent == if q.kind.Confirm? then Burned(s.db, q.user) + q.uzd else Outstanding(s.db, q.user)
    ensures Reachable(c, s') && s' == GotoPc(s, r, Capping(Deposited(s.db, s.reqs[r].user), spent))
  {
    var s1 := GotoPc(s, r, SumWithdrawals(Deposited(s.db, s.reqs[r].user)));
    Then(c, s, ReadDeposits(r), s1);
    s' := GotoPc(s1, r, Capping(Deposited(s.db, s.reqs[r].user), spent));
    Then(c, s1, ReadWithdrawals(r), s');
    assert s'.reqs == s.reqs[r := s'.reqs[r]];
  }

  /** The confirm of a pending row, up to its solvency guard. */
  lemma ConfirmUpToGuard(c: Config, s: State, r: RequestId, w: WithdrawalId, u: UserId, a: Address, uzd: nat) returns (s': State)
    requires Reachable(c, s) && r !in s.reqs && s.locks == map[]
    requires w in s.db.withdrawals && s.db.withdrawals[w] == Withdrawal(u, uzd, uzd * UNIT, Pending, None)
    requires u in s.db.wallets && s.db.wallets[u] == a
    ensures Reachable(c, s') && s'.db == s.db && s'.chain == s.chain && s'.signers == s.signers && s'.inserted == s.inserted
    ensures s'.locks.Keys == {Advisory(c.lockKey(u)), Row(w)} && r in s'.reqs
    ensures s'.reqs[r] == Request(Confirm(w), u, a, uzd, uzd * UNIT, Capping(Deposited(s.db, u), Burned(s.db, u) + uzd))
  {
    var s1 := Enter(c, s, r, Confirm(w));
    var s2 := TakeLock(c, s1, r);
    var s3 := Take(s2, r, Row(w), SumDeposits);
    Then(c, s2, ClaimRow(r), s3);
    s' := ReadBoth(c, s3, r, Burned(s.db, u) + uzd);
  }

  /** A send up to the signer's lock. */
  lemma ToSigner(c: Config, s: State, r: RequestId, leg: Leg) returns (s': State)
    requires Reachable(c, s) && r in s.reqs && s.reqs[r].pc == Sending(leg, Resolving)
    requires SignerKey(SignerFor(c, s.reqs[r])) !in s.locks
    ensures var g := SignerFor(c, s.reqs[r]);
            var stage := if SignerAt(s, g).counter.None? then NeedNonce else Sign(false);
            Reachable(c, s') && s' == Take(s, r, SignerKey(g), Sending(leg, stage))
  {
    var s1 := GotoPc(s, r, Sending(leg, Queued));
    Then(c, s, Resolve(r, true), s1);
    var g := SignerFor(c, s.reqs[r]);
    s' := Take(s1, r, SignerKey(g), Sending(leg, if SignerAt(s, g).counter.None? then NeedNonce else Sign(false)));
    Then(c, s1, TakeSigner(r), s');
    assert s'.reqs == s.reqs[r := s'.reqs[r]];
  }

  lemma FirstNonce(c: Config, s: State, r: RequestId, leg: Leg) returns (s': State)
    requires Reachable(c, s) && r in s.reqs && s.reqs[r].pc == Sending(leg, NeedNonce) && s.signers == map[]
    ensures Reachable(c, s')
    ensures s' == GotoPc(s, r, Sending(leg, Sign(false))).(signers := map[SignerFor(c, s.reqs[r]) := Signer(Some(0), 0, [], true)])
  {
    s' := GotoPc(s, r, Sending(leg, Sign(false))).(signers := map[SignerFor(c, s.reqs[r]) := Signer(Some(0), 0, [], true)]);
    Then(c, s, FetchNonce(r, true), s');
  }

  /** The state after the node took r's transaction as h. */
  function AfterTaken(c: Config, s: State, r: RequestId, h: Hash): State
    requires Signing(c, s, r)
  {
    var q := s.reqs[r];
    var g := SignerFor(c, q);
    var signer := SignerAt(s, g);
    var nonce := signer.counter.value;
    GotoPc(s, r, Waiting(q.pc.leg, h)).(
      locks := s.locks - {SignerKey(g)},
      chain := s.chain[h := Tx(r, g, nonce, EffectOf(q, q.pc.leg), Accepted, false)],
      signers := s.signers[g := Signer(Some(nonce + 1), signer.count, signer.log + [Sent(h, nonce, signer.resynced)], false)])
  }

  lemma Send(c: Config, s: State, r: RequestId, h: Hash) returns (s': State)
    requires Reachable(c, s) && Signing(c, s, r) && h !in s.chain
    requires SignerAt(s, SignerFor(c, s.reqs[r])).count == 0
    ensures Reachable(c, s') && s' == AfterTaken(c, s, r, h)
  {
    s' := AfterTaken(c, s, r, h);
    assert StepTaken(c, s, r, h, s');
    Then(c, s, Broadcast(r, Taken(h)), s');
  }
}
