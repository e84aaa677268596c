/** Every step keeps the invariant: the steps that change committed rows. */
module BankCommits {
  import opened Common
  import opened BankModel
  import opened BankInvariant
  import opened BankLocks
  import opened BankSums
  import opened BankRely

  // ---------------------------------------------------------------- file

  /** A pending row more, of whatever user: nothing settled changes. */
  lemma FiledGrows(s: State, wid: WithdrawalId, u: UserId, uzd: nat, wei: nat)
    requires wid !in s.db.withdrawals
    ensures DbGrows(s.db, WithFiled(s.db, wid, u, uzd, wei))
  {
  }

  lemma FiledDb(s: State, s': State, wid: WithdrawalId, u: UserId, uzd: nat)
    requires DbOk(s) && wid !in s.db.withdrawals && s'.chain == s.chain
    requires s'.db == WithFiled(s.db, wid, u, uzd, uzd * UNIT)
    ensures DbOk(s')
  {
    forall w | w in s'.db.withdrawals ensures WithdrawalOk(s', w) {
      if w != wid { assert WithdrawalOk(s, w); }
    }
    forall k | k in s'.db.deposits ensures DepositOk(s', k) { assert DepositOk(s, k); }
    forall ref | ref in s'.db.attestations ensures AttestationOk(s', ref) { assert AttestationOk(s, ref); }
    forall v | v in s'.db.claims ensures ClaimOk(s', v) { assert ClaimOk(s, v); }
  }

  /** The others do not notice a row filed under its user's lock, or one that bypassed the cap. */
  lemma FiledRely(c: Config, s: State, s': State, wid: WithdrawalId, u: UserId, uzd: nat, wei: nat, q: Request)
    requires wid !in s.db.withdrawals && s'.db == WithFiled(s.db, wid, u, uzd, wei) && s'.chain == s.chain
    requires Inserted(s, q.user) <= Inserted(s', q.user)
    requires HasAdvisory(q) && q.user == u ==> Inserted(s, u) + uzd <= Inserted(s', u)
    ensures Rely(s, s', q)
  {
    FiledSums(s.db, wid, u, uzd, wei, q.user);
    FiledGrows(s, wid, u, uzd, wei);
  }

  lemma FiledSolvent(s: State, s': State, wid: WithdrawalId, u: UserId, uzd: nat, wei: nat)
    requires Solvent(s) && wid !in s.db.withdrawals && s'.db == WithFiled(s.db, wid, u, uzd, wei)
    requires forall v :: Inserted(s, v) <= Inserted(s', v)
    requires Outstanding(s.db, u) + uzd <= Deposited(s.db, u) + Inserted(s', u)
    ensures Solvent(s')
  {
    forall v
      ensures Burned(s'.db, v) <= Deposited(s'.db, v)
      ensures Outstanding(s'.db, v) <= Deposited(s'.db, v) + Inserted(s', v)
    {
      FiledSums(s.db, wid, u, uzd, wei, v);
    }
  }

  lemma FileChain(s: State, r: RequestId, wid: WithdrawalId, s': State)
    requires ChainOk(s) && DbOk(s) && StepCommitFile(s, r, wid, s')
    ensures ChainOk(s')
  {
    FiledGrows(s, wid, s.reqs[r].user, s.reqs[r].uzd, s.reqs[r].wei);
    forall h | h in s'.chain && s.chain[h].origin == r ensures TxOk(s', h) {
      assert TxOk(s, h);
      TxIdle(s, s', r, h);
    }
    ChainMoves(s, s', r);
  }

  lemma FileReqs(c: Config, s: State, r: RequestId, wid: WithdrawalId, s': State)
    requires LocksOk(c, s) && ReqsOk(c, s) && StepCommitFile(s, r, wid, s')
    ensures LocksOk(c, s') && ReqsOk(c, s')
  {
    assert ReqOk(c, s, r);
    LocksEnd(c, s, s', r);
    forall o | o in s.reqs && o != r ensures Rely(s, s', s.reqs[o]) {
      if HasAdvisory(s.reqs[o]) && s.reqs[o].user == s.reqs[r].user { ExclusiveUser(c, s, r, o); }
      FiledRely(c, s, s', wid, s.reqs[r].user, s.reqs[r].uzd, s.reqs[r].wei, s.reqs[o]);
    }
    ReqsStable(c, s, s', r);
  }

  lemma KeepCommitFile(c: Config, s: State, r: RequestId, wid: WithdrawalId, s': State)
    requires Inv(c, s) && StepCommitFile(s, r, wid, s')
    ensures Inv(c, s')
  {
    assert ReqOk(c, s, r);
    var q := s.reqs[r];
    FileReqs(c, s, r, wid, s');
    FileChain(s, r, wid, s');
    FiledDb(s, s', wid, q.user, q.uzd);
    FiledSolvent(s, s', wid, q.user, q.uzd, q.wei);
  }

  lemma InsertReqs(c: Config, s: State, wid: WithdrawalId, u: UserId, uzd: nat, s': State)
    requires LocksOk(c, s) && ReqsOk(c, s) && StepInsertPending(s, wid, u, uzd, s')
    ensures LocksOk(c, s') && ReqsOk(c, s')
  {
    LocksEnv(c, s, s');
    forall o | o in s.reqs ensures Rely(s, s', s.reqs[o]) {
      FiledRely(c, s, s', wid, u, uzd, uzd * UNIT, s.reqs[o]);
    }
    ReqsEnv(c, s, s');
  }

  lemma KeepInsertPending(c: Config, s: State, wid: WithdrawalId, u: UserId, uzd: nat, s': State)
    requires Inv(c, s) && StepInsertPending(s, wid, u, uzd, s')
    ensures Inv(c, s')
  {
    InsertReqs(c, s, wid, u, uzd, s');
    FiledGrows(s, wid, u, uzd, uzd * UNIT);
    ChainEnv(s, s');
    FiledDb(s, s', wid, u, uzd);
    FiledSolvent(s, s', wid, u, uzd, uzd * UNIT);
  }

  // ---------------------------------------------------------------- reject

  lemma RejectedGrows(s: State, wid: WithdrawalId)
    requires wid in s.db.withdrawals && s.db.withdrawals[wid].status.Pending?
    ensures DbGrows(s.db, WithRejected(s.db, wid))
  {
  }

  lemma RejectRely(c: Config, s: State, r: RequestId, s': State, o: RequestId)
    requires LocksOk(c, s) && StepCommitReject(s, r, s') && ReqOk(c, s, r) && o in s.reqs && o != r
    ensures Rely(s, s', s.reqs[o])
  {
    var q, wid := s.reqs[o], s.reqs[r].kind.wid;
    RejectedGrows(s, wid);
    RejectedSums(s.db, wid, q.user);
    if HasReservation(q) && Reservation(q.kind) == Row(wid) { ExclusiveKey(c, s, r, o); }
  }

  lemma RejectDb(s: State, s': State, wid: WithdrawalId)
    requires DbOk(s) && wid in s.db.withdrawals && s.db.withdrawals[wid].status.Pending?
    requires s'.chain == s.chain && s'.db == WithRejected(s.db, wid)
    ensures DbOk(s')
  {
    forall w | w in s'.db.withdrawals ensures WithdrawalOk(s', w) { assert WithdrawalOk(s, w); }
    forall k | k in s'.db.deposits ensures DepositOk(s', k) { assert DepositOk(s, k); }
    forall ref | ref in s'.db.attestations ensures AttestationOk(s', ref) { assert AttestationOk(s, ref); }
    forall v | v in s'.db.claims ensures ClaimOk(s', v) { assert ClaimOk(s, v); }
  }

  lemma RejectSolvent(s: State, s': State, wid: WithdrawalId)
    requires Solvent(s) && wid in s.db.withdrawals && s.db.withdrawals[wid].status.Pending?
    requires s'.inserted == s.inserted && s'.db == WithRejected(s.db, wid)
    ensures Solvent(s')
  {
    forall v
      ensures Burned(s'.db, v) <= Deposited(s'.db, v)
      ensures Outstanding(s'.db, v) <= Deposited(s'.db, v) + Inserted(s', v)
    {
      RejectedSums(s.db, wid, v);
    }
  }

  lemma RejectReqs(c: Config, s: State, r: RequestId, s': State)
    requires LocksOk(c, s) && ReqsOk(c, s) && StepCommitReject(s, r, s')
    ensures LocksOk(c, s') && ReqsOk(c, s')
  {
    assert ReqOk(c, s, r);
    LocksEnd(c, s, s', r);
    forall o | o in s.reqs && o != r ensures Rely(s, s', s.reqs[o]) { RejectRely(c, s, r, s', o); }
    ReqsStable(c, s, s', r);
  }

  lemma RejectChain(s: State, r: RequestId, s': State)
    requires ChainOk(s) && DbOk(s) && StepCommitReject(s, r, s')
    requires s.db.withdrawals[s.reqs[r].kind.wid].status.Pending?
    ensures ChainOk(s')
  {
    RejectedGrows(s, s.reqs[r].kind.wid);
    forall h | h in s'.chain && s.chain[h].origin == r ensures TxOk(s', h) {
      assert TxOk(s, h);
      TxIdle(s, s', r, h);
    }
    ChainMoves(s, s', r);
  }

  lemma KeepCommitReject(c: Config, s: State, r: RequestId, s': State)
    requires Inv(c, s) && StepCommitReject(s, r, s')
    ensures Inv(c, s')
  {
    assert ReqOk(c, s, r);
    RejectReqs(c, s, r, s');
    RejectChain(s, r, s');
    RejectDb(s, s', s.reqs[r].kind.wid);
    RejectSolvent(s, s', s.reqs[r].kind.wid);
  }

  // ---------------------------------------------------------------- settle

  /** What a settling request knows. */
  predicate Ready(s: State, r: RequestId) {
    && r in s.reqs && s.reqs[r].pc.Settling? && Sends(s.reqs[r].kind)
    && Unsettled(s.db, Reservation(s.reqs[r].kind))
  }

  lemma SettleGrows(s: State, r: RequestId, s': State)
    requires StepSettle(s, r, s') && Ready(s, r)
    ensures DbGrows(s.db, s'.db)
    ensures HashOf(s'.db, Reservation(s.reqs[r].kind)) == Some(s.reqs[r].pc.hash)
  {
  }

  /** Only the reservation of r is settled. */
  lemma SettleOnly(s: State, r: RequestId, s': State, x: Resource)
    requires StepSettle(s, r, s') && Ready(s, r) && Unsettled(s.db, x) && x != Reservation(s.reqs[r].kind)
    ensures Unsettled(s'.db, x)
  {
  }

  lemma SettleSums(c: Config, s: State, r: RequestId, s': State, v: UserId)
    requires StepSettle(s, r, s') && Ready(s, r) && DataOk(s, s.reqs[r])
    ensures Deposited(s.db, v) <= Deposited(s'.db, v)
    ensures Outstanding(s'.db, v) == Outstanding(s.db, v)
    ensures Burned(s'.db, v) == Burned(s.db, v) + if s.reqs[r].kind.Confirm? && s.reqs[r].user == v then s.reqs[r].uzd else 0
  {
    var q := s.reqs[r];
    if q.kind.Confirm? {
      SettledSums(s.db, r, q, q.pc.hash, q.pc.parked, v);
    } else {
      OtherSums(s.db, r, q, q.pc.hash, q.pc.parked, v);
    }
  }

  lemma SettleRely(c: Config, s: State, r: RequestId, s': State, o: RequestId)
    requires LocksOk(c, s) && StepSettle(s, r, s') && ReqOk(c, s, r) && o in s.reqs && o != r
    ensures Rely(s, s', s.reqs[o])
  {
    var q := s.reqs[o];
    SettleGrows(s, r, s');
    SettleSums(c, s, r, s', q.user);
    if HasAdvisory(q) && s.reqs[r].kind.Confirm? && s.reqs[r].user == q.user { ExclusiveUser(c, s, r, o); }
    if HasReservation(q) && Unsettled(s.db, Reservation(q.kind)) {
      if Reservation(q.kind) == Reservation(s.reqs[r].kind) { ExclusiveKey(c, s, r, o); }
      SettleOnly(s, r, s', Reservation(q.kind));
    }
  }

  lemma SettleReqs(c: Config, s: State, r: RequestId, s': State)
    requires LocksOk(c, s) && ReqsOk(c, s) && StepSettle(s, r, s')
    ensures LocksOk(c, s') && ReqsOk(c, s')
  {
    assert ReqOk(c, s, r);
    SettleOwn(c, s, r, s');
    forall o | o in s.reqs && o != r ensures Rely(s, s', s.reqs[o]) { SettleRely(c, s, r, s', o); }
    ReqsStable(c, s, s', r);
  }

  lemma SettleOwn(c: Config, s: State, r: RequestId, s': State)
    requires LocksOk(c, s) && StepSettle(s, r, s') && ReqOk(c, s, r)
    ensures LocksOk(c, s') && ReqOk(c, s', r) && OnlyMoves(s, s', r)
  {
    LocksEnd(c, s, s', r);
  }

  lemma SettleTx(c: Config, s: State, r: RequestId, s': State, h: Hash)
    requires StepSettle(s, r, s') && ReqOk(c, s, r) && DbOk(s) && h in s.chain && TxOk(s, h) && s.chain[h].origin == r
    ensures TxOk(s', h)
  {
    SettleGrows(s, r, s');
    var e := s.chain[h].effect;
    if Settles(e).Some? && HashOf(s.db, Settles(e).value) == Some(h) {
      HashStays(s, s', Settles(e).value);
    }
  }

  lemma SettleChain(c: Config, s: State, r: RequestId, s': State)
    requires ChainOk(s) && DbOk(s) && StepSettle(s, r, s') && ReqOk(c, s, r)
    ensures ChainOk(s')
  {
    SettleGrows(s, r, s');
    forall h | h in s'.chain && s.chain[h].origin == r ensures TxOk(s', h) {
      assert TxOk(s, h);
      SettleTx(c, s, r, s', h);
    }
    ChainMoves(s, s', r);
  }

  lemma SettleWithdrawals(c: Config, s: State, r: RequestId, s': State)
    requires DbOk(s) && StepSettle(s, r, s') && ReqOk(c, s, r)
    ensures forall w :: w in s'.db.withdrawals ==> WithdrawalOk(s', w)
  {
    forall w | w in s'.db.withdrawals ensures WithdrawalOk(s', w) { assert WithdrawalOk(s, w); }
  }

  lemma SettleKeys(c: Config, s: State, r: RequestId, s': State)
    requires DbOk(s) && StepSettle(s, r, s') && ReqOk(c, s, r)
    ensures forall k :: k in s'.db.deposits ==> DepositOk(s', k)
    ensures forall ref :: ref in s'.db.attestations ==> AttestationOk(s', ref)
    ensures forall u :: u in s'.db.claims ==> ClaimOk(s', u)
  {
    forall k | k in s'.db.deposits ensures DepositOk(s', k) {
      if k in s.db.deposits { assert DepositOk(s, k); }
    }
    forall ref | ref in s'.db.attestations ensures AttestationOk(s', ref) {
      if ref in s.db.attestations { assert AttestationOk(s, ref); }
    }
    forall u | u in s'.db.claims ensures ClaimOk(s', u) {
      if u in s.db.claims { assert ClaimOk(s, u); }
    }
  }

  lemma SettleSolvent(c: Config, s: State, r: RequestId, s': State)
    requires Solvent(s) && StepSettle(s, r, s') && ReqOk(c, s, r)
    ensures Solvent(s')
  {
    forall v
      ensures Burned(s'.db, v) <= Deposited(s'.db, v)
      ensures Outstanding(s'.db, v) <= Deposited(s'.db, v) + Inserted(s', v)
    {
      SettleSums(c, s, r, s', v);
    }
  }

  lemma KeepSettle(c: Config, s: State, r: RequestId, s': State)
    requires Inv(c, s) && StepSettle(s, r, s')
    ensures Inv(c, s')
  {
    assert ReqOk(c, s, r);
    SettleReqs(c, s, r, s');
    SettleChain(c, s, r, s');
    SettleWithdrawals(c, s, r, s');
    SettleKeys(c, s, r, s');
    SettleSolvent(c, s, r, s');
  }

  // ---------------------------------------------------------------- wallets

  lemma BindRely(s: State, u: UserId, w: Address, s': State, q: Request)
    requires StepBindWallet(s, u, w, s')
    ensures Rely(s, s', q)
    ensures Burned(s'.db, q.user) == Burned(s.db, q.user) && Deposited(s'.db, q.user) == Deposited(s.db, q.user)
    ensures Outstanding(s'.db, q.user) == Outstanding(s.db, q.user)
  {
    assert DepositsOf(s'.db, q.user) == DepositsOf(s.db, q.user);
    assert WithdrawalsOf(s'.db, q.user, {Confirmed, Reconcile}) == WithdrawalsOf(s.db, q.user, {Confirmed, Reconcile});
    assert WithdrawalsOf(s'.db, q.user, {Pending, Confirmed, Reconcile})
        == WithdrawalsOf(s.db, q.user, {Pending, Confirmed, Reconcile});
  }

  lemma BindReqs(c: Config, s: State, u: UserId, w: Address, s': State)
    requires LocksOk(c, s) && ReqsOk(c, s) && StepBindWallet(s, u, w, s')
    ensures LocksOk(c, s') && ReqsOk(c, s')
  {
    LocksEnv(c, s, s');
    forall o | o in s.reqs ensures Rely(s, s', s.reqs[o]) { BindRely(s, u, w, s', s.reqs[o]); }
    ReqsEnv(c, s, s');
  }

  lemma BindDb(s: State, u: UserId, w: Address, s': State)
    requires DbOk(s) && Solvent(s) && StepBindWallet(s, u, w, s')
    ensures DbOk(s') && Solvent(s') && DbGrows(s.db, s'.db)
  {
    forall v
      ensures Burned(s'.db, v) <= Deposited(s'.db, v)
      ensures Outstanding(s'.db, v) <= Deposited(s'.db, v) + Inserted(s', v)
    {
      BindRely(s, u, w, s', Request(Welcome(v), v, 0, 0, 0, Begin));
    }
    forall k | k in s'.db.withdrawals ensures WithdrawalOk(s', k) { assert WithdrawalOk(s, k); }
    forall k | k in s'.db.deposits ensures DepositOk(s', k) { assert DepositOk(s, k); }
    forall ref | ref in s'.db.attestations ensures AttestationOk(s', ref) { assert AttestationOk(s, ref); }
    forall v | v in s'.db.claims ensures ClaimOk(s', v) { assert ClaimOk(s, v); }
  }

  lemma KeepBindWallet(c: Config, s: State, u: UserId, w: Address, s': State)
    requires Inv(c, s) && StepBindWallet(s, u, w, s')
    ensures Inv(c, s')
  {
    BindReqs(c, s, u, w, s');
    BindDb(s, u, w, s');
    ChainEnv(s, s');
  }
}
