/** Every step keeps the invariant: the steps that leave the database and the chain alone. */
module BankSteps {
  import opened Common
  import opened BankModel
  import opened BankInvariant
  import opened BankLocks
  import opened BankSums
  import opened BankRely

  /** The transaction of r rolls back with nothing on chain to wait for. */
  lemma KeepEnd(c: Config, s: State, r: RequestId, s': State)
    requires Inv(c, s) && r in s.reqs && s' == End(s, r, s.db, Done)
    requires !s.reqs[r].pc.Waiting? && !s.reqs[r].pc.Settling? && !s.reqs[r].pc.Done?
    ensures Inv(c, s')
  {
    assert ReqOk(c, s, r);
    LocksEnd(c, s, s', r);
    QuietStep(c, s, s', r);
  }

  lemma OwnLoad(c: Config, s: State, r: RequestId, s': State)
    requires LocksOk(c, s) && StepLoad(s, r, s') && ReqOk(c, s, r)
    ensures LocksOk(c, s') && ReqOk(c, s', r) && OnlyMoves(s, s', r)
  {
    LocksMove(c, s, s', r);
  }

  lemma KeepLoad(c: Config, s: State, r: RequestId, s': State)
    requires Inv(c, s) && StepLoad(s, r, s')
    ensures Inv(c, s')
  {
    OwnLoad(c, s, r, s');
    QuietStep(c, s, s', r);
  }

  lemma OwnLock(c: Config, s: State, r: RequestId, s': State)
    requires LocksOk(c, s) && StepLock(c, s, r, s') && ReqOk(c, s, r)
    ensures LocksOk(c, s') && ReqOk(c, s', r) && OnlyMoves(s, s', r)
  {
    LocksTake(c, s, s', r, Advisory(c.lockKey(s.reqs[r].user)));
  }

  lemma KeepLock(c: Config, s: State, r: RequestId, s': State)
    requires Inv(c, s) && StepLock(c, s, r, s')
    ensures Inv(c, s')
  {
    OwnLock(c, s, r, s');
    QuietStep(c, s, s', r);
  }

  lemma TakeRow(c: Config, s: State, r: RequestId, s': State)
    requires LocksOk(c, s) && StepClaimRow(s, r, s') && ReqOk(c, s, r) && !s'.reqs[r].pc.Done?
    requires WithdrawalOk(s, s.reqs[r].kind.wid)
    ensures LocksOk(c, s') && ReqOk(c, s', r) && OnlyMoves(s, s', r)
  {
    LocksTake(c, s, s', r, Row(s.reqs[r].kind.wid));
  }

  lemma KeepClaimRow(c: Config, s: State, r: RequestId, s': State)
    requires Inv(c, s) && StepClaimRow(s, r, s')
    ensures Inv(c, s')
  {
    if s'.reqs[r].pc.Done? {
      KeepEnd(c, s, r, s');
    } else {
      TakeRow(c, s, r, s');
      QuietStep(c, s, s', r);
    }
  }

  lemma TakeKey(c: Config, s: State, r: RequestId, s': State)
    requires LocksOk(c, s) && StepReserveKey(s, r, s') && ReqOk(c, s, r) && !s'.reqs[r].pc.Done?
    ensures LocksOk(c, s') && ReqOk(c, s', r) && OnlyMoves(s, s', r)
  {
    LocksTake(c, s, s', r, Reservation(s.reqs[r].kind));
  }

  lemma KeepReserveKey(c: Config, s: State, r: RequestId, s': State)
    requires Inv(c, s) && StepReserveKey(s, r, s')
    ensures Inv(c, s')
  {
    if s'.reqs[r].pc.Done? {
      KeepEnd(c, s, r, s');
    } else {
      TakeKey(c, s, r, s');
      QuietStep(c, s, s', r);
    }
  }

  lemma KeepReadBalance(c: Config, s: State, r: RequestId, reading: Option<nat>, s': State)
    requires Inv(c, s) && StepReadBalance(c, s, r, reading, s')
    ensures Inv(c, s')
  {
    assert ReqOk(c, s, r);
    LocksMove(c, s, s', r);
    QuietStep(c, s, s', r);
  }

  lemma KeepReadDeposits(c: Config, s: State, r: RequestId, s': State)
    requires Inv(c, s) && StepReadDeposits(s, r, s')
    ensures Inv(c, s')
  {
    assert ReqOk(c, s, r);
    LocksMove(c, s, s', r);
    QuietStep(c, s, s', r);
  }

  lemma KeepReadWithdrawals(c: Config, s: State, r: RequestId, s': State)
    requires Inv(c, s) && StepReadWithdrawals(s, r, s')
    ensures Inv(c, s')
  {
    var q := s.reqs[r];
    assert ReqOk(c, s, r);
    if q.kind.Confirm? {
      PendingIsOutstanding(s.db, q.kind.wid, q.user);
    }
    LocksMove(c, s, s', r);
    QuietStep(c, s, s', r);
  }

  lemma PassFileCap(c: Config, s: State, r: RequestId, s': State)
    requires LocksOk(c, s) && StepCheckFile(s, r, s') && ReqOk(c, s, r) && !s'.reqs[r].pc.Done?
    ensures LocksOk(c, s') && ReqOk(c, s', r) && OnlyMoves(s, s', r)
  {
    LocksMove(c, s, s', r);
  }

  lemma KeepCheckFile(c: Config, s: State, r: RequestId, s': State)
    requires Inv(c, s) && StepCheckFile(s, r, s')
    ensures Inv(c, s')
  {
    if s'.reqs[r].pc.Done? {
      KeepEnd(c, s, r, s');
    } else {
      PassFileCap(c, s, r, s');
      QuietStep(c, s, s', r);
    }
  }

  lemma PassConfirmCap(c: Config, s: State, r: RequestId, s': State)
    requires LocksOk(c, s) && StepCheckConfirm(s, r, s') && ReqOk(c, s, r) && !s'.reqs[r].pc.Done?
    ensures LocksOk(c, s') && ReqOk(c, s', r) && OnlyMoves(s, s', r)
  {
    LocksMove(c, s, s', r);
  }

  lemma KeepCheckConfirm(c: Config, s: State, r: RequestId, s': State)
    requires Inv(c, s) && StepCheckConfirm(s, r, s')
    ensures Inv(c, s')
  {
    if s'.reqs[r].pc.Done? {
      KeepEnd(c, s, r, s');
    } else {
      PassConfirmCap(c, s, r, s');
      QuietStep(c, s, s', r);
    }
  }

  lemma KeepAbort(c: Config, s: State, r: RequestId, s': State)
    requires Inv(c, s) && StepAbort(s, r, s')
    ensures Inv(c, s')
  {
    KeepEnd(c, s, r, s');
  }

  lemma KeepRollback(c: Config, s: State, r: RequestId, s': State)
    requires Inv(c, s) && StepRollback(s, r, s')
    ensures Inv(c, s')
  {
    KeepEnd(c, s, r, s');
  }

  lemma MoveResolve(c: Config, s: State, r: RequestId, ok: bool, s': State)
    requires LocksOk(c, s) && StepResolve(s, r, ok, s') && ReqOk(c, s, r)
    ensures LocksOk(c, s') && ReqOk(c, s', r) && OnlyMoves(s, s', r)
  {
    LocksMove(c, s, s', r);
  }

  lemma KeepResolve(c: Config, s: State, r: RequestId, ok: bool, s': State)
    requires Inv(c, s) && StepResolve(s, r, ok, s')
    ensures Inv(c, s')
  {
    MoveResolve(c, s, r, ok, s');
    QuietStep(c, s, s', r);
  }

  lemma OwnTakeSigner(c: Config, s: State, r: RequestId, s': State)
    requires LocksOk(c, s) && StepTakeSigner(c, s, r, s') && ReqOk(c, s, r)
    ensures LocksOk(c, s') && ReqOk(c, s', r) && OnlyMoves(s, s', r)
  {
    LocksTake(c, s, s', r, SignerKey(SignerFor(c, s.reqs[r])));
  }

  lemma KeepTakeSigner(c: Config, s: State, r: RequestId, s': State)
    requires Inv(c, s) && StepTakeSigner(c, s, r, s')
    ensures Inv(c, s')
  {
    OwnTakeSigner(c, s, r, s');
    QuietStep(c, s, s', r);
  }

  /** The send fails before a hash: no effect outside the request and its signer lock. */
  lemma KeepFailSend(c: Config, s: State, r: RequestId, s': State)
    requires Inv(c, s) && r in s.reqs && UnderSigner(s.reqs[r].pc) && s' == FailSend(c, s, r)
    ensures Inv(c, s')
  {
    DropFailed(c, s, r, s');
    QuietStep(c, s, s', r);
  }

  lemma DropFailed(c: Config, s: State, r: RequestId, s': State)
    requires LocksOk(c, s) && r in s.reqs && ReqOk(c, s, r) && UnderSigner(s.reqs[r].pc) && s' == FailSend(c, s, r)
    ensures LocksOk(c, s') && ReqOk(c, s', r) && OnlyMoves(s, s', r)
  {
    LocksDropSigner(c, s, s', r);
  }

  lemma OwnFetch(c: Config, s: State, r: RequestId, s': State)
    requires LocksOk(c, s) && StepFetchNonce(c, s, r, true, s') && ReqOk(c, s, r)
    ensures LocksOk(c, s') && ReqOk(c, s', r) && OnlyMoves(s, s', r)
  {
    LocksMove(c, s, s', r);
  }

  lemma KeepFetchNonce(c: Config, s: State, r: RequestId, ok: bool, s': State)
    requires Inv(c, s) && StepFetchNonce(c, s, r, ok, s')
    ensures Inv(c, s')
  {
    if ok {
      OwnFetch(c, s, r, s');
      QuietStep(c, s, s', r);
    } else {
      KeepFailSend(c, s, r, s');
    }
  }

  lemma OwnTooLow(c: Config, s: State, r: RequestId, s': State)
    requires LocksOk(c, s) && StepTooLow(c, s, r, s') && ReqOk(c, s, r) && !s.reqs[r].pc.stage.retried
    ensures LocksOk(c, s') && ReqOk(c, s', r) && OnlyMoves(s, s', r)
  {
    LocksMove(c, s, s', r);
  }

  lemma KeepTooLow(c: Config, s: State, r: RequestId, s': State)
    requires Inv(c, s) && StepTooLow(c, s, r, s')
    ensures Inv(c, s')
  {
    if s.reqs[r].pc.stage.retried {
      KeepFailSend(c, s, r, s');
    } else {
      OwnTooLow(c, s, r, s');
      QuietStep(c, s, s', r);
    }
  }

  lemma KeepRefused(c: Config, s: State, r: RequestId, s': State)
    requires Inv(c, s) && StepRefused(c, s, r, s')
    ensures Inv(c, s')
  {
    KeepFailSend(c, s, r, s');
  }
}
