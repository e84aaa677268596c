/** Safety over every run of the bank protocol: what is burned, minted and gifted, and how often. */
module BankSafety {
  import opened BankModel
  import opened BankInvariant
  import opened BankLocks
  import opened BankSteps
  import opened BankChainSteps
  import opened BankCommits

  // ---------------------------------------------------------------- the invariant over runs

  lemma InvCheck(c: Config, s: State, a: Action, s': State)
    requires Inv(c, s) && CheckStep(c, s, a, s')
    ensures Inv(c, s')
  {
    match a
    case Load(r) => KeepLoad(c, s, r, s');
    case Lock(r) => KeepLock(c, s, r, s');
    case ClaimRow(r) => KeepClaimRow(c, s, r, s');
    case ReserveKey(r) => KeepReserveKey(c, s, r, s');
    case ReadBalance(r, reading) => KeepReadBalance(c, s, r, reading, s');
    case ReadDeposits(r) => KeepReadDeposits(c, s, r, s');
    case ReadWithdrawals(r) => KeepReadWithdrawals(c, s, r, s');
    case CheckCap(r) => InvCheckCap(c, s, r, s');
  }

  lemma InvCheckCap(c: Config, s: State, r: RequestId, s': State)
    requires Inv(c, s) && (StepCheckFile(s, r, s') || StepCheckConfirm(s, r, s'))
    ensures Inv(c, s')
  {
    if StepCheckFile(s, r, s') {
      KeepCheckFile(c, s, r, s');
    } else {
      KeepCheckConfirm(c, s, r, s');
    }
  }

  lemma InvSend(c: Config, s: State, a: Action, s': State)
    requires Inv(c, s) && SendStep(c, s, a, s')
    ensures Inv(c, s')
  {
    match a
    case Resolve(r, ok) => KeepResolve(c, s, r, ok, s');
    case TakeSigner(r) => KeepTakeSigner(c, s, r, s');
    case FetchNonce(r, ok) => KeepFetchNonce(c, s, r, ok, s');
    case Broadcast(r, Taken(h)) => KeepTaken(c, s, r, h, s');
    case Broadcast(r, TooLow) => KeepTooLow(c, s, r, s');
    case Broadcast(r, Refused) => KeepRefused(c, s, r, s');
  }

  lemma InvEnd(c: Config, s: State, a: Action, s': State)
    requires Inv(c, s) && EndStep(s, a, s')
    ensures Inv(c, s')
  {
    match a
    case Receipt(r) => KeepReceipt(c, s, r, s');
    case Timeout(r) => KeepTimeout(c, s, r, s');
    case CommitFile(r, wid) => KeepCommitFile(c, s, r, wid, s');
    case CommitReject(r) => KeepCommitReject(c, s, r, s');
    case Abort(r) => KeepAbort(c, s, r, s');
    case Settle(r) => KeepSettle(c, s, r, s');
    case Rollback(r) => KeepRollback(c, s, r, s');
  }

  lemma InvEnv(c: Config, s: State, a: Action, s': State)
    requires Inv(c, s) && EnvStep(s, a, s')
    ensures Inv(c, s')
  {
    match a
    case Arrive(r, kind) => KeepArrive(c, s, r, kind, s');
    case Mine(h, status) => KeepMine(c, s, h, status, s');
    case GrowCount(g, count) => KeepGrowCount(c, s, g, count, s');
    case BindWallet(u, w) => KeepBindWallet(c, s, u, w, s');
    case InsertPending(wid, u, uzd) => KeepInsertPending(c, s, wid, u, uzd, s');
  }

  /** Every step of every request and of the environment keeps the invariant. */
  lemma InvStep(c: Config, s: State, a: Action, s': State)
    requires Inv(c, s) && Step(c, s, a, s')
    ensures Inv(c, s')
  {
    if CheckStep(c, s, a, s') {
      InvCheck(c, s, a, s');
    } else if SendStep(c, s, a, s') {
      InvSend(c, s, a, s');
    } else if EndStep(s, a, s') {
      InvEnd(c, s, a, s');
    } else {
      InvEnv(c, s, a, s');
    }
  }

  /** The invariant holds in every state of every run. */
  lemma {:induction false} InvRun(c: Config, states: seq<State>, actions: seq<Action>, i: nat)
    requires IsRun(c, states, actions) && i < |states|
    ensures Inv(c, states[i])
  {
    if i > 0 {
      InvRun(c, states, actions, i - 1);
      InvStep(c, states[i - 1], actions[i - 1], states[i]);
    }
  }

  // ---------------------------------------------------------------- at most one live transaction

  /** Two transactions for the same row or key: if neither reverted they are the same one. */
  lemma OneLive(c: Config, s: State, h1: Hash, h2: Hash)
    requires Inv(c, s) && h1 in s.chain && h2 in s.chain
    requires Settles(s.chain[h1].effect).Some? && Settles(s.chain[h1].effect) == Settles(s.chain[h2].effect)
    requires !s.chain[h1].status.Reverted? && !s.chain[h2].status.Reverted?
    ensures h1 == h2
  {
    var r1, r2 := s.chain[h1].origin, s.chain[h2].origin;
    assert TxOk(s, h1) && TxOk(s, h2);
    assert ReqOk(c, s, r1) && ReqOk(c, s, r2);
    if AtHash(s.reqs[r1], h1) && AtHash(s.reqs[r2], h2) && h1 != h2 {
      ExclusiveKey(c, s, r1, r2);
    }
  }
}
