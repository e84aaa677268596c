/** Every step keeps the invariant: the steps in which the chain moves or is read. */
module BankChainSteps {
  import opened BankModel
  import opened BankInvariant
  import opened BankLocks
  import opened BankRely

  // ---------------------------------------------------------------- broadcast

  lemma OwnTaken(c: Config, s: State, r: RequestId, h: Hash, s': State)
    requires LocksOk(c, s) && StepTaken(c, s, r, h, s') && ReqOk(c, s, r)
    ensures LocksOk(c, s') && ReqOk(c, s', r) && OnlyMoves(s, s', r)
    ensures ChainGrows(s.chain, s'.chain)
  {
    LocksDropSigner(c, s, s', r);
  }

  lemma TakenRely(c: Config, s: State, r: RequestId, h: Hash, s': State, q: Request)
    requires StepTaken(c, s, r, h, s')
    ensures Rely(s, s', q)
  {
  }

  lemma TakenTx(c: Config, s: State, r: RequestId, h: Hash, s': State)
    requires StepTaken(c, s, r, h, s') && ReqOk(c, s, r)
    ensures TxOk(s', h)
  {
  }

  lemma TakenChain(c: Config, s: State, r: RequestId, h: Hash, s': State)
    requires ChainOk(s) && DbOk(s) && StepTaken(c, s, r, h, s') && ReqOk(c, s, r)
    ensures ChainOk(s')
  {
    forall j | j in s.chain && s.chain[j].origin == r ensures TxOk(s', j) {
      assert TxOk(s, j);
      TxIdle(s, s', r, j);
    }
    TakenTx(c, s, r, h, s');
    ChainMoves(s, s', r);
  }

  lemma KeepTaken(c: Config, s: State, r: RequestId, h: Hash, s': State)
    requires Inv(c, s) && StepTaken(c, s, r, h, s')
    ensures Inv(c, s')
  {
    assert ReqOk(c, s, r);
    OwnTaken(c, s, r, h, s');
    forall o | o in s.reqs && o != r ensures Rely(s, s', s.reqs[o]) { TakenRely(c, s, r, h, s', s.reqs[o]); }
    ReqsStable(c, s, s', r);
    TakenChain(c, s, r, h, s');
    DbStable(s, s');
  }

  // ---------------------------------------------------------------- receipt

  lemma OwnReceipt(c: Config, s: State, r: RequestId, s': State)
    requires LocksOk(c, s) && StepReceipt(s, r, s') && ReqOk(c, s, r)
    ensures LocksOk(c, s') && ReqOk(c, s', r) && OnlyMoves(s, s', r)
  {
    LocksMove(c, s, s', r);
  }

  lemma ReceiptTx(c: Config, s: State, r: RequestId, s': State, h: Hash)
    requires StepReceipt(s, r, s') && ReqOk(c, s, r) && h in s.chain && TxOk(s, h) && s.chain[h].origin == r
    ensures TxOk(s', h)
  {
  }

  lemma ReceiptChain(c: Config, s: State, r: RequestId, s': State)
    requires ChainOk(s) && DbOk(s) && StepReceipt(s, r, s') && ReqOk(c, s, r) && OnlyMoves(s, s', r)
    ensures ChainOk(s')
  {
    forall h | h in s'.chain && s.chain[h].origin == r ensures TxOk(s', h) {
      assert TxOk(s, h);
      ReceiptTx(c, s, r, s', h);
    }
    ChainMoves(s, s', r);
  }

  lemma KeepReceipt(c: Config, s: State, r: RequestId, s': State)
    requires Inv(c, s) && StepReceipt(s, r, s')
    ensures Inv(c, s')
  {
    assert ReqOk(c, s, r);
    OwnReceipt(c, s, r, s');
    forall o | o in s.reqs && o != r ensures Rely(s, s', s.reqs[o]) { Quiet(s, s', s.reqs[o]); }
    ReqsStable(c, s, s', r);
    ReceiptChain(c, s, r, s');
    DbStable(s, s');
  }

  // ---------------------------------------------------------------- timeout

  lemma OwnTimeout(c: Config, s: State, r: RequestId, s': State)
    requires LocksOk(c, s) && StepTimeout(s, r, s') && ReqOk(c, s, r)
    ensures LocksOk(c, s') && ReqOk(c, s', r) && OnlyMoves(s, s', r) && ChainGrows(s.chain, s'.chain)
  {
    LocksMove(c, s, s', r);
  }

  lemma TimeoutRely(s: State, r: RequestId, s': State, q: Request)
    requires StepTimeout(s, r, s')
    ensures Rely(s, s', q)
  {
  }

  lemma TimeoutTx(c: Config, s: State, r: RequestId, s': State, h: Hash)
    requires StepTimeout(s, r, s') && ReqOk(c, s, r) && h in s.chain && TxOk(s, h) && s.chain[h].origin == r
    ensures TxOk(s', h)
  {
  }

  lemma TimeoutChain(c: Config, s: State, r: RequestId, s': State)
    requires ChainOk(s) && DbOk(s) && StepTimeout(s, r, s') && ReqOk(c, s, r)
    requires OnlyMoves(s, s', r) && ChainGrows(s.chain, s'.chain)
    ensures ChainOk(s')
  {
    forall h | h in s'.chain && s.chain[h].origin == r ensures TxOk(s', h) {
      assert TxOk(s, h);
      TimeoutTx(c, s, r, s', h);
    }
    ChainMoves(s, s', r);
  }

  lemma KeepTimeout(c: Config, s: State, r: RequestId, s': State)
    requires Inv(c, s) && StepTimeout(s, r, s')
    ensures Inv(c, s')
  {
    assert ReqOk(c, s, r);
    OwnTimeout(c, s, r, s');
    forall o | o in s.reqs && o != r ensures Rely(s, s', s.reqs[o]) { TimeoutRely(s, r, s', s.reqs[o]); }
    ReqsStable(c, s, s', r);
    TimeoutChain(c, s, r, s');
    DbStable(s, s');
  }

  // ---------------------------------------------------------------- the chain by itself

  lemma MineRely(s: State, h: Hash, status: TxStatus, s': State, q: Request)
    requires StepMine(s, h, status, s')
    ensures Rely(s, s', q)
  {
  }

  lemma MineReqs(c: Config, s: State, h: Hash, status: TxStatus, s': State)
    requires ReqsOk(c, s) && StepMine(s, h, status, s')
    ensures ReqsOk(c, s') && ChainGrows(s.chain, s'.chain)
  {
    forall o | o in s.reqs ensures Rely(s, s', s.reqs[o]) { MineRely(s, h, status, s', s.reqs[o]); }
    ReqsEnv(c, s, s');
  }

  lemma KeepMine(c: Config, s: State, h: Hash, status: TxStatus, s': State)
    requires Inv(c, s) && StepMine(s, h, status, s')
    ensures Inv(c, s')
  {
    MineReqs(c, s, h, status, s');
    LocksEnv(c, s, s');
    EnvKeeps(c, s, s');
  }

  lemma ArriveReqs(c: Config, s: State, r: RequestId, kind: Kind, s': State)
    requires LocksOk(c, s) && ReqsOk(c, s) && StepArrive(s, r, kind, s')
    ensures LocksOk(c, s') && ReqsOk(c, s')
  {
    assert forall x :: !Holds(c, s'.reqs[r], x);
    LocksEnv(c, s, s');
    forall o | o in s.reqs ensures Rely(s, s', s.reqs[o]) { Quiet(s, s', s.reqs[o]); }
    ReqsEnv(c, s, s');
  }

  lemma KeepArrive(c: Config, s: State, r: RequestId, kind: Kind, s': State)
    requires Inv(c, s) && StepArrive(s, r, kind, s')
    ensures Inv(c, s')
  {
    ArriveReqs(c, s, r, kind, s');
    EnvKeeps(c, s, s');
  }

  lemma CountReqs(c: Config, s: State, g: SignerId, count: nat, s': State)
    requires ReqsOk(c, s) && StepGrowCount(s, g, count, s')
    ensures ReqsOk(c, s')
  {
    forall o | o in s.reqs ensures Rely(s, s', s.reqs[o]) { Quiet(s, s', s.reqs[o]); }
    ReqsEnv(c, s, s');
  }

  lemma KeepGrowCount(c: Config, s: State, g: SignerId, count: nat, s': State)
    requires Inv(c, s) && StepGrowCount(s, g, count, s')
    ensures Inv(c, s')
  {
    CountReqs(c, s, g, count, s');
    LocksEnv(c, s, s');
    EnvKeeps(c, s, s');
  }
}
