/** Rely and guarantee: a request's assertions survive any step of the others that meets Rely,
    and what is left to show of a step. */
module BankRely {
  import opened Common
  import opened BankModel
  import opened BankInvariant
  import opened BankLocks

  lemma DataStable(s: State, s': State, q: Request)
    requires DataOk(s, q) && DbGrows(s.db, s'.db)
    ensures DataOk(s', q)
  {
  }

  lemma SumsStable(s: State, s': State, q: Request)
    requires PcFits(q) && SumsOk(s, q) && Rely(s, s', q)
    ensures SumsOk(s', q)
  {
  }

  lemma SendStable(s: State, s': State, r: RequestId, q: Request)
    requires PcFits(q) && SendOk(s, r, q) && Rely(s, s', q)
    ensures SendOk(s', r, q)
  {
  }

  lemma ReqStable(c: Config, s: State, s': State, r: RequestId)
    requires r in s.reqs && r in s'.reqs && s'.reqs[r] == s.reqs[r]
    requires ReqOk(c, s, r) && Rely(s, s', s.reqs[r])
    ensures ReqOk(c, s', r)
  {
    DataStable(s, s', s.reqs[r]);
    SumsStable(s, s', s.reqs[r]);
    SendStable(s, s', r, s.reqs[r]);
  }

  lemma ReqsStable(c: Config, s: State, s': State, r: RequestId)
    requires ReqsOk(c, s) && OnlyMoves(s, s', r) && ReqOk(c, s', r)
    requires forall o :: o in s.reqs && o != r ==> Rely(s, s', s.reqs[o])
    ensures ReqsOk(c, s')
  {
    forall o | o in s'.reqs ensures ReqOk(c, s', o) {
      if o != r {
        assert ReqOk(c, s, o);
        ReqStable(c, s, s', o);
      }
    }
  }

  /** A transaction of another request, under a database that only grows. */
  lemma TxStable(s: State, s': State, h: Hash)
    requires h in s.chain && TxOk(s, h) && h in s'.chain
    requires s.chain[h].origin in s'.reqs && s'.reqs[s.chain[h].origin] == s.reqs[s.chain[h].origin]
    requires ChainGrows(s.chain, s'.chain) && DbGrows(s.db, s'.db) && DbOk(s)
    ensures TxOk(s', h)
  {
    var e := s.chain[h].effect;
    if Settles(e).Some? && HashOf(s.db, Settles(e).value) == Some(h) {
      HashStays(s, s', Settles(e).value);
    }
  }

  lemma HashStays(s: State, s': State, x: Resource)
    requires DbGrows(s.db, s'.db) && DbOk(s) && HashOf(s.db, x).Some?
    ensures HashOf(s'.db, x) == HashOf(s.db, x)
  {
    if x.Row? {
      assert WithdrawalOk(s, x.wid);
    }
  }

  /** A transaction of r itself, when r was neither waiting for it nor settling it nor done. */
  lemma TxIdle(s: State, s': State, r: RequestId, h: Hash)
    requires h in s.chain && TxOk(s, h) && h in s'.chain && s.chain[h].origin == r && OnlyMoves(s, s', r)
    requires !s.reqs[r].pc.Waiting? && !s.reqs[r].pc.Settling? && !s.reqs[r].pc.Done?
    requires ChainGrows(s.chain, s'.chain) && DbGrows(s.db, s'.db) && DbOk(s)
    ensures TxOk(s', h)
  {
    var e := s.chain[h].effect;
    if Settles(e).Some? && HashOf(s.db, Settles(e).value) == Some(h) {
      HashStays(s, s', Settles(e).value);
    }
  }

  lemma Quiet(s: State, s': State, q: Request)
    requires s'.db == s.db && s'.chain == s.chain && s'.inserted == s.inserted
    ensures Rely(s, s', q)
  {
  }

  /** Rows stay sound when only the chain moves forward. */
  lemma DbStable(s: State, s': State)
    requires DbOk(s) && s'.db == s.db && ChainGrows(s.chain, s'.chain)
    ensures DbOk(s')
  {
    forall w | w in s'.db.withdrawals ensures WithdrawalOk(s', w) { assert WithdrawalOk(s, w); }
    forall k | k in s'.db.deposits ensures DepositOk(s', k) { assert DepositOk(s, k); }
    forall ref | ref in s'.db.attestations ensures AttestationOk(s', ref) { assert AttestationOk(s, ref); }
    forall u | u in s'.db.claims ensures ClaimOk(s', u) { assert ClaimOk(s, u); }
  }

  /** A step outside every request. */
  lemma ReqsEnv(c: Config, s: State, s': State)
    requires ReqsOk(c, s)
    requires forall o :: o in s.reqs ==> o in s'.reqs && s'.reqs[o] == s.reqs[o] && Rely(s, s', s.reqs[o])
    requires forall o :: o in s'.reqs && o !in s.reqs ==> ReqOk(c, s', o)
    ensures ReqsOk(c, s')
  {
    forall o | o in s'.reqs ensures ReqOk(c, s', o) {
      if o in s.reqs {
        assert ReqOk(c, s, o);
        ReqStable(c, s, s', o);
      }
    }
  }

  /** The requests and locks of a step outside every request; a new request holds nothing. */
  lemma LocksEnv(c: Config, s: State, s': State)
    requires LocksOk(c, s) && s'.locks == s.locks
    requires forall o :: o in s.reqs ==> o in s'.reqs && s'.reqs[o] == s.reqs[o]
    requires forall o, x :: o in s'.reqs && o !in s.reqs ==> !Holds(c, s'.reqs[o], x)
    ensures LocksOk(c, s')
  {
  }

  lemma ChainEnv(s: State, s': State)
    requires ChainOk(s) && DbOk(s) && DbGrows(s.db, s'.db) && ChainGrows(s.chain, s'.chain)
    requires s'.chain.Keys == s.chain.Keys
    requires forall o :: o in s.reqs ==> o in s'.reqs && s'.reqs[o] == s.reqs[o]
    ensures ChainOk(s')
  {
    forall h | h in s'.chain ensures TxOk(s', h) {
      assert h in s.chain && TxOk(s, h);
      TxStable(s, s', h);
    }
  }

  /** A step outside every request that leaves the database alone. */
  lemma EnvKeeps(c: Config, s: State, s': State)
    requires Inv(c, s) && LocksOk(c, s') && ReqsOk(c, s')
    requires s'.db == s.db && s'.inserted == s.inserted
    requires s'.chain.Keys == s.chain.Keys && ChainGrows(s.chain, s'.chain)
    requires forall o :: o in s.reqs ==> o in s'.reqs && s'.reqs[o] == s.reqs[o]
    ensures Inv(c, s')
  {
    ChainEnv(s, s');
    DbStable(s, s');
  }

  /** r moves: the transactions of the others stay sound, those of r are shown apart. */
  lemma ChainMoves(s: State, s': State, r: RequestId)
    requires ChainOk(s) && DbOk(s) && DbGrows(s.db, s'.db) && ChainGrows(s.chain, s'.chain) && OnlyMoves(s, s', r)
    requires forall h :: h in s'.chain && (h !in s.chain || s.chain[h].origin == r) ==> TxOk(s', h)
    ensures ChainOk(s')
  {
    forall h | h in s'.chain ensures TxOk(s', h) {
      if h in s.chain && s.chain[h].origin != r {
        assert TxOk(s, h);
        TxStable(s, s', h);
      }
    }
  }

  lemma QuietChain(s: State, s': State, r: RequestId)
    requires ChainOk(s) && DbOk(s) && OnlyMoves(s, s', r) && s'.db == s.db && s'.chain == s.chain
    requires !s.reqs[r].pc.Waiting? && !s.reqs[r].pc.Settling? && !s.reqs[r].pc.Done?
    ensures ChainOk(s')
  {
    forall h | h in s'.chain && s.chain[h].origin == r ensures TxOk(s', h) {
      assert TxOk(s, h);
      TxIdle(s, s', r, h);
    }
    ChainMoves(s, s', r);
  }

  /** A step of r that touches neither the database nor the chain, while r waits for nothing on chain. */
  lemma QuietStep(c: Config, s: State, s': State, r: RequestId)
    requires Inv(c, s) && OnlyMoves(s, s', r)
    requires s'.db == s.db && s'.chain == s.chain && s'.inserted == s.inserted
    requires !s.reqs[r].pc.Waiting? && !s.reqs[r].pc.Settling? && !s.reqs[r].pc.Done?
    requires LocksOk(c, s') && ReqOk(c, s', r)
    ensures Inv(c, s')
  {
    forall o | o in s.reqs && o != r ensures Rely(s, s', s.reqs[o]) { Quiet(s, s', s.reqs[o]); }
    ReqsStable(c, s, s', r);
    QuietChain(s, s', r);
    DbStable(s, s');
  }
}
