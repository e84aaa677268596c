/** Whose tokens are touched: every transaction of every run acts on a wallet that was bound to its
    user, and every burn is of a filed withdrawal, for its owner and amount. */
module BankWallets {
  import opened Common
  import opened BankModel
  import opened BankInvariant
  import opened BankSafety
  import opened BankOnce

  type Binding = (UserId, Address)

  /** The user and wallet an effect is for. */
  function TargetOf(e: Effect): Option<Binding> {
    match e
    case MintDeposit(_, u, a, _) => Some((u, a))
    case Burn(_, u, a, _) => Some((u, a))
    case MintWelcome(u, a) => Some((u, a))
    case Gift(u, a) => Some((u, a))
    case Drip(u, a) => Some((u, a))
    case _ => None
  }

  ghost function Bindings(wallets: map<UserId, Address>): set<Binding> {
    set u | u in wallets :: (u, wallets[u])
  }

  /** Every binding there has been up to state i. */
  ghost function EverBound(states: seq<State>, i: nat): set<Binding>
    requires i < |states|
  {
    Bindings(states[i].db.wallets) + if i == 0 then {} else EverBound(states, i - 1)
  }

  /** The request has read its user's wallet and still runs. */
  predicate HasWallet(q: Request) {
    !Loading(q) && !q.kind.Reject? && !q.kind.Attest? && !q.kind.Fx?
  }

  ghost predicate WalletsOk(s: State, bound: set<Binding>) {
    && (forall r :: r in s.reqs && HasWallet(s.reqs[r]) ==> (s.reqs[r].user, s.reqs[r].holder) in bound)
    && (forall h :: h in s.chain && TargetOf(s.chain[h].effect).Some? ==> TargetOf(s.chain[h].effect).value in bound)
  }

  /** A step leaves a request its user and wallet, except that the first reads set them. */
  ghost predicate KeepsWallet(s: State, s': State, r: RequestId)
    requires r in s'.reqs
  {
    || (r in s.reqs && s'.reqs[r].user == s.reqs[r].user && s'.reqs[r].holder == s.reqs[r].holder
        && (HasWallet(s'.reqs[r]) ==> HasWallet(s.reqs[r])))
    || (r in s.reqs && s.reqs[r].pc.Begin? && s'.reqs[r] == Loaded(s.db, s.reqs[r]))
    || s'.reqs[r].pc.Begin?
  }

  lemma LockKeepsWallet(c: Config, s: State, a: Action, s': State, r: RequestId)
    requires CheckStep(c, s, a, s') && (a.Lock? || a.ClaimRow? || a.ReserveKey?) && r in s'.reqs
    ensures KeepsWallet(s, s', r)
  {
    if a.r != r { assert r in s.reqs && s'.reqs[r] == s.reqs[r]; }
  }

  lemma ReadKeepsWallet(c: Config, s: State, a: Action, s': State, r: RequestId)
    requires CheckStep(c, s, a, s') && !a.Lock? && !a.ClaimRow? && !a.ReserveKey? && !a.CheckCap? && r in s'.reqs
    ensures KeepsWallet(s, s', r)
  {
    if a.r != r { assert r in s.reqs && s'.reqs[r] == s.reqs[r]; }
  }

  lemma CapKeepsWallet(c: Config, s: State, a: Action, s': State, r: RequestId)
    requires CheckStep(c, s, a, s') && a.CheckCap? && r in s'.reqs
    ensures KeepsWallet(s, s', r)
  {
    if a.r != r { assert r in s.reqs && s'.reqs[r] == s.reqs[r]; }
  }

  lemma QueueKeepsWallet(c: Config, s: State, a: Action, s': State, r: RequestId)
    requires SendStep(c, s, a, s') && !a.Broadcast? && r in s'.reqs
    ensures KeepsWallet(s, s', r)
  {
    if a.r != r { assert r in s.reqs && s'.reqs[r] == s.reqs[r]; }
  }

  lemma BroadcastKeepsWallet(c: Config, s: State, a: Action, s': State, r: RequestId)
    requires SendStep(c, s, a, s') && a.Broadcast? && r in s'.reqs
    ensures KeepsWallet(s, s', r)
  {
    if a.r != r { assert r in s.reqs && s'.reqs[r] == s.reqs[r]; }
  }

  lemma EndKeepsWallet(s: State, a: Action, s': State, r: RequestId)
    requires EndStep(s, a, s') && r in s'.reqs
    ensures KeepsWallet(s, s', r)
  {
    if a.r != r { assert r in s.reqs && s'.reqs[r] == s.reqs[r]; }
  }

  lemma StepKeepsWallet(c: Config, s: State, a: Action, s': State, r: RequestId)
    requires Step(c, s, a, s') && r in s'.reqs
    ensures KeepsWallet(s, s', r)
  {
    if a.Lock? || a.ClaimRow? || a.ReserveKey? {
      LockKeepsWallet(c, s, a, s', r);
    } else if a.CheckCap? {
      CapKeepsWallet(c, s, a, s', r);
    } else if CheckStep(c, s, a, s') {
      ReadKeepsWallet(c, s, a, s', r);
    } else if a.Broadcast? {
      BroadcastKeepsWallet(c, s, a, s', r);
    } else if SendStep(c, s, a, s') {
      QueueKeepsWallet(c, s, a, s', r);
    } else if EndStep(s, a, s') {
      EndKeepsWallet(s, a, s', r);
    }
  }

  lemma LoadedIsBound(db: Db, q: Request)
    requires HasWallet(Loaded(db, q)) && q.pc.Begin?
    requires q.kind.File? || q.kind.DepositFor? || q.kind.Welcome? ==> q.user == Subject(q.kind)
    ensures (Loaded(db, q).user, Loaded(db, q).holder) in Bindings(db.wallets)
  {
    var u := Loaded(db, q).user;
    assert u in db.wallets && Loaded(db, q).holder == db.wallets[u];
  }

  lemma SentIsBound(c: Config, s: State, r: RequestId, h: Hash, s': State)
    requires StepTaken(c, s, r, h, s') && ReqOk(c, s, r) && TargetOf(s'.chain[h].effect).Some?
    ensures HasWallet(s.reqs[r]) && TargetOf(s'.chain[h].effect).value == (s.reqs[r].user, s.reqs[r].holder)
  {
  }

  lemma RequestsStayBound(c: Config, s: State, a: Action, s': State, r: RequestId, bound: set<Binding>)
    requires ReqsOk(c, s) && Step(c, s, a, s') && r in s'.reqs && HasWallet(s'.reqs[r])
    requires WalletsOk(s, bound) && Bindings(s.db.wallets) <= bound
    ensures (s'.reqs[r].user, s'.reqs[r].holder) in bound
  {
    StepKeepsWallet(c, s, a, s', r);
    if r in s.reqs && s.reqs[r].pc.Begin? && s'.reqs[r] == Loaded(s.db, s.reqs[r]) {
      assert ReqOk(c, s, r);
      LoadedIsBound(s.db, s.reqs[r]);
    }
  }

  lemma SendsStayBound(c: Config, s: State, a: Action, s': State, h: Hash, bound: set<Binding>)
    requires ReqsOk(c, s) && Step(c, s, a, s') && h in s'.chain && TargetOf(s'.chain[h].effect).Some?
    requires WalletsOk(s, bound)
    ensures TargetOf(s'.chain[h].effect).value in bound
  {
    NewTxIsTaken(c, s, a, s', h);
    if h !in s.chain {
      assert ReqOk(c, s, a.r);
      SentIsBound(c, s, a.r, h, s');
    }
  }

  lemma WalletsStep(c: Config, s: State, a: Action, s': State, bound: set<Binding>)
    requires ReqsOk(c, s) && Step(c, s, a, s') && WalletsOk(s, bound) && Bindings(s.db.wallets) <= bound
    ensures WalletsOk(s', bound)
  {
    forall r | r in s'.reqs && HasWallet(s'.reqs[r]) ensures (s'.reqs[r].user, s'.reqs[r].holder) in bound {
      RequestsStayBound(c, s, a, s', r, bound);
    }
    forall h | h in s'.chain && TargetOf(s'.chain[h].effect).Some? ensures TargetOf(s'.chain[h].effect).value in bound {
      SendsStayBound(c, s, a, s', h, bound);
    }
  }

  lemma WalletsNext(c: Config, states: seq<State>, actions: seq<Action>, i: nat, bound: set<Binding>)
    requires IsRun(c, states, actions) && i < |actions|
    requires WalletsOk(states[i], bound) && Bindings(states[i].db.wallets) <= bound
    ensures WalletsOk(states[i + 1], bound)
  {
    InvRun(c, states, actions, i);
    WalletsStep(c, states[i], actions[i], states[i + 1], bound);
  }

  lemma MoreBindings(s: State, bound: set<Binding>, more: set<Binding>)
    requires WalletsOk(s, bound) && bound <= more
    ensures WalletsOk(s, more)
  {
  }

  lemma {:induction false} WalletsRun(c: Config, states: seq<State>, actions: seq<Action>, i: nat)
    requires IsRun(c, states, actions) && i < |states|
    ensures WalletsOk(states[i], EverBound(states, i))
  {
    if i > 0 {
      WalletsRun(c, states, actions, i - 1);
      WalletsNext(c, states, actions, i - 1, EverBound(states, i - 1));
      MoreBindings(states[i], EverBound(states, i - 1), EverBound(states, i));
    }
  }

  lemma {:induction false} BoundBefore(states: seq<State>, i: nat, b: Binding) returns (j: nat)
    requires i < |states| && b in EverBound(states, i)
    ensures j <= i && b.0 in states[j].db.wallets && states[j].db.wallets[b.0] == b.1
  {
    if b in Bindings(states[i].db.wallets) {
      j := i;
    } else {
      j := BoundBefore(states, i - 1, b);
    }
  }

  /** Every transaction ever accepted, whatever becomes of it, acts on a wallet that its user had bound
      at some earlier point of the run. */
  lemma TargetWasBound(c: Config, states: seq<State>, actions: seq<Action>, i: nat, h: Hash) returns (j: nat)
    requires IsRun(c, states, actions) && i < |states| && h in states[i].chain && TargetOf(states[i].chain[h].effect).Some?
    ensures j <= i
    ensures var e := states[i].chain[h].effect; e.user in states[j].db.wallets && states[j].db.wallets[e.user] == e.holder
  {
    WalletsRun(c, states, actions, i);
    j := BoundBefore(states, i, TargetOf(states[i].chain[h].effect).value);
  }

  // ---------------------------------------------------------------- burns and their rows

  ghost predicate BurnMatches(s: State, h: Hash) {
    h in s.chain && s.chain[h].effect.Burn? ==>
      var e := s.chain[h].effect;
      e.wid in s.db.withdrawals && s.db.withdrawals[e.wid].user == e.user && s.db.withdrawals[e.wid].wei == e.wei
  }

  lemma TakenMatches(c: Config, s: State, r: RequestId, h: Hash, s': State)
    requires StepTaken(c, s, r, h, s') && ReqOk(c, s, r)
    ensures BurnMatches(s', h)
  {
  }

  lemma MatchesStep(c: Config, s: State, a: Action, s': State, h: Hash)
    requires ReqsOk(c, s) && Step(c, s, a, s') && BurnMatches(s, h)
    ensures BurnMatches(s', h)
  {
    if h in s'.chain {
      NewTxIsTaken(c, s, a, s', h);
      if h in s.chain {
        GrowsStep(c, s, a, s');
      } else {
        TakenMatches(c, s, a.r, h, s');
      }
    }
  }

  /** Every burn ever accepted is of a filed withdrawal, for that row's user and exact amount. */
  lemma {:induction false} BurnIsFiled(c: Config, states: seq<State>, actions: seq<Action>, i: nat, h: Hash)
    requires IsRun(c, states, actions) && i < |states|
    ensures BurnMatches(states[i], h)
  {
    if i > 0 {
      BurnIsFiled(c, states, actions, i - 1, h);
      InvRun(c, states, actions, i - 1);
      MatchesStep(c, states[i - 1], actions[i - 1], states[i], h);
    }
  }
}
