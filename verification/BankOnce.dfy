/** One-time effects over every run: one burn per withdrawal, one mint per deposit key and per
    welcome claim, one gift per user, drips only on a fresh balance. */
module BankOnce {
  import opened Common
  import opened BankModel
  import opened BankInvariant
  import opened BankLocks
  import opened BankCommits
  import opened BankSafety

  // ---------------------------------------------------------------- rows and transactions only grow

  predicate WritesDb(a: Action) {
    a.CommitFile? || a.CommitReject? || a.Settle? || a.BindWallet? || a.InsertPending?
  }

  predicate WritesChain(a: Action) {
    a.Timeout? || a.Mine? || (a.Broadcast? && a.reply.Taken?)
  }

  /** Which steps can touch committed rows or transactions at all. */
  lemma Untouched(c: Config, s: State, a: Action, s': State)
    requires Step(c, s, a, s')
    ensures !WritesDb(a) ==> s'.db == s.db
    ensures !WritesChain(a) ==> s'.chain == s.chain
  {
    if CheckStep(c, s, a, s') {
      CheckUntouched(c, s, a, s');
    } else if SendStep(c, s, a, s') {
      SendUntouched(c, s, a, s');
    } else if EndStep(s, a, s') {
      EndUntouched(s, a, s');
    }
  }

  lemma CheckUntouched(c: Config, s: State, a: Action, s': State)
    requires CheckStep(c, s, a, s')
    ensures s'.db == s.db && s'.chain == s.chain
  {
  }

  lemma SendUntouched(c: Config, s: State, a: Action, s': State)
    requires SendStep(c, s, a, s')
    ensures s'.db == s.db && (!WritesChain(a) ==> s'.chain == s.chain)
  {
  }

  lemma EndUntouched(s: State, a: Action, s': State)
    requires EndStep(s, a, s')
    ensures !WritesChain(a) ==> s'.chain == s.chain
    ensures !WritesDb(a) ==> s'.db == s.db
  {
  }

  lemma WritesGrow(c: Config, s: State, a: Action, s': State)
    requires Step(c, s, a, s') && WritesDb(a)
    requires a.Settle? || a.CommitReject? ==> ReqOk(c, s, a.r)
    ensures DbGrows(s.db, s'.db)
  {
    if a.Settle? {
      SettleGrows(s, a.r, s');
    }
  }

  lemma ChainWritesGrow(c: Config, s: State, a: Action, s': State)
    requires Step(c, s, a, s') && WritesChain(a)
    ensures ChainGrows(s.chain, s'.chain)
  {
  }

  lemma GrowsStep(c: Config, s: State, a: Action, s': State)
    requires ReqsOk(c, s) && Step(c, s, a, s')
    ensures DbGrows(s.db, s'.db) && ChainGrows(s.chain, s'.chain)
  {
    Untouched(c, s, a, s');
    if WritesDb(a) { WritesGrow(c, s, a, s'); }
    if WritesChain(a) { ChainWritesGrow(c, s, a, s'); }
  }

  ghost predicate Grows(s: State, s': State) {
    DbGrows(s.db, s'.db) && ChainGrows(s.chain, s'.chain)
  }

  lemma GrowsSelf(s: State)
    ensures Grows(s, s)
  {
  }

  lemma GrowsOn(s1: State, s2: State, s3: State)
    requires Grows(s1, s2) && Grows(s2, s3)
    ensures Grows(s1, s3)
  {
  }

  lemma RunGrows(c: Config, states: seq<State>, actions: seq<Action>, i: nat)
    requires IsRun(c, states, actions) && i < |actions|
    ensures Grows(states[i], states[i + 1])
  {
    InvRun(c, states, actions, i);
    GrowsStep(c, states[i], actions[i], states[i + 1]);
  }

  lemma {:induction false} GrowsAlong(states: seq<State>, i: nat, j: nat)
    requires i <= j < |states|
    requires forall k :: 0 <= k < |states| - 1 ==> Grows(states[k], states[k + 1])
    ensures Grows(states[i], states[j])
    decreases j
  {
    if i == j {
      GrowsSelf(states[i]);
    } else {
      GrowsAlong(states, i, j - 1);
      GrowsOn(states[i], states[j - 1], states[j]);
    }
  }

  /** Along a run rows and transactions are only added, and what is settled never changes. */
  lemma GrowsRun(c: Config, states: seq<State>, actions: seq<Action>, i: nat, j: nat)
    requires IsRun(c, states, actions) && i <= j < |states|
    ensures Grows(states[i], states[j])
  {
    forall k | 0 <= k < |states| - 1 ensures Grows(states[k], states[k + 1]) {
      RunGrows(c, states, actions, k);
    }
    GrowsAlong(states, i, j);
  }

  // ---------------------------------------------------------------- withdrawals

  ghost predicate LiveFor(s: State, h: Hash, x: Resource) {
    h in s.chain && Settles(s.chain[h].effect) == Some(x) && !s.chain[h].status.Reverted?
  }

  /** A withdrawal keeps its owner and amount for ever, leaves pending at most once, and then its
      row never changes again. */
  lemma WithdrawalMovesOnce(c: Config, states: seq<State>, actions: seq<Action>, i: nat, j: nat, w: WithdrawalId)
    requires IsRun(c, states, actions) && i <= j < |states| && w in states[i].db.withdrawals
    ensures w in states[j].db.withdrawals
    ensures var row, row' := states[i].db.withdrawals[w], states[j].db.withdrawals[w];
            && row'.user == row.user && row'.uzd == row.uzd && row'.wei == row.wei == row.uzd * UNIT
            && (row' == row || row.status.Pending?)
  {
    GrowsRun(c, states, actions, i, j);
    InvRun(c, states, actions, i);
    assert WithdrawalOk(states[i], w);
  }

  /** Over a whole run a withdrawal has at most one successful burn: once one mined, no other burn of
      it is, or will ever be, mined or still able to mine. */
  lemma OneBurn(c: Config, states: seq<State>, actions: seq<Action>, i: nat, j: nat, w: WithdrawalId, h1: Hash, h2: Hash)
    requires IsRun(c, states, actions) && i <= j < |states|
    requires LiveFor(states[i], h1, Row(w)) && IsMined(states[i].chain, h1) && LiveFor(states[j], h2, Row(w))
    ensures h1 == h2
  {
    GrowsRun(c, states, actions, i, j);
    InvRun(c, states, actions, j);
    OneLive(c, states[j], h1, h2);
  }

  lemma RejectedIsDead(c: Config, s: State, w: WithdrawalId, h: Hash)
    requires Inv(c, s) && w in s.db.withdrawals && s.db.withdrawals[w].status.Rejected? && WithdrawalOk(s, w)
    ensures !LiveFor(s, h, Row(w))
  {
    if h in s.chain {
      assert TxOk(s, h);
      assert ReqOk(c, s, s.chain[h].origin);
    }
  }

  /** A rejected withdrawal is not burned, now or later. */
  lemma RejectedNeverBurns(c: Config, states: seq<State>, actions: seq<Action>, i: nat, j: nat, w: WithdrawalId, h: Hash)
    requires IsRun(c, states, actions) && i <= j < |states|
    requires w in states[i].db.withdrawals && states[i].db.withdrawals[w].status.Rejected?
    ensures !LiveFor(states[j], h, Row(w))
  {
    var s := states[j];
    InvRun(c, states, actions, j);
    WithdrawalMovesOnce(c, states, actions, i, j, w);
    assert WithdrawalOk(s, w);
    RejectedIsDead(c, s, w, h);
  }

  /** A confirmed withdrawal has exactly one live burn: the mined one its tx_hash names, of the
      row's own user and amount. */
  lemma ConfirmedIsBurned(c: Config, states: seq<State>, actions: seq<Action>, i: nat, w: WithdrawalId)
    requires IsRun(c, states, actions) && i < |states|
    requires w in states[i].db.withdrawals && states[i].db.withdrawals[w].status.Confirmed?
    ensures var s := states[i];
            var row := s.db.withdrawals[w];
            && row.txHash.Some? && IsMined(s.chain, row.txHash.value) && IsBurnOf(s.chain, row.txHash.value, w, row)
            && forall h :: LiveFor(s, h, Row(w)) ==> h == row.txHash.value
  {
    var s := states[i];
    InvRun(c, states, actions, i);
    assert WithdrawalOk(s, w);
    forall h | LiveFor(s, h, Row(w)) ensures h == s.db.withdrawals[w].txHash.value {
      OneLive(c, s, h, s.db.withdrawals[w].txHash.value);
    }
  }

  // ---------------------------------------------------------------- idempotency keys

  /** Across any number of calls and retries at most one transaction per key, row or claim can
      ever take effect. */
  lemma OneEffectPerKey(c: Config, states: seq<State>, actions: seq<Action>, i: nat, x: Resource, h1: Hash, h2: Hash)
    requires IsRun(c, states, actions) && i < |states|
    requires LiveFor(states[i], h1, x) && LiveFor(states[i], h2, x)
    ensures h1 == h2
  {
    InvRun(c, states, actions, i);
    OneLive(c, states[i], h1, h2);
  }

  /** A send that failed for a known reason: at the rollback nothing anybody sent for this key can
      still take effect, and the step leaves the database as it was and the key free for a retry. */
  lemma KnownFailureIsClean(c: Config, states: seq<State>, actions: seq<Action>, i: nat, r: RequestId)
    requires IsRun(c, states, actions) && i < |actions| && actions[i] == Rollback(r)
    requires r in states[i].reqs && Reserves(states[i].reqs[r].kind)
    ensures var x := Reservation(states[i].reqs[r].kind);
            && (forall h :: !LiveFor(states[i], h, x))
            && states[i + 1].db == states[i].db
            && Unsettled(states[i + 1].db, x) && x !in states[i + 1].locks
  {
    var s, s' := states[i], states[i + 1];
    var x := Reservation(s.reqs[r].kind);
    InvRun(c, states, actions, i);
    assert Step(c, s, actions[i], s');
    assert ReqOk(c, s, r);
    FailingHasNothingLive(c, s, r);
    assert Holds(c, s.reqs[r], x);
  }

  lemma FailingHasNothingLive(c: Config, s: State, r: RequestId)
    requires Inv(c, s) && r in s.reqs && s.reqs[r].pc.Failing? && Reserves(s.reqs[r].kind)
    ensures forall h :: !LiveFor(s, h, Reservation(s.reqs[r].kind))
  {
    assert ReqOk(c, s, r);
    forall h | LiveFor(s, h, Reservation(s.reqs[r].kind)) ensures false {
      assert TxOk(s, h) && ReqOk(c, s, s.chain[h].origin);
      ExclusiveKey(c, s, r, s.chain[h].origin);
    }
  }

  ghost predicate TxFor(s: State, h: Hash, x: Resource) {
    h in s.chain && Settles(s.chain[h].effect) == Some(x)
  }

  lemma TakenIsUnsettled(c: Config, s: State, r: RequestId, h: Hash, s': State)
    requires StepTaken(c, s, r, h, s') && ReqOk(c, s, r) && Settles(s'.chain[h].effect).Some?
    ensures HashOf(s.db, Settles(s'.chain[h].effect).value).None?
  {
  }

  /** Once a key is recorded, with a known or an unknown outcome, no step sends for it again. */
  lemma NoNewSend(c: Config, s: State, a: Action, s': State, x: Resource, h: Hash)
    requires ReqsOk(c, s) && Step(c, s, a, s') && HashOf(s.db, x).Some? && TxFor(s', h, x)
    ensures TxFor(s, h, x)
  {
    NewTxIsTaken(c, s, a, s', h);
    if h !in s.chain {
      TakenIsUnsettled(c, s, a.r, h, s');
    }
  }

  /** Only a broadcast the node took adds a transaction; the others keep their effect. */
  lemma NewTxIsTaken(c: Config, s: State, a: Action, s': State, h: Hash)
    requires Step(c, s, a, s') && h in s'.chain
    ensures h in s.chain ==> s'.chain[h].effect == s.chain[h].effect
    ensures h !in s.chain ==> a.Broadcast? && a.reply == Taken(h) && StepTaken(c, s, a.r, h, s')
  {
    Untouched(c, s, a, s');
  }

  /** If x is recorded it stays so, and h was there already if it is a send for x. */
  ghost predicate KeyStays(s: State, s': State, x: Resource, h: Hash) {
    HashOf(s.db, x).Some? ==> HashOf(s'.db, x) == HashOf(s.db, x) && (TxFor(s', h, x) ==> TxFor(s, h, x))
  }

  lemma KeyStep(c: Config, states: seq<State>, actions: seq<Action>, i: nat, x: Resource, h: Hash)
    requires IsRun(c, states, actions) && i < |actions|
    ensures KeyStays(states[i], states[i + 1], x, h)
  {
    InvRun(c, states, actions, i);
    if HashOf(states[i].db, x).Some? {
      RecordedStays(c, states[i], actions[i], states[i + 1], x);
      if TxFor(states[i + 1], h, x) { NoNewSend(c, states[i], actions[i], states[i + 1], x, h); }
    }
  }

  lemma {:induction false} KeyAlong(states: seq<State>, i: nat, j: nat, x: Resource, h: Hash)
    requires i <= j < |states|
    requires forall k :: 0 <= k < |states| - 1 ==> KeyStays(states[k], states[k + 1], x, h)
    ensures KeyStays(states[i], states[j], x, h)
    decreases j
  {
    if i < j {
      KeyAlong(states, i, j - 1, x, h);
      assert KeyStays(states[j - 1], states[j - 1 + 1], x, h);
    }
  }

  /** A recorded key stays claimed for ever: same transaction, and nothing is sent for it any more. */
  lemma RecordedKeyIsFinal(c: Config, states: seq<State>, actions: seq<Action>, i: nat, j: nat, x: Resource, h: Hash)
    requires IsRun(c, states, actions) && i <= j < |states| && HashOf(states[i].db, x).Some?
    ensures HashOf(states[j].db, x) == HashOf(states[i].db, x)
    ensures TxFor(states[j], h, x) ==> TxFor(states[i], h, x)
  {
    forall k | 0 <= k < |states| - 1 ensures KeyStays(states[k], states[k + 1], x, h) {
      KeyStep(c, states, actions, k, x, h);
    }
    KeyAlong(states, i, j, x, h);
  }

  lemma RecordedStays(c: Config, s: State, a: Action, s': State, x: Resource)
    requires Inv(c, s) && Step(c, s, a, s') && HashOf(s.db, x).Some?
    ensures HashOf(s'.db, x) == HashOf(s.db, x)
  {
    GrowsStep(c, s, a, s');
    if x.Row? {
      assert WithdrawalOk(s, x.wid);
    }
  }

  // ---------------------------------------------------------------- welcome

  /** A gift is sent only for a committed claim of the sender whose mint was seen mined. */
  lemma GiftFollowsClaim(c: Config, states: seq<State>, actions: seq<Action>, i: nat, h: Hash)
    requires IsRun(c, states, actions) && i < |states| && h in states[i].chain && states[i].chain[h].effect.Gift?
    ensures var s := states[i];
            var u := s.chain[h].effect.user;
            && u in s.db.claims && s.db.claims[u].id == s.chain[h].origin
            && IsMined(s.chain, s.db.claims[u].txHash) && s.chain[s.db.claims[u].txHash].effect.MintWelcome?
  {
    InvRun(c, states, actions, i);
    assert TxOk(states[i], h);
    assert ClaimOk(states[i], states[i].chain[h].effect.user);
  }

  ghost predicate GiftTo(s: State, h: Hash, u: UserId) {
    h in s.chain && s.chain[h].effect.Gift? && s.chain[h].effect.user == u
  }

  /** At most one gift is ever sent to a user, whatever became of it. */
  lemma {:induction false} OneGift(c: Config, states: seq<State>, actions: seq<Action>, i: nat, u: UserId, h1: Hash, h2: Hash)
    requires IsRun(c, states, actions) && i < |states| && GiftTo(states[i], h1, u) && GiftTo(states[i], h2, u)
    ensures h1 == h2
  {
    if i > 0 {
      InvRun(c, states, actions, i - 1);
      GiftStep(c, states[i - 1], actions[i - 1], states[i], u, h1, h2);
      if GiftTo(states[i - 1], h1, u) && GiftTo(states[i - 1], h2, u) {
        OneGift(c, states, actions, i - 1, u, h1, h2);
      }
    }
  }

  lemma TakenIsFirstGift(c: Config, s: State, r: RequestId, h: Hash, s': State, u: UserId, g: Hash)
    requires StepTaken(c, s, r, h, s') && ReqOk(c, s, r) && GiftTo(s', h, u) && g in s.chain && TxOk(s, g)
    ensures !GiftTo(s, g, u)
  {
  }

  /** A step that sends a gift finds none of the user's before it. */
  lemma GiftStep(c: Config, s: State, a: Action, s': State, u: UserId, h1: Hash, h2: Hash)
    requires ReqsOk(c, s) && ChainOk(s) && Step(c, s, a, s') && GiftTo(s', h1, u) && GiftTo(s', h2, u)
    ensures h1 == h2 || (GiftTo(s, h1, u) && GiftTo(s, h2, u))
  {
    Untouched(c, s, a, s');
    if a.Broadcast? && a.reply.Taken? {
      var h := a.reply.hash;
      assert StepTaken(c, s, a.r, h, s');
      if h == h1 && h1 != h2 { TakenIsFirstGift(c, s, a.r, h, s', u, h2); }
      if h == h2 && h1 != h2 { TakenIsFirstGift(c, s, a.r, h, s', u, h1); }
    }
  }
}
