/** Money over every run: what was burned, minted and filed against what was deposited. */
module BankMoney {
  import opened Sums
  import opened Common
  import opened BankModel
  import opened BankInvariant
  import opened BankLocks
  import opened BankSafety

  // ---------------------------------------------------------------- burns

  ghost predicate IsBurnFor(chain: map<Hash, Tx>, h: Hash, u: UserId) {
    h in chain && chain[h].effect.Burn? && chain[h].effect.user == u
  }

  ghost function MinedBurns(s: State, u: UserId): map<Hash, nat> {
    map h | h in s.chain && IsBurnFor(s.chain, h, u) && s.chain[h].status.Mined? :: s.chain[h].effect.wei
  }

  /** Burns that mined, or that may still mine for all the caller knows. */
  ghost function LiveBurns(s: State, u: UserId): map<Hash, nat> {
    map h | h in s.chain && IsBurnFor(s.chain, h, u) && !s.chain[h].status.Reverted? :: s.chain[h].effect.wei
  }

  /** The wei burned on chain for a user. */
  ghost function BurnedWei(s: State, u: UserId): nat {
    Total(MinedBurns(s, u))
  }

  /** A confirm of this user that has passed its solvency guard. */
  ghost predicate Burning(s: State, r: RequestId, u: UserId) {
    && r in s.reqs && s.reqs[r].kind.Confirm? && HasReservation(s.reqs[r]) && s.reqs[r].user == u
    && !s.reqs[r].pc.SumDeposits? && !s.reqs[r].pc.SumWithdrawals? && !s.reqs[r].pc.Capping?
  }

  /** Rows that count as burned, with the one that may be burning right now. */
  ghost function SpentRows(s: State, u: UserId, burning: Option<RequestId>): map<WithdrawalId, nat>
    requires burning.Some? ==> Burning(s, burning.value, u)
  {
    var rows := WithdrawalsOf(s.db, u, {Confirmed, Reconcile});
    if burning.None? then rows else rows[s.reqs[burning.value].kind.wid := s.reqs[burning.value].uzd]
  }

  lemma SpentIsDeposited(c: Config, s: State, u: UserId, burning: Option<RequestId>)
    requires Inv(c, s) && (burning.Some? ==> Burning(s, burning.value, u))
    ensures Total(SpentRows(s, u, burning)) <= Deposited(s.db, u)
  {
    if burning.Some? {
      var q := s.reqs[burning.value];
      assert ReqOk(c, s, burning.value);
      TotalInsert(WithdrawalsOf(s.db, u, {Confirmed, Reconcile}), q.kind.wid, q.uzd);
    }
  }

  /** Where a live burn is accounted for. */
  lemma BurnIsSpent(c: Config, s: State, u: UserId, burning: Option<RequestId>, h: Hash)
    requires Inv(c, s) && (burning.Some? ==> Burning(s, burning.value, u))
    requires burning.None? ==> forall r :: !Burning(s, r, u)
    requires IsBurnFor(s.chain, h, u) && !s.chain[h].status.Reverted?
    ensures var w := s.chain[h].effect.wid;
            w in SpentRows(s, u, burning) && s.chain[h].effect.wei == UNIT * SpentRows(s, u, burning)[w]
  {
    var t := s.chain[h];
    var w, r := t.effect.wid, t.origin;
    assert TxOk(s, h) && ReqOk(c, s, r);
    if HashOf(s.db, Row(w)) == Some(h) {
      SettledBurn(c, s, u, burning, h);
    } else {
      assert Burning(s, r, u);
      assert HasAdvisory(s.reqs[r]) && HasAdvisory(s.reqs[burning.value]);
      ExclusiveUser(c, s, r, burning.value);
      assert WithdrawalOk(s, w);
    }
  }

  lemma SettledBurn(c: Config, s: State, u: UserId, burning: Option<RequestId>, h: Hash)
    requires Inv(c, s) && (burning.Some? ==> Burning(s, burning.value, u))
    requires IsBurnFor(s.chain, h, u) && HashOf(s.db, Row(s.chain[h].effect.wid)) == Some(h)
    ensures var w := s.chain[h].effect.wid;
            w in SpentRows(s, u, burning) && s.chain[h].effect.wei == UNIT * SpentRows(s, u, burning)[w]
  {
    var w := s.chain[h].effect.wid;
    assert WithdrawalOk(s, w);
    if burning.Some? { assert ReqOk(c, s, burning.value); }
  }

  lemma LiveBurnsBound(c: Config, s: State, u: UserId, burning: Option<RequestId>)
    requires Inv(c, s) && (burning.Some? ==> Burning(s, burning.value, u))
    requires burning.None? ==> forall r :: !Burning(s, r, u)
    ensures Total(LiveBurns(s, u)) <= UNIT * Deposited(s.db, u)
  {
    var burns, rows := LiveBurns(s, u), SpentRows(s, u, burning);
    var wei := map w | w in rows :: UNIT * rows[w];
    var row := map h | h in burns :: s.chain[h].effect.wid;
    forall h | h in burns ensures row[h] in wei && burns[h] <= wei[row[h]] { BurnIsSpent(c, s, u, burning, h); }
    forall h1, h2 | h1 in burns && h2 in burns && row[h1] == row[h2] ensures h1 == h2 { OneLive(c, s, h1, h2); }
    TotalInjects(burns, wei, row);
    TotalScale(rows, wei, UNIT);
    SpentIsDeposited(c, s, u, burning);
  }

  /** No user is ever burned for more than was deposited for them: not by the burns that mined, and
      not even if every burn still in the mempool mines too. Holds with pending rows past the cap. */
  lemma BurnsAreDeposited(c: Config, states: seq<State>, actions: seq<Action>, i: nat, u: UserId)
    requires IsRun(c, states, actions) && i < |states|
    ensures Total(LiveBurns(states[i], u)) <= UNIT * Deposited(states[i].db, u)
    ensures BurnedWei(states[i], u) <= UNIT * Deposited(states[i].db, u)
  {
    var s := states[i];
    InvRun(c, states, actions, i);
    if r :| Burning(s, r, u) {
      LiveBurnsBound(c, s, u, Some(r));
    } else {
      LiveBurnsBound(c, s, u, None);
    }
    TotalMono(MinedBurns(s, u), LiveBurns(s, u));
  }

  // ---------------------------------------------------------------- the filing cap

  /** What an action inserts as a pending row of u past create_withdrawal. */
  function Insertion(a: Action, u: UserId): nat {
    if a.InsertPending? && a.u == u then a.uzd else 0
  }

  /** What the first i actions inserted so. */
  function InsertedBy(actions: seq<Action>, i: nat, u: UserId): nat
    requires i <= |actions|
  {
    if i == 0 then 0 else InsertedBy(actions, i - 1, u) + Insertion(actions[i - 1], u)
  }

  lemma {:induction false} InsertedAlong(states: seq<State>, actions: seq<Action>, i: nat, u: UserId)
    requires |states| == |actions| + 1 && i < |states| && Inserted(states[0], u) == 0
    requires forall k :: 0 <= k < |actions| ==> Inserted(states[k + 1], u) == Inserted(states[k], u) + Insertion(actions[k], u)
    ensures Inserted(states[i], u) == InsertedBy(actions, i, u)
  {
    if i > 0 {
      InsertedAlong(states, actions, i - 1, u);
      assert Inserted(states[i - 1 + 1], u) == Inserted(states[i - 1], u) + Insertion(actions[i - 1], u);
    }
  }

  lemma InsertedRun(c: Config, states: seq<State>, actions: seq<Action>, i: nat, u: UserId)
    requires IsRun(c, states, actions) && i < |states|
    ensures Inserted(states[i], u) == InsertedBy(actions, i, u)
  {
    forall k | 0 <= k < |actions|
      ensures Inserted(states[k + 1], u) == Inserted(states[k], u) + Insertion(actions[k], u)
    {
      InsertedStep(c, states[k], actions[k], states[k + 1], u);
    }
    InsertedAlong(states, actions, i, u);
  }

  lemma InsertedStep(c: Config, s: State, a: Action, s': State, u: UserId)
    requires Step(c, s, a, s')
    ensures Inserted(s', u) == Inserted(s, u) + Insertion(a, u)
  {
    if EndStep(s, a, s') { EndKeepsInserted(s, a, s'); }
    if CheckStep(c, s, a, s') { CheckKeepsInserted(c, s, a, s'); }
  }

  lemma EndKeepsInserted(s: State, a: Action, s': State)
    requires EndStep(s, a, s')
    ensures s'.inserted == s.inserted
  {
  }

  lemma CheckKeepsInserted(c: Config, s: State, a: Action, s': State)
    requires CheckStep(c, s, a, s')
    ensures s'.inserted == s.inserted
  {
  }

  /** What a user has filed and not had rejected exceeds their deposits at most by the rows inserted
      for this user past create_withdrawal; without such rows it never does. */
  lemma OutstandingIsDeposited(c: Config, states: seq<State>, actions: seq<Action>, i: nat, u: UserId)
    requires IsRun(c, states, actions) && i < |states|
    ensures Outstanding(states[i].db, u) <= Deposited(states[i].db, u) + InsertedBy(actions, i, u)
  {
    InvRun(c, states, actions, i);
    InsertedRun(c, states, actions, i, u);
  }

  /** The confirm that action i is about to check, for a row of u. */
  ghost predicate ConfirmsAt(states: seq<State>, actions: seq<Action>, i: nat, r: RequestId, u: UserId)
    requires |states| == |actions| + 1
  {
    && i < |actions| && actions[i] == CheckCap(r) && r in states[i].reqs
    && states[i].reqs[r].kind.Confirm? && states[i].reqs[r].user == u
  }

  /** So the guard at confirm never turns down a row of a user whose rows were all filed: it always goes
      on to the burn, whatever was inserted for others. */
  lemma ConfirmNeverRefuses(c: Config, states: seq<State>, actions: seq<Action>, i: nat, r: RequestId, u: UserId)
    requires IsRun(c, states, actions) && ConfirmsAt(states, actions, i, r, u) && InsertedBy(actions, i, u) == 0
    ensures r in states[i + 1].reqs && states[i + 1].reqs[r].pc == Sending(Main, Resolving)
  {
    InvRun(c, states, actions, i);
    InsertedRun(c, states, actions, i, u);
    assert Step(c, states[i], actions[i], states[i + 1]);
    assert ReqOk(c, states[i], r);
    GuardPasses(c, states[i], r, states[i + 1]);
  }

  lemma GuardPasses(c: Config, s: State, r: RequestId, s': State)
    requires r in s.reqs && s.reqs[r].kind.Confirm? && ReqOk(c, s, r) && Step(c, s, CheckCap(r), s')
    requires Inserted(s, s.reqs[r].user) == 0
    ensures r in s'.reqs && s'.reqs[r].pc == Sending(Main, Resolving)
  {
  }

  // ---------------------------------------------------------------- conservation

  ghost predicate IsMintFor(chain: map<Hash, Tx>, h: Hash, u: UserId) {
    h in chain && chain[h].effect.MintDeposit? && chain[h].effect.user == u && chain[h].status.Mined?
  }

  ghost function MinedMints(s: State, u: UserId): map<Hash, nat> {
    map h | h in s.chain && IsMintFor(s.chain, h, u) :: s.chain[h].effect.wei
  }

  /** The wei minted on chain for a user's deposits. */
  ghost function MintedWei(s: State, u: UserId): nat {
    Total(MinedMints(s, u))
  }

  /** Committed deposits of a user whose mint did, or did not, mine. */
  ghost function DepositsByMint(s: State, u: UserId, mined: bool): map<BankTxId, nat> {
    map k | k in s.db.deposits && s.db.deposits[k].user == u && IsMined(s.chain, s.db.deposits[k].txHash) == mined
      :: s.db.deposits[k].uzs
  }

  lemma MintedCoversMined(c: Config, s: State, u: UserId)
    requires Inv(c, s)
    ensures UNIT * Total(DepositsByMint(s, u, true)) <= MintedWei(s, u)
  {
    var uzs := DepositsByMint(s, u, true);
    var wei := map k | k in uzs :: UNIT * uzs[k];
    var mints := MinedMints(s, u);
    var hash := map k | k in uzs :: s.db.deposits[k].txHash;
    forall k | k in wei ensures hash[k] in mints && wei[k] <= mints[hash[k]] { assert DepositOk(s, k); }
    forall j, k | j in wei && k in wei && hash[j] == hash[k] ensures j == k {
      assert DepositOk(s, j) && DepositOk(s, k);
    }
    TotalInjects(wei, mints, hash);
    TotalScale(uzs, wei, UNIT);
  }

  lemma DepositsSplit(s: State, u: UserId)
    ensures DepositsOf(s.db, u) == DepositsByMint(s, u, true) + DepositsByMint(s, u, false)
    ensures forall k :: k in DepositsByMint(s, u, false) ==> k !in DepositsByMint(s, u, true)
  {
  }

  lemma DepositedByMint(c: Config, s: State, u: UserId)
    requires Inv(c, s)
    ensures UNIT * Deposited(s.db, u) <= MintedWei(s, u) + UNIT * Total(DepositsByMint(s, u, false))
  {
    var yes, no := DepositsByMint(s, u, true), DepositsByMint(s, u, false);
    DepositsSplit(s, u);
    TotalSplit(yes, no);
    MintedCoversMined(c, s, u);
    Distribute(UNIT, Total(yes), Total(no));
  }

  lemma UnminedIsAbandoned(c: Config, s: State, u: UserId, k: BankTxId)
    requires Inv(c, s) && k in DepositsByMint(s, u, false)
    ensures var h := s.db.deposits[k].txHash; h in s.chain && s.chain[h].abandoned
  {
    assert DepositOk(s, k);
  }

  /** Conservation: burned wei never exceeds minted wei by more than the committed deposits whose
      mint has not mined, and each of those is a deposit whose mint was given up on. */
  lemma Conservation(c: Config, states: seq<State>, actions: seq<Action>, i: nat, u: UserId)
    requires IsRun(c, states, actions) && i < |states|
    ensures var s := states[i]; BurnedWei(s, u) <= MintedWei(s, u) + UNIT * Total(DepositsByMint(s, u, false))
    ensures var s := states[i]; forall k :: k in DepositsByMint(s, u, false) ==>
              s.db.deposits[k].txHash in s.chain && s.chain[s.db.deposits[k].txHash].abandoned
  {
    var s := states[i];
    InvRun(c, states, actions, i);
    BurnsAreDeposited(c, states, actions, i, u);
    DepositedByMint(c, s, u);
    forall k | k in DepositsByMint(s, u, false)
      ensures s.db.deposits[k].txHash in s.chain && s.chain[s.db.deposits[k].txHash].abandoned
    {
      UnminedIsAbandoned(c, s, u, k);
    }
  }

  /** In particular a user all of whose recorded mints mined is never burned for more than was minted. */
  lemma BurnedIsMinted(c: Config, states: seq<State>, actions: seq<Action>, i: nat, u: UserId)
    requires IsRun(c, states, actions) && i < |states|
    requires forall k :: k in DepositsOf(states[i].db, u) ==> IsMined(states[i].chain, states[i].db.deposits[k].txHash)
    ensures BurnedWei(states[i], u) <= MintedWei(states[i], u)
  {
    Conservation(c, states, actions, i, u);
    assert DepositsByMint(states[i], u, false) == map[];
  }
}
