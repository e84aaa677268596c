/** Conservation per address: as long as nobody's wallet is bound anew, burns reach only what deposits
    minted to the same address. */
module BankAddresses {
  import opened Sums
  import opened BankModel
  import opened BankInvariant
  import opened BankSafety
  import opened BankMoney
  import opened BankWallets

  // ---------------------------------------------------------------- what moves at an address

  ghost predicate MovesAt(s: State, h: Hash, a: Address, users: set<UserId>) {
    && h in s.chain && TargetOf(s.chain[h].effect).Some?
    && TargetOf(s.chain[h].effect).value.1 == a && TargetOf(s.chain[h].effect).value.0 in users
  }

  ghost function BurnsAt(s: State, a: Address, users: set<UserId>): map<Hash, nat> {
    map h | h in s.chain && s.chain[h].effect.Burn? && s.chain[h].status.Mined? && MovesAt(s, h, a, users)
      :: s.chain[h].effect.wei
  }

  ghost function MintsAt(s: State, a: Address, users: set<UserId>): map<Hash, nat> {
    map h | h in s.chain && s.chain[h].effect.MintDeposit? && s.chain[h].status.Mined? && MovesAt(s, h, a, users)
      :: s.chain[h].effect.wei
  }

  /** Committed deposits whose mint goes to the address and has not mined. */
  ghost function UnminedAt(s: State, a: Address, users: set<UserId>): map<BankTxId, nat> {
    map k | k in s.db.deposits && !IsMined(s.chain, s.db.deposits[k].txHash) && MovesAt(s, s.db.deposits[k].txHash, a, users)
      :: s.db.deposits[k].uzs
  }

  /** Everybody a transaction was ever sent for. */
  ghost function Everybody(s: State): set<UserId> {
    set h | h in s.chain && TargetOf(s.chain[h].effect).Some? :: TargetOf(s.chain[h].effect).value.0
  }

  /** The wei burned from an address; minted to it by deposits; and still to be minted to it. */
  ghost function BurnedFrom(s: State, a: Address): nat {
    Total(BurnsAt(s, a, Everybody(s)))
  }

  ghost function MintedTo(s: State, a: Address): nat {
    Total(MintsAt(s, a, Everybody(s)))
  }

  ghost function UnminedTo(s: State, a: Address): nat {
    Total(UnminedAt(s, a, Everybody(s)))
  }

  // ---------------------------------------------------------------- bindings that last

  /** No action binds a second wallet to a user. */
  ghost predicate NoRebinding(states: seq<State>, actions: seq<Action>)
    requires |states| == |actions| + 1
  {
    forall i :: 0 <= i < |actions| ==> KeepsBindings(states[i], states[i + 1])
  }

  ghost predicate KeepsBindings(s: State, s': State) {
    forall u :: u in s.db.wallets ==> u in s'.db.wallets && s'.db.wallets[u] == s.db.wallets[u]
  }

  lemma {:induction false} BindingsLast(states: seq<State>, actions: seq<Action>, i: nat, j: nat)
    requires |states| == |actions| + 1 && i <= j < |states| && NoRebinding(states, actions)
    ensures KeepsBindings(states[i], states[j])
    decreases j
  {
    if i < j {
      BindingsLast(states, actions, i, j - 1);
      assert KeepsBindings(states[j - 1], states[j - 1 + 1]);
    }
  }

  /** Every transaction for a user goes to the one wallet the user has. */
  ghost predicate OneWallet(s: State) {
    forall h :: h in s.chain && TargetOf(s.chain[h].effect).Some? ==>
      var b := TargetOf(s.chain[h].effect).value; b.0 in s.db.wallets && s.db.wallets[b.0] == b.1
  }

  lemma OneWalletRun(c: Config, states: seq<State>, actions: seq<Action>, i: nat)
    requires IsRun(c, states, actions) && i < |states| && NoRebinding(states, actions)
    ensures OneWallet(states[i])
  {
    forall h | h in states[i].chain && TargetOf(states[i].chain[h].effect).Some?
      ensures var b := TargetOf(states[i].chain[h].effect).value; b.0 in states[i].db.wallets && states[i].db.wallets[b.0] == b.1
    {
      var j := TargetWasBound(c, states, actions, i, h);
      BindingsLast(states, actions, j, i);
    }
  }

  // ---------------------------------------------------------------- one user, then all of them

  ghost predicate Covered(s: State, a: Address, users: set<UserId>) {
    Total(BurnsAt(s, a, users)) <= Total(MintsAt(s, a, users)) + UNIT * Total(UnminedAt(s, a, users))
  }

  lemma NobodyIsCovered(s: State, a: Address)
    ensures Covered(s, a, {})
  {
    assert BurnsAt(s, a, {}) == map[];
  }

  /** A user whose wallet is another address moves nothing here. */
  lemma StrangerIsCovered(s: State, a: Address, u: UserId)
    requires OneWallet(s) && (u in s.db.wallets ==> s.db.wallets[u] != a)
    ensures Covered(s, a, {u})
  {
    assert BurnsAt(s, a, {u}) == map[];
  }

  lemma OwnerBurns(s: State, a: Address, u: UserId)
    requires OneWallet(s) && u in s.db.wallets && s.db.wallets[u] == a
    ensures BurnsAt(s, a, {u}) == MinedBurns(s, u) && MintsAt(s, a, {u}) == MinedMints(s, u)
  {
  }

  lemma OwnerUnmined(s: State, a: Address, u: UserId, k: BankTxId)
    requires OneWallet(s) && u in s.db.wallets && s.db.wallets[u] == a && k in s.db.deposits && DepositOk(s, k)
    ensures MovesAt(s, s.db.deposits[k].txHash, a, {u}) <==> s.db.deposits[k].user == u
  {
  }

  lemma OwnerDeposits(s: State, a: Address, u: UserId)
    requires DbOk(s) && OneWallet(s) && u in s.db.wallets && s.db.wallets[u] == a
    ensures UnminedAt(s, a, {u}) == DepositsByMint(s, u, false)
  {
    forall k | k in s.db.deposits ensures MovesAt(s, s.db.deposits[k].txHash, a, {u}) <==> s.db.deposits[k].user == u {
      OwnerUnmined(s, a, u, k);
    }
  }

  lemma UserIsCovered(c: Config, states: seq<State>, actions: seq<Action>, i: nat, a: Address, u: UserId)
    requires IsRun(c, states, actions) && i < |states| && OneWallet(states[i])
    ensures Covered(states[i], a, {u})
  {
    var s := states[i];
    if u in s.db.wallets && s.db.wallets[u] == a {
      InvRun(c, states, actions, i);
      OwnerBurns(s, a, u);
      OwnerDeposits(s, a, u);
      Conservation(c, states, actions, i, u);
    } else {
      StrangerIsCovered(s, a, u);
    }
  }

  lemma OneMoreBurns(s: State, a: Address, users: set<UserId>, u: UserId)
    requires u !in users
    ensures Total(BurnsAt(s, a, users + {u})) == Total(BurnsAt(s, a, users)) + Total(BurnsAt(s, a, {u}))
  {
    assert BurnsAt(s, a, users + {u}) == BurnsAt(s, a, users) + BurnsAt(s, a, {u});
    TotalSplit(BurnsAt(s, a, users), BurnsAt(s, a, {u}));
  }

  lemma OneMoreMints(s: State, a: Address, users: set<UserId>, u: UserId)
    requires u !in users
    ensures Total(MintsAt(s, a, users + {u})) == Total(MintsAt(s, a, users)) + Total(MintsAt(s, a, {u}))
  {
    assert MintsAt(s, a, users + {u}) == MintsAt(s, a, users) + MintsAt(s, a, {u});
    TotalSplit(MintsAt(s, a, users), MintsAt(s, a, {u}));
  }

  lemma OneMoreUnmined(s: State, a: Address, users: set<UserId>, u: UserId)
    requires u !in users
    ensures Total(UnminedAt(s, a, users + {u})) == Total(UnminedAt(s, a, users)) + Total(UnminedAt(s, a, {u}))
  {
    assert UnminedAt(s, a, users + {u}) == UnminedAt(s, a, users) + UnminedAt(s, a, {u});
    TotalSplit(UnminedAt(s, a, users), UnminedAt(s, a, {u}));
  }

  lemma CoverMore(s: State, a: Address, users: set<UserId>, u: UserId)
    requires u !in users && Covered(s, a, users) && Covered(s, a, {u})
    ensures Covered(s, a, users + {u})
  {
    OneMoreBurns(s, a, users, u);
    OneMoreMints(s, a, users, u);
    OneMoreUnmined(s, a, users, u);
    Distribute(UNIT, Total(UnminedAt(s, a, users)), Total(UnminedAt(s, a, {u})));
  }

  lemma {:induction false} AllAreCovered(s: State, a: Address, users: set<UserId>)
    requires forall u :: u in users ==> Covered(s, a, {u})
    ensures Covered(s, a, users)
    decreases |users|
  {
    if users == {} {
      NobodyIsCovered(s, a);
    } else {
      var u :| u in users;
      AllAreCovered(s, a, users - {u});
      CoverMore(s, a, users - {u}, u);
      assert users - {u} + {u} == users;
    }
  }

  /** In a run that binds nobody a second wallet, what is burned from an address is at most what deposits
      minted to that address, plus its committed deposits whose mint has not mined: no burn reaches
      tokens from anywhere else, even where users share an address. */
  lemma AddressConservation(c: Config, states: seq<State>, actions: seq<Action>, i: nat, a: Address)
    requires IsRun(c, states, actions) && i < |states| && NoRebinding(states, actions)
    ensures BurnedFrom(states[i], a) <= MintedTo(states[i], a) + UNIT * UnminedTo(states[i], a)
  {
    OneWalletRun(c, states, actions, i);
    forall u | u in Everybody(states[i]) ensures Covered(states[i], a, {u}) {
      UserIsCovered(c, states, actions, i, a, u);
    }
    AllAreCovered(states[i], a, Everybody(states[i]));
  }
}
