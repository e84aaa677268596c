/** Runs that show the bounds to be exact: burned wei may exceed minted wei by any deposits whose mint
    timed out, a second wallet moves a burn to another address, a row inserted past the filing cap may
    be refused at confirm, and a drip that timed out may be sent again. */
module BankWitness {
  import opened Sums
  import opened Common
  import opened BankModel
  import opened BankMoney
  import opened BankAddresses
  import opened BankDrips
  import opened BankReach

  const WALLET: Address := 7

  function Bound(u: UserId): Db {
    NO_ROWS.(wallets := map[u := WALLET])
  }

  lemma WalletIsBound(c: Config, u: UserId) returns (s: State)
    ensures Reachable(c, s) && s == State(Bound(u), map[], map[], map[], map[], map[])
  {
    var s0 := State(NO_ROWS, map[], map[], map[], map[], map[]);
    Start(c, s0);
    s := s0.(db := Bound(u));
    Then(c, s0, BindWallet(u, WALLET), s);
  }

  // ---------------------------------------------------------------- burned beyond minted

  /** A deposit of n for u with its mint recorded, and by now b as wallet; then also a pending withdrawal
      of all of it. */
  function Paid(u: UserId, n: nat, b: Address): Db {
    NO_ROWS.(wallets := map[u := b], deposits := map["d" := Deposit(u, n, n * UNIT, 0)])
  }

  function Filed(u: UserId, n: nat, b: Address): Db {
    WithFiled(Paid(u, n, b), 0, u, n, n * UNIT)
  }

  ghost predicate IsMint(s: State, u: UserId, n: nat, mined: bool) {
    0 in s.chain && s.chain[0].effect == MintDeposit("d", u, WALLET, n * UNIT) && s.chain[0].status.Mined? == mined
  }

  /** The deposit's mint is all there is on chain; one more send gets nonce 1. */
  ghost predicate MintOnly(c: Config, s: State, u: UserId, n: nat, mined: bool) {
    && s.chain.Keys == {0} && IsMint(s, u, n, mined)
    && SignerAt(s, c.signerOf(BankOps)).counter == Some(1) && SignerAt(s, c.signerOf(BankOps)).count == 0
    && s.inserted == map[]
  }

  lemma DepositIsReserved(c: Config, u: UserId, n: nat) returns (s: State)
    ensures Reachable(c, s) && s.db == Bound(u) && s.chain == map[] && s.signers == map[] && s.inserted == map[]
    ensures s.reqs == map[0 := Request(DepositFor(u, n, "d"), u, WALLET, n, n * UNIT, Sending(Main, Resolving))]
    ensures s.locks == map[DepositKey("d") := 0]
  {
    var s1 := WalletIsBound(c, u);
    var s2 := Enter(c, s1, 0, DepositFor(u, n, "d"));
    s := Take(s2, 0, DepositKey("d"), Sending(Main, Resolving));
    assert StepReserveKey(s2, 0, s);
    Then(c, s2, ReserveKey(0), s);
  }

  lemma DepositIsSigned(c: Config, u: UserId, n: nat) returns (s: State)
    ensures Reachable(c, s) && s.db == Bound(u) && s.chain == map[] && s.inserted == map[]
    ensures s.reqs == map[0 := Request(DepositFor(u, n, "d"), u, WALLET, n, n * UNIT, Sending(Main, Sign(false)))]
    ensures s.locks == map[DepositKey("d") := 0, SignerKey(c.signerOf(BankOps)) := 0]
    ensures s.signers == map[c.signerOf(BankOps) := Signer(Some(0), 0, [], true)]
  {
    var s0 := DepositIsReserved(c, u, n);
    var s1 := ToSigner(c, s0, 0, Main);
    s := FirstNonce(c, s1, 0, Main);
  }

  lemma DepositIsSent(c: Config, u: UserId, n: nat) returns (s: State)
    ensures Reachable(c, s) && s.db == Bound(u) && s.reqs.Keys == {0} && MintOnly(c, s, u, n, false)
    ensures s.reqs[0] == Request(DepositFor(u, n, "d"), u, WALLET, n, n * UNIT, Waiting(Main, 0))
    ensures s.locks == map[DepositKey("d") := 0] && s.chain[0].status.Accepted?
  {
    var s0 := DepositIsSigned(c, u, n);
    s := Send(c, s0, 0, 0);
  }

  /** The only request is done and the wallet is b. */
  ghost predicate DepositDone(c: Config, s: State, u: UserId, n: nat, b: Address, mined: bool) {
    Reachable(c, s) && s.db == Paid(u, n, b) && s.reqs.Keys == {0} && s.locks == map[] && MintOnly(c, s, u, n, mined)
  }

  lemma SettleDeposit(c: Config, s0: State, u: UserId, n: nat, parked: bool, mined: bool) returns (s: State)
    requires Reachable(c, s0) && s0.db == Bound(u) && s0.reqs.Keys == {0} && MintOnly(c, s0, u, n, mined)
    requires s0.reqs[0] == Request(DepositFor(u, n, "d"), u, WALLET, n, n * UNIT, Settling(0, parked))
    requires s0.locks == map[DepositKey("d") := 0]
    ensures DepositDone(c, s, u, n, WALLET, mined)
  {
    s := End(s0, 0, Committed(s0.db, 0, s0.reqs[0], 0, parked), Done);
    Then(c, s0, Settle(0), s);
  }

  /** The mint is given up on. */
  lemma DepositIsParked(c: Config, u: UserId, n: nat) returns (s: State)
    ensures DepositDone(c, s, u, n, WALLET, false)
  {
    var s0 := DepositIsSent(c, u, n);
    var s1 := GotoPc(s0, 0, Settling(0, true)).(chain := s0.chain[0 := s0.chain[0].(abandoned := true)]);
    Then(c, s0, Timeout(0), s1);
    s := SettleDeposit(c, s1, u, n, true, false);
  }

  /** The mint mines and is seen. */
  lemma DepositIsMined(c: Config, u: UserId, n: nat) returns (s: State)
    ensures DepositDone(c, s, u, n, WALLET, true)
  {
    var s0 := DepositIsSent(c, u, n);
    var s1 := s0.(chain := s0.chain[0 := s0.chain[0].(status := Mined)]);
    Then(c, s0, Mine(0, Mined), s1);
    var s2 := GotoPc(s1, 0, Settling(0, false));
    Then(c, s1, Receipt(0), s2);
    s := SettleDeposit(c, s2, u, n, false, true);
  }

  /** Another wallet takes the place of the first. */
  lemma WalletIsRebound(c: Config, u: UserId, n: nat, b: Address) returns (s: State)
    ensures DepositDone(c, s, u, n, b, true)
  {
    var s0 := DepositIsMined(c, u, n);
    s := s0.(db := Paid(u, n, b));
    Then(c, s0, BindWallet(u, b), s);
  }

  lemma PaidSums(u: UserId, n: nat, b: Address)
    ensures Deposited(Paid(u, n, b), u) == n && Outstanding(Paid(u, n, b), u) == 0
  {
    assert DepositsOf(Paid(u, n, b), u) == map["d" := n];
    TotalInsert(map[], "d", n);
    assert WithdrawalsOf(Paid(u, n, b), u, {Pending, Confirmed, Reconcile}) == map[];
  }

  lemma FiledSums(u: UserId, n: nat, b: Address)
    ensures Deposited(Filed(u, n, b), u) == n && Burned(Filed(u, n, b), u) == 0
  {
    PaidSums(u, n, b);
    assert DepositsOf(Filed(u, n, b), u) == DepositsOf(Paid(u, n, b), u);
    assert WithdrawalsOf(Filed(u, n, b), u, {Confirmed, Reconcile}) == map[];
  }

  lemma WithdrawalIsChecked(c: Config, s0: State, u: UserId, n: nat, b: Address, mined: bool) returns (s: State)
    requires DepositDone(c, s0, u, n, b, mined) && n > 0
    ensures Reachable(c, s) && s.db == Paid(u, n, b) && s.reqs.Keys == {0, 1} && MintOnly(c, s, u, n, mined)
    ensures s.reqs[1] == Request(File(u, n), u, b, n, n * UNIT, Capping(n, 0))
    ensures s.locks == map[Advisory(c.lockKey(u)) := 1]
  {
    PaidSums(u, n, b);
    var s1 := Enter(c, s0, 1, File(u, n));
    var s2 := TakeLock(c, s1, 1);
    s := ReadBoth(c, s2, 1, 0);
  }

  lemma WithdrawalIsFiled(c: Config, s0: State, u: UserId, n: nat, b: Address, mined: bool) returns (s: State)
    requires DepositDone(c, s0, u, n, b, mined) && n > 0
    ensures Reachable(c, s) && s.db == Filed(u, n, b) && s.reqs.Keys == {0, 1} && s.locks == map[] && MintOnly(c, s, u, n, mined)
  {
    var s1 := WithdrawalIsChecked(c, s0, u, n, b, mined);
    var s2 := GotoPc(s1, 1, Filing);
    Then(c, s1, CheckCap(1), s2);
    s := End(s2, 1, Filed(u, n, b), Done);
    Then(c, s2, CommitFile(1, 0), s);
  }

  lemma ConfirmIsChecked(c: Config, s0: State, u: UserId, n: nat, b: Address, mined: bool) returns (s: State)
    requires DepositDone(c, s0, u, n, b, mined) && n > 0
    ensures Reachable(c, s) && s.db == Filed(u, n, b) && MintOnly(c, s, u, n, mined)
    ensures 2 in s.reqs && s.reqs[2] == Request(Confirm(0), u, b, n, n * UNIT, Sending(Main, Resolving))
    ensures SignerKey(c.signerOf(BankOps)) !in s.locks
  {
    var s1 := WithdrawalIsFiled(c, s0, u, n, b, mined);
    FiledSums(u, n, b);
    var s2 := ConfirmUpToGuard(c, s1, 2, 0, u, b, n);
    s := GotoPc(s2, 2, Sending(Main, Resolving));
    Then(c, s2, CheckCap(2), s);
  }

  ghost predicate BurnOnTop(s: State, u: UserId, n: nat, b: Address, mined: bool, status: TxStatus) {
    && s.db == Filed(u, n, b) && s.chain.Keys == {0, 1} && s.inserted == map[] && IsMint(s, u, n, mined)
    && s.chain[1].effect == Burn(0, u, b, n * UNIT) && s.chain[1].status == status
  }

  lemma BurnIsSent(c: Config, s0: State, u: UserId, n: nat, b: Address, mined: bool) returns (s: State)
    requires DepositDone(c, s0, u, n, b, mined) && n > 0
    ensures Reachable(c, s) && BurnOnTop(s, u, n, b, mined, Accepted)
    ensures 2 in s.reqs && s.reqs[2] == Request(Confirm(0), u, b, n, n * UNIT, Waiting(Main, 1))
  {
    var s1 := ConfirmIsChecked(c, s0, u, n, b, mined);
    var s2 := ToSigner(c, s1, 2, Main);
    s := Send(c, s2, 2, 1);
  }

  /** From there the whole deposit is withdrawn and its burn mines. */
  lemma BurnMines(c: Config, s0: State, u: UserId, n: nat, b: Address, mined: bool) returns (s: State)
    requires DepositDone(c, s0, u, n, b, mined) && n > 0
    ensures Reachable(c, s) && BurnOnTop(s, u, n, b, mined, Mined)
  {
    var s1 := BurnIsSent(c, s0, u, n, b, mined);
    s := s1.(chain := s1.chain[1 := s1.chain[1].(status := Mined)]);
    Then(c, s1, Mine(1, Mined), s);
  }

  lemma WitnessSums(s: State, u: UserId, n: nat)
    requires BurnOnTop(s, u, n, WALLET, false, Mined)
    ensures BurnedWei(s, u) == n * UNIT && MintedWei(s, u) == 0 && Total(DepositsByMint(s, u, false)) == n
  {
    var none: map<Hash, nat> := map[];
    assert MinedBurns(s, u) == none[1 := n * UNIT];
    TotalInsert(none, 1, n * UNIT);
    assert MinedMints(s, u) == map[];
    assert DepositsByMint(s, u, false) == map["d" := n];
    TotalInsert(map[], "d", n);
  }

  /** For every user and every amount, whatever the lock keys and signers are, some run with no row
      inserted past the cap burns the amount although nothing was minted, and meets the bound of
      Conservation exactly. */
  lemma BurnedMayExceedMinted(c: Config, u: UserId, n: nat) returns (states: seq<State>, actions: seq<Action>)
    requires n > 0
    ensures IsRun(c, states, actions) && InsertedBy(actions, |actions|, u) == 0
    ensures var s := states[|actions|];
            BurnedWei(s, u) == n * UNIT && MintedWei(s, u) == 0 && Total(DepositsByMint(s, u, false)) == n
  {
    var s0 := DepositIsParked(c, u, n);
    var s := BurnMines(c, s0, u, n, WALLET, false);
    WitnessSums(s, u, n);
    states, actions :| EndsIn(c, states, actions, s);
    InsertedRun(c, states, actions, |actions|, u);
  }

  /** Whenever the deposits of u whose mint has not mined add up to n, burned is at most minted. */
  ghost predicate MintsCoverBurns(c: Config, u: UserId, n: nat) {
    forall states, actions, i: nat ::
      IsRun(c, states, actions) && i < |states| && Total(DepositsByMint(states[i], u, false)) == n
      ==> BurnedWei(states[i], u) <= MintedWei(states[i], u)
  }

  /** "Burned is at most minted" holds exactly when no deposits have an unmined mint. */
  lemma BurnedIsMintedExactly(c: Config, u: UserId, n: nat)
    ensures MintsCoverBurns(c, u, n) <==> n == 0
  {
    if n == 0 {
      forall states, actions, i: nat |
        IsRun(c, states, actions) && i < |states| && Total(DepositsByMint(states[i], u, false)) == n
        ensures BurnedWei(states[i], u) <= MintedWei(states[i], u)
      {
        Conservation(c, states, actions, i, u);
      }
    } else {
      var states, actions := BurnedMayExceedMinted(c, u, n);
    }
  }

  // ---------------------------------------------------------------- burned at another address

  lemma ReboundSums(s: State, u: UserId, n: nat, b: Address)
    requires BurnOnTop(s, u, n, b, true, Mined) && b != WALLET
    ensures BurnedFrom(s, b) == n * UNIT && MintedTo(s, b) == 0 && UnminedTo(s, b) == 0
  {
    var none: map<Hash, nat> := map[];
    assert MovesAt(s, 1, b, Everybody(s));
    assert BurnsAt(s, b, Everybody(s)) == none[1 := n * UNIT];
    TotalInsert(none, 1, n * UNIT);
    assert MintsAt(s, b, Everybody(s)) == map[];
    assert UnminedAt(s, b, Everybody(s)) == map[];
  }

  /** A second wallet for one user is enough to undo AddressConservation: for every user, every amount
      and every other address some run burns the amount from an address nothing was minted to. */
  lemma RebindingReachesOthers(c: Config, u: UserId, n: nat, b: Address) returns (states: seq<State>, actions: seq<Action>)
    requires n > 0 && b != WALLET
    ensures IsRun(c, states, actions) && InsertedBy(actions, |actions|, u) == 0
    ensures var s := states[|actions|]; BurnedFrom(s, b) == n * UNIT && MintedTo(s, b) == 0 && UnminedTo(s, b) == 0
  {
    var s0 := WalletIsRebound(c, u, n, b);
    var s := BurnMines(c, s0, u, n, b, true);
    ReboundSums(s, u, n, b);
    states, actions :| EndsIn(c, states, actions, s);
    InsertedRun(c, states, actions, |actions|, u);
  }

  // ---------------------------------------------------------------- refused at confirm

  /** Whenever rows of n in all were inserted for u past the cap, the guard still passes u's confirms. */
  ghost predicate GuardPassesAt(c: Config, u: UserId, n: nat) {
    forall states: seq<State>, actions: seq<Action>, i: nat, r: RequestId ::
      IsRun(c, states, actions) && ConfirmsAt(states, actions, i, r, u) && InsertedBy(actions, i, u) == n
      ==> r in states[i + 1].reqs && states[i + 1].reqs[r].pc == Sending(Main, Resolving)
  }

  function Slipped(u: UserId, n: nat): Db {
    WithFiled(Bound(u), 0, u, n, n * UNIT)
  }

  lemma SlippedSums(u: UserId, n: nat)
    ensures Deposited(Slipped(u, n), u) == 0 && Burned(Slipped(u, n), u) == 0 && Outstanding(Slipped(u, n), u) == n
  {
    assert DepositsOf(Slipped(u, n), u) == map[];
    assert WithdrawalsOf(Slipped(u, n), u, {Confirmed, Reconcile}) == map[];
    var none: map<WithdrawalId, nat> := map[];
    assert WithdrawalsOf(Slipped(u, n), u, {Pending, Confirmed, Reconcile}) == none[0 := n];
    TotalInsert(none, 0, n);
  }

  lemma SlippedIsChecked(c: Config, u: UserId, n: nat) returns (s: State)
    ensures Reachable(c, s) && s.db == Slipped(u, n) && Inserted(s, u) == n && 0 in s.reqs
    ensures s.reqs[0] == Request(Confirm(0), u, WALLET, n, n * UNIT, Capping(0, n))
  {
    var s0 := WalletIsBound(c, u);
    var s1 := s0.(db := Slipped(u, n), inserted := map[u := n]);
    Then(c, s0, InsertPending(0, u, n), s1);
    SlippedSums(u, n);
    s := ConfirmUpToGuard(c, s1, 0, 0, u, WALLET, n);
  }

  /** The guard turns an inserted row down, and the bound of OutstandingIsDeposited is reached. */
  lemma InsertedMayBeRefused(c: Config, u: UserId, n: nat)
    returns (states: seq<State>, actions: seq<Action>, i: nat, r: RequestId)
    requires n > 0
    ensures IsRun(c, states, actions) && ConfirmsAt(states, actions, i, r, u) && InsertedBy(actions, i, u) == n
    ensures r in states[i + 1].reqs && states[i + 1].reqs[r].pc.Done?
    ensures Outstanding(states[i].db, u) == Deposited(states[i].db, u) + InsertedBy(actions, i, u)
  {
    var s := SlippedIsChecked(c, u, n);
    SlippedSums(u, n);
    var s' := End(s, 0, s.db, Done);
    var before, done :| EndsIn(c, before, done, s);
    Extend(c, before, done, s, CheckCap(0), s');
    states, actions, i, r := before + [s'], done + [CheckCap(0)], |done|, 0;
    InsertedRun(c, states, actions, i, u);
    assert states[i] == s && states[i + 1] == s';
  }

  /** Confirms of u always pass the guard exactly when nothing was inserted for u past the cap. */
  lemma ConfirmPassesExactly(c: Config, u: UserId, n: nat)
    ensures GuardPassesAt(c, u, n) <==> n == 0
  {
    if n == 0 {
      forall states: seq<State>, actions: seq<Action>, i: nat, r: RequestId |
        IsRun(c, states, actions) && ConfirmsAt(states, actions, i, r, u) && InsertedBy(actions, i, u) == n
        ensures r in states[i + 1].reqs && states[i + 1].reqs[r].pc == Sending(Main, Resolving)
      {
        ConfirmNeverRefuses(c, states, actions, i, r, u);
      }
    } else {
      var states, actions, i, r := InsertedMayBeRefused(c, u, n);
    }
  }

  // ---------------------------------------------------------------- a drip on top of a drip

  function Claimant(u: UserId, pc: Pc): Request {
    Request(Welcome(u), u, WALLET, 0, 0, pc)
  }

  /** A claim of u that reads a balance of nothing is about to send a drip. */
  lemma DripIsDue(c: Config, s: State, r: RequestId, u: UserId) returns (s': State)
    requires Reachable(c, s) && r !in s.reqs && s.locks == map[] && s.db == Bound(u) && c.dripThreshold > 0
    ensures Reachable(c, s') && s'.locks == map[Advisory(c.lockKey(u)) := r]
    ensures s' == s.(reqs := s.reqs[r := Claimant(u, Sending(Gas, Resolving))], locks := s'.locks)
  {
    var s1 := Enter(c, s, r, Welcome(u));
    var s2 := TakeLock(c, s1, r);
    s' := GotoPc(s2, r, Sending(Gas, Resolving));
    Then(c, s2, ReadBalance(r, Some(0)), s');
  }

  lemma FirstDripIsSigned(c: Config, u: UserId) returns (s: State)
    requires c.dripThreshold > 0
    ensures Reachable(c, s) && s.db == Bound(u) && s.chain == map[]
    ensures s.reqs == map[0 := Claimant(u, Sending(Gas, Sign(false)))]
    ensures s.locks == map[Advisory(c.lockKey(u)) := 0, SignerKey(c.signerOf(BankOps)) := 0]
    ensures s.signers == map[c.signerOf(BankOps) := Signer(Some(0), 0, [], true)]
  {
    var s0 := WalletIsBound(c, u);
    var s1 := DripIsDue(c, s0, 0, u);
    var s2 := ToSigner(c, s1, 0, Gas);
    s := FirstNonce(c, s2, 0, Gas);
  }

  /** One drip to u is all there is on chain; it may still mine. */
  ghost predicate FirstDripOnly(c: Config, s: State, u: UserId) {
    && s.db == Bound(u) && s.reqs.Keys == {0} && s.chain.Keys == {0}
    && IsDrip(s.chain, 0, u) && s.chain[0].status.Accepted?
    && SignerAt(s, c.signerOf(BankOps)).counter == Some(1) && SignerAt(s, c.signerOf(BankOps)).count == 0
  }

  lemma FirstDripIsSent(c: Config, u: UserId) returns (s: State)
    requires c.dripThreshold > 0
    ensures Reachable(c, s) && FirstDripOnly(c, s, u) && s.reqs[0] == Claimant(u, Waiting(Gas, 0))
    ensures s.locks == map[Advisory(c.lockKey(u)) := 0]
  {
    var s0 := FirstDripIsSigned(c, u);
    s := Send(c, s0, 0, 0);
  }

  lemma FirstDripTimesOut(c: Config, u: UserId) returns (s: State)
    requires c.dripThreshold > 0
    ensures Reachable(c, s) && FirstDripOnly(c, s, u) && s.chain[0].abandoned
    ensures s.reqs[0] == Claimant(u, Reserving) && s.locks == map[Advisory(c.lockKey(u)) := 0]
  {
    var s0 := FirstDripIsSent(c, u);
    s := GotoPc(s0, 0, Reserving).(chain := s0.chain[0 := s0.chain[0].(abandoned := true)]);
    Then(c, s0, Timeout(0), s);
  }

  lemma FirstClaimIsReserved(c: Config, u: UserId) returns (s: State)
    requires c.dripThreshold > 0
    ensures Reachable(c, s) && FirstDripOnly(c, s, u) && s.chain[0].abandoned
    ensures s.reqs[0] == Claimant(u, Sending(Main, Resolving))
    ensures s.locks == map[Advisory(c.lockKey(u)) := 0, ClaimKey(u) := 0]
  {
    var s0 := FirstDripTimesOut(c, u);
    s := Take(s0, 0, ClaimKey(u), Sending(Main, Resolving));
    Then(c, s0, ReserveKey(0), s);
  }

  lemma FirstClaimFails(c: Config, u: UserId) returns (s: State)
    requires c.dripThreshold > 0
    ensures Reachable(c, s) && FirstDripOnly(c, s, u) && s.chain[0].abandoned && s.locks == map[]
  {
    var s0 := FirstClaimIsReserved(c, u);
    var s1 := GotoPc(s0, 0, Failing);
    Then(c, s0, Resolve(0, false), s1);
    s := End(s1, 0, s1.db, Done);
    Then(c, s1, Rollback(0), s);
  }

  lemma SecondDripIsSigned(c: Config, u: UserId) returns (s: State)
    requires c.dripThreshold > 0
    ensures Reachable(c, s) && Signing(c, s, 1) && s.reqs[1] == Claimant(u, Sending(Gas, Sign(false)))
    ensures SignerAt(s, SignerFor(c, s.reqs[1])).counter == Some(1) && SignerAt(s, SignerFor(c, s.reqs[1])).count == 0
    ensures s.chain.Keys == {0} && IsDrip(s.chain, 0, u) && s.chain[0].status.Accepted? && s.chain[0].abandoned
  {
    var s0 := FirstClaimFails(c, u);
    var s1 := DripIsDue(c, s0, 1, u);
    s := ToSigner(c, s1, 1, Gas);
  }

  /** A second drip to the same user is accepted at step i while the first, which timed out, can still
      mine: for every user and every threshold at which drips are made at all. */
  lemma DripMayRepeat(c: Config, u: UserId)
    returns (states: seq<State>, actions: seq<Action>, i: nat, first: Hash, second: Hash)
    requires c.dripThreshold > 0
    ensures IsRun(c, states, actions) && i < |actions| && actions[i] == Broadcast(1, Taken(second)) && first != second
    ensures IsDrip(states[i + 1].chain, second, u) && states[i + 1].chain[second].status.Accepted?
    ensures IsDrip(states[i + 1].chain, first, u) && states[i + 1].chain[first].status.Accepted?
  {
    var s := SecondDripIsSigned(c, u);
    var s' := AfterTaken(c, s, 1, 1);
    assert StepTaken(c, s, 1, 1, s');
    var before, done :| EndsIn(c, before, done, s);
    Extend(c, before, done, s, Broadcast(1, Taken(1)), s');
    states, actions, i, first, second := before + [s'], done + [Broadcast(1, Taken(1))], |done|, 0, 1;
    assert states[i + 1] == s';
  }

  // ---------------------------------------------------------------- every end is reached

  /** The burn's confirm is about to commit: the burn was seen mined, or given up on. */
  lemma BurnIsKnown(c: Config, u: UserId, n: nat, parked: bool) returns (s: State)
    requires n > 0
    ensures Reachable(c, s) && s.db == Filed(u, n, WALLET) && 2 in s.reqs
    ensures s.reqs[2] == Request(Confirm(0), u, WALLET, n, n * UNIT, Settling(1, parked))
  {
    var s0 := DepositIsMined(c, u, n);
    var s1 := BurnIsSent(c, s0, u, n, WALLET, true);
    if parked {
      s := GotoPc(s1, 2, Settling(1, true)).(chain := s1.chain[1 := s1.chain[1].(abandoned := true)]);
      Then(c, s1, Timeout(2), s);
    } else {
      var s2 := s1.(chain := s1.chain[1 := s1.chain[1].(status := Mined)]);
      Then(c, s1, Mine(1, Mined), s2);
      s := GotoPc(s2, 2, Settling(1, false));
      Then(c, s2, Receipt(2), s);
    }
  }

  /** For every user and amount, a run that deposits the amount, files it and confirms it: the row ends
      confirmed with its burn's hash, or parked with it when the burn timed out. */
  lemma WithdrawalsEndConfirmedOrParked(c: Config, u: UserId, n: nat, parked: bool)
    returns (states: seq<State>, actions: seq<Action>)
    requires n > 0
    ensures IsRun(c, states, actions) && 0 in states[|actions|].db.withdrawals
    ensures states[|actions|].db.withdrawals[0]
         == Withdrawal(u, n, n * UNIT, if parked then Reconcile else Confirmed, Some(1))
  {
    var s := BurnIsKnown(c, u, n, parked);
    var s' := End(s, 2, Committed(s.db, 2, s.reqs[2], 1, parked), Done);
    Then(c, s, Settle(2), s');
    states, actions :| EndsIn(c, states, actions, s');
  }

  /** And one that files it and rejects it, after which all of the deposit can be withdrawn again. */
  lemma WithdrawalsEndRejected(c: Config, u: UserId, n: nat) returns (states: seq<State>, actions: seq<Action>)
    requires n > 0
    ensures IsRun(c, states, actions) && 0 in states[|actions|].db.withdrawals
    ensures states[|actions|].db.withdrawals[0] == Withdrawal(u, n, n * UNIT, Rejected, None)
    ensures Outstanding(states[|actions|].db, u) == 0 && Deposited(states[|actions|].db, u) == n
  {
    var s0 := DepositIsMined(c, u, n);
    var s1 := WithdrawalIsFiled(c, s0, u, n, WALLET, true);
    var s2 := Enter(c, s1, 2, Reject(0));
    var s3 := Take(s2, 2, Row(0), Rejecting);
    Then(c, s2, ClaimRow(2), s3);
    var s' := End(s3, 2, WithRejected(s3.db, 0), Done);
    Then(c, s3, CommitReject(2), s');
    RejectedWitnessSums(u, n);
    states, actions :| EndsIn(c, states, actions, s');
  }

  lemma RejectedWitnessSums(u: UserId, n: nat)
    ensures var db := WithRejected(Filed(u, n, WALLET), 0); Outstanding(db, u) == 0 && Deposited(db, u) == n
  {
    var db := WithRejected(Filed(u, n, WALLET), 0);
    FiledSums(u, n, WALLET);
    assert DepositsOf(db, u) == DepositsOf(Filed(u, n, WALLET), u);
    assert WithdrawalsOf(db, u, {Pending, Confirmed, Reconcile}) == map[];
  }

  lemma ClaimIsReserved(c: Config, u: UserId) returns (s: State)
    ensures Reachable(c, s) && s.db == Bound(u) && s.chain == map[] && s.signers == map[]
    ensures s.reqs == map[0 := Claimant(u, Sending(Main, Resolving))]
    ensures s.locks == map[Advisory(c.lockKey(u)) := 0, ClaimKey(u) := 0]
  {
    var s0 := WalletIsBound(c, u);
    var s1 := Enter(c, s0, 0, Welcome(u));
    var s2 := TakeLock(c, s1, 0);
    var s3 := GotoPc(s2, 0, Reserving);
    Then(c, s2, ReadBalance(0, None), s3);
    s := Take(s3, 0, ClaimKey(u), Sending(Main, Resolving));
    Then(c, s3, ReserveKey(0), s);
  }

  /** The welcome mint is the only transaction; one more send gets nonce 1. */
  ghost predicate WelcomeMintOnly(c: Config, s: State, u: UserId) {
    && s.chain.Keys == {0} && s.chain[0].effect == MintWelcome(u, WALLET)
    && SignerAt(s, c.signerOf(BankOps)).counter == Some(1) && SignerAt(s, c.signerOf(BankOps)).count == 0
  }

  lemma ClaimIsSent(c: Config, u: UserId) returns (s: State)
    ensures Reachable(c, s) && s.db == Bound(u) && WelcomeMintOnly(c, s, u) && s.chain[0].status.Accepted?
    ensures s.reqs == map[0 := Claimant(u, Waiting(Main, 0))]
    ensures forall x :: x in s.locks ==> s.locks[x] == 0
  {
    var s0 := ClaimIsReserved(c, u);
    var s1 := ToSigner(c, s0, 0, Main);
    var s2 := FirstNonce(c, s1, 0, Main);
    s := Send(c, s2, 0, 0);
  }

  lemma ClaimIsSettled(c: Config, u: UserId) returns (s: State)
    ensures Reachable(c, s) && WelcomeMintOnly(c, s, u) && u in s.db.claims
    ensures s.reqs == map[0 := Claimant(u, Sending(Bonus, Resolving))] && s.locks == map[]
  {
    var s0 := ClaimIsSent(c, u);
    var s1 := s0.(chain := s0.chain[0 := s0.chain[0].(status := Mined)]);
    Then(c, s0, Mine(0, Mined), s1);
    var s2 := GotoPc(s1, 0, Settling(0, false));
    Then(c, s1, Receipt(0), s2);
    s := End(s2, 0, Committed(s2.db, 0, s2.reqs[0], 0, false), Sending(Bonus, Resolving));
    assert StepSettle(s2, 0, s);
    Then(c, s2, Settle(0), s);
  }

  /** For every user a run whose claim ends with a gift that mined. */
  lemma GiftsMine(c: Config, u: UserId) returns (states: seq<State>, actions: seq<Action>)
    ensures IsRun(c, states, actions) && 1 in states[|actions|].chain
    ensures states[|actions|].chain[1].effect == Gift(u, WALLET) && states[|actions|].chain[1].status.Mined?
  {
    var s0 := ClaimIsSettled(c, u);
    var s1 := ToSigner(c, s0, 0, Bonus);
    var s2 := Send(c, s1, 0, 1);
    var s' := s2.(chain := s2.chain[1 := s2.chain[1].(status := Mined)]);
    Then(c, s2, Mine(1, Mined), s');
    states, actions :| EndsIn(c, states, actions, s');
  }
}
