/** The money edge of the bank connector as a transition system.

    Any number of requests run at once, each in its own READ COMMITTED transaction, with its
    own program counter and its own reads. They share the committed database, one lock table
    (per-user advisory locks, row locks, in-flight unique keys and signer locks), the nonce
    counters of the signers and an adversarial chain.

    The environment assumptions are part of the step relation:
    - a send that ends without a hash was not accepted by the node (Broadcast with Refused);
    - nothing stops a request between its broadcast and its commit (no step does so);
    - nobody else broadcasts with a signer's key, the node answers "nonce too low" exactly for
      a nonce below its count, and that count only grows (Broadcast, GrowCount);
    - a receipt says truthfully that the transaction mined or reverted (Receipt);
    - the advisory key is any function of the user (Config.lockKey);
    - primary keys (uuid4) and transaction hashes are fresh when they are made. */
module BankModel {
  import opened Common
  import opened Sums

  type UserId = nat
  type Address = nat
  type WithdrawalId = nat
  type BankTxId = string
  type AuditRef = string
  type RequestId = nat
  type Hash = nat
  type SignerId = nat

  /** One whole UZD in wei. */
  const UNIT: nat := 1_000_000_000_000_000_000

  // ---------------------------------------------------------------- database

  datatype Status = Pending | Confirmed | Rejected | Reconcile

  datatype Withdrawal = Withdrawal(user: UserId, uzd: nat, wei: nat, status: Status, txHash: Option<Hash>)

  datatype Deposit = Deposit(user: UserId, uzs: nat, wei: nat, txHash: Hash)

  datatype Attestation = Attestation(grams: nat, txHash: Hash)

  /** The row id is made by the request that inserts the row, so the request stands for it. */
  datatype Claim = Claim(id: RequestId, wallet: Address, txHash: Hash)

  /** The committed tables; each map's key is that table's unique key. */
  datatype Db = Db(
    wallets: map<UserId, Address>,
    deposits: map<BankTxId, Deposit>,
    withdrawals: map<WithdrawalId, Withdrawal>,
    attestations: map<AuditRef, Attestation>,
    claims: map<UserId, Claim>)

  ghost function DepositsOf(db: Db, u: UserId): map<BankTxId, nat> {
    map k | k in db.deposits && db.deposits[k].user == u :: db.deposits[k].uzs
  }

  /** SUM(amount_uzs) of a user's deposits. */
  ghost function Deposited(db: Db, u: UserId): nat {
    Total(DepositsOf(db, u))
  }

  ghost function WithdrawalsOf(db: Db, u: UserId, statuses: set<Status>): map<WithdrawalId, nat> {
    map w | w in db.withdrawals && db.withdrawals[w].user == u && db.withdrawals[w].status in statuses
      :: db.withdrawals[w].uzd
  }

  /** SUM(amount_uzd) of a user's withdrawals whose status is one of the given. */
  ghost function Withdrawn(db: Db, u: UserId, statuses: set<Status>): nat {
    Total(WithdrawalsOf(db, u, statuses))
  }

  ghost function Outstanding(db: Db, u: UserId): nat {
    Withdrawn(db, u, {Pending, Confirmed, Reconcile})
  }

  ghost function Burned(db: Db, u: UserId): nat {
    Withdrawn(db, u, {Confirmed, Reconcile})
  }

  // ---------------------------------------------------------------- chain

  datatype Effect =
    | MintDeposit(key: BankTxId, user: UserId, holder: Address, wei: nat)
    | Burn(wid: WithdrawalId, user: UserId, holder: Address, wei: nat)
    | PostAnswer(ref: AuditRef, grams: nat)
    | PostRate(answer: int)
    | MintWelcome(user: UserId, holder: Address)
    | Gift(user: UserId, holder: Address)
    | Drip(user: UserId, holder: Address)

  datatype TxStatus = Accepted | Mined | Reverted | Dropped

  /** abandoned: the caller gave up waiting for the receipt. */
  datatype Tx = Tx(origin: RequestId, signer: SignerId, nonce: nat, effect: Effect, status: TxStatus, abandoned: bool)

  datatype Sent = Sent(hash: Hash, nonce: nat, resynced: bool)

  /** A signer's local nonce counter, the node's count for its key, and what the node accepted
      so far in order. resynced: the counter was loaded from the node since the last acceptance. */
  datatype Signer = Signer(counter: Option<nat>, count: nat, log: seq<Sent>, resynced: bool)

  // ---------------------------------------------------------------- requests

  datatype Role = BankOps | Reserve | Uzs

  datatype Kind =
    | File(filer: UserId, amount: int)
    | Confirm(wid: WithdrawalId)
    | Reject(wid: WithdrawalId)
    | DepositFor(to: UserId, amountUzs: nat, key: BankTxId)
    | Attest(grams: nat, ref: AuditRef)
    | Welcome(claimant: UserId)
    | Fx(answer: int)

  /** Which send of a request is meant. */
  datatype Leg = Main | Bonus | Gas | Rate

  /** Inside a send: resolving the key, waiting for the signer lock, then three stages under it. */
  datatype Stage = Resolving | Queued | NeedNonce | Sign(retried: bool) | Resync

  datatype Pc =
    | Begin
    | Locking                                   // waits for the advisory lock
    | Claiming                                  // waits for the withdrawal's row
    | Reserving                                 // waits for the unique key
    | Funding                                   // about to read the wallet's ETH balance
    | SumDeposits
    | SumWithdrawals(deposited: nat)
    | Capping(deposited: nat, spent: nat)
    | Filing                                    // pending row inserted, not committed
    | Rejecting                                 // row flipped to rejected, not committed
    | Sending(leg: Leg, stage: Stage)
    | Waiting(leg: Leg, hash: Hash)             // polls for the receipt, signer lock released
    | Settling(hash: Hash, parked: bool)        // outcome known or timed out, about to commit
    | Failing                                   // main send failed, about to roll back
    | Done

  datatype Request = Request(kind: Kind, user: UserId, holder: Address, uzd: nat, wei: nat, pc: Pc)

  datatype Resource =
    | Advisory(key: int)
    | Row(wid: WithdrawalId)
    | DepositKey(bankTxId: BankTxId)
    | AuditKey(auditRef: AuditRef)
    | ClaimKey(user: UserId)
    | SignerKey(signer: SignerId)

  datatype Config = Config(lockKey: UserId -> int, signerOf: Role -> SignerId, dripThreshold: nat)

  /** inserted: per user, what pending rows that did not come through create_withdrawal add up to. */
  datatype State = State(
    db: Db,
    reqs: map<RequestId, Request>,
    locks: map<Resource, RequestId>,
    chain: map<Hash, Tx>,
    signers: map<SignerId, Signer>,
    inserted: map<UserId, nat>)

  const NO_ROWS := Db(map[], map[], map[], map[], map[])

  ghost predicate Init(s: State) {
    s == State(NO_ROWS, map[], map[], map[], map[], map[])
  }

  function SignerAt(s: State, g: SignerId): Signer {
    if g in s.signers then s.signers[g] else Signer(None, 0, [], false)
  }

  function Inserted(s: State, u: UserId): nat {
    if u in s.inserted then s.inserted[u] else 0
  }

  function RoleOf(k: Kind): Role {
    if k.Attest? then Reserve else if k.Fx? then Uzs else BankOps
  }

  /** Kinds that claim a row or a unique key. */
  predicate Reserves(k: Kind) {
    !k.File? && !k.Fx?
  }

  /** Kinds whose main send settles that row or key. */
  predicate Sends(k: Kind) {
    k.Confirm? || k.DepositFor? || k.Attest? || k.Welcome?
  }

  /** The row or unique key a request reserves before it sends. */
  function Reservation(k: Kind): Resource
    requires Reserves(k)
  {
    match k
    case Confirm(w) => Row(w)
    case Reject(w) => Row(w)
    case DepositFor(_, _, key) => DepositKey(key)
    case Attest(_, ref) => AuditKey(ref)
    case Welcome(u) => ClaimKey(u)
  }

  function MainEffect(q: Request): Effect
    requires Sends(q.kind)
  {
    match q.kind
    case Confirm(w) => Burn(w, q.user, q.holder, q.wei)
    case DepositFor(_, _, key) => MintDeposit(key, q.user, q.holder, q.wei)
    case Attest(grams, ref) => PostAnswer(ref, grams)
    case Welcome(u) => MintWelcome(u, q.holder)
  }

  function EffectOf(q: Request, leg: Leg): Effect
    requires leg.Main? ==> Sends(q.kind)
    requires leg.Rate? ==> q.kind.Fx?
  {
    match leg
    case Main => MainEffect(q)
    case Bonus => Gift(q.user, q.holder)
    case Gas => Drip(q.user, q.holder)
    case Rate => PostRate(q.kind.answer)
  }

  // ---------------------------------------------------------------- steps

  datatype Reply = Taken(hash: Hash) | TooLow | Refused

  datatype Action =
    | Arrive(r: RequestId, kind: Kind)
    | Load(r: RequestId)
    | Lock(r: RequestId)
    | ClaimRow(r: RequestId)
    | ReserveKey(r: RequestId)
    | ReadBalance(r: RequestId, reading: Option<nat>)
    | ReadDeposits(r: RequestId)
    | ReadWithdrawals(r: RequestId)
    | CheckCap(r: RequestId)
    | CommitFile(r: RequestId, wid: WithdrawalId)
    | CommitReject(r: RequestId)
    | Abort(r: RequestId)
    | Resolve(r: RequestId, ok: bool)
    | TakeSigner(r: RequestId)
    | FetchNonce(r: RequestId, ok: bool)
    | Broadcast(r: RequestId, reply: Reply)
    | Receipt(r: RequestId)
    | Timeout(r: RequestId)
    | Settle(r: RequestId)
    | Rollback(r: RequestId)
    | Mine(h: Hash, status: TxStatus)
    | GrowCount(g: SignerId, count: nat)
    | BindWallet(u: UserId, a: Address)
    | InsertPending(wid: WithdrawalId, u: UserId, uzd: nat)

  function Goto(s: State, r: RequestId, q: Request): State {
    s.(reqs := s.reqs[r := q])
  }

  function GotoPc(s: State, r: RequestId, pc: Pc): State
    requires r in s.reqs
  {
    Goto(s, r, s.reqs[r].(pc := pc))
  }

  function Take(s: State, r: RequestId, x: Resource, pc: Pc): State
    requires r in s.reqs
  {
    GotoPc(s, r, pc).(locks := s.locks[x := r])
  }

  /** Transaction end: every lock of r goes, whatever the new database is. */
  function End(s: State, r: RequestId, db: Db, pc: Pc): State
    requires r in s.reqs
  {
    s.(db := db,
       reqs := s.reqs[r := s.reqs[r].(pc := pc)],
       locks := map x | x in s.locks && s.locks[x] != r :: s.locks[x])
  }

  /** The first reads of a request, before it takes any lock. */
  function Loaded(db: Db, q: Request): Request {
    var refused := q.(pc := Done);
    match q.kind
    case File(u, amount) =>
      if u !in db.wallets || amount <= 0 then refused
      else q.(holder := db.wallets[u], uzd := amount, wei := amount * UNIT, pc := Locking)
    case Confirm(w) =>
      if w !in db.withdrawals || db.withdrawals[w].status != Pending then refused
      else
        var row := db.withdrawals[w];
        if row.user !in db.wallets then refused
        else q.(user := row.user, holder := db.wallets[row.user], uzd := row.uzd, wei := row.wei, pc := Locking)
    case Reject(w) =>
      if w !in db.withdrawals || db.withdrawals[w].status != Pending then refused
      else
        var row := db.withdrawals[w];
        q.(user := row.user, uzd := row.uzd, wei := row.wei, pc := Claiming)
    case DepositFor(u, amount, _) =>
      if u !in db.wallets then refused
      else q.(holder := db.wallets[u], uzd := amount, wei := amount * UNIT, pc := Reserving)
    case Attest(_, _) => q.(pc := Reserving)
    case Fx(answer) => if answer <= 0 then refused else q.(pc := Sending(Rate, Resolving))
    case Welcome(u) =>
      if u !in db.wallets then refused
      else q.(holder := db.wallets[u], pc := Locking)
  }

  function Subject(k: Kind): UserId {
    match k
    case File(u, _) => u
    case DepositFor(u, _, _) => u
    case Welcome(u) => u
    case _ => 0
  }

  function AfterLock(k: Kind): Pc {
    if k.File? then SumDeposits else if k.Welcome? then Funding else Claiming
  }

  /** The key's row is already committed. */
  predicate Exists(db: Db, x: Resource) {
    match x
    case DepositKey(k) => k in db.deposits
    case AuditKey(ref) => ref in db.attestations
    case ClaimKey(u) => u in db.claims
    case _ => false
  }

  /** None: the balance could not be read, and no drip is tried. */
  function AfterBalance(c: Config, reading: Option<nat>): Pc {
    if reading.None? || reading.value >= c.dripThreshold then Reserving else Sending(Gas, Resolving)
  }

  /** Where a request goes once a leg's send returned, failed or timed out. */
  function AfterSend(leg: Leg, h: Hash): Pc {
    match leg
    case Main => Settling(h, false)
    case Gas => Reserving
    case Bonus => Done
    case Rate => Done
  }

  function AfterTimeout(leg: Leg, h: Hash): Pc {
    if leg.Main? then Settling(h, true) else AfterSend(leg, h)
  }

  function AfterFailure(leg: Leg): Pc {
    if leg.Main? then Failing else AfterSend(leg, 0)
  }

  /** What a settled request commits. */
  function Committed(db: Db, r: RequestId, q: Request, h: Hash, parked: bool): Db {
    match q.kind
    case Confirm(w) =>
      if w !in db.withdrawals then db
      else db.(withdrawals := db.withdrawals[w :=
        db.withdrawals[w].(status := if parked then Reconcile else Confirmed, txHash := Some(h))])
    case DepositFor(_, _, key) => db.(deposits := db.deposits[key := Deposit(q.user, q.uzd, q.wei, h)])
    case Attest(grams, ref) => db.(attestations := db.attestations[ref := Attestation(grams, h)])
    case Welcome(u) => db.(claims := db.claims[u := Claim(r, q.holder, h)])
    case _ => db
  }

  function WithFiled(db: Db, wid: WithdrawalId, u: UserId, uzd: nat, wei: nat): Db {
    db.(withdrawals := db.withdrawals[wid := Withdrawal(u, uzd, wei, Pending, None)])
  }

  function WithRejected(db: Db, wid: WithdrawalId): Db
    requires wid in db.withdrawals
  {
    db.(withdrawals := db.withdrawals[wid := db.withdrawals[wid].(status := Rejected)])
  }

  predicate UnderSigner(pc: Pc) {
    pc.Sending? && (pc.stage.NeedNonce? || pc.stage.Sign? || pc.stage.Resync?)
  }

  function SignerFor(c: Config, q: Request): SignerId {
    c.signerOf(RoleOf(q.kind))
  }

  /** The send raised before any hash: the signer lock goes, the leg has failed. */
  function FailSend(c: Config, s: State, r: RequestId): State
    requires r in s.reqs && s.reqs[r].pc.Sending?
  {
    GotoPc(s, r, AfterFailure(s.reqs[r].pc.leg)).(locks := s.locks - {SignerKey(SignerFor(c, s.reqs[r]))})
  }

  /** A statement of the transaction raised: get_db rolls it back. Not while it waits for a lock,
      and not from its first broadcast on. */
  predicate MayAbort(q: Request) {
    q.pc.SumDeposits? || q.pc.SumWithdrawals? || q.pc.Capping? || q.pc.Filing? || q.pc.Rejecting?
  }

  // One predicate per action: its guard, and the state it leads to.

  ghost predicate StepArrive(s: State, r: RequestId, kind: Kind, s': State) {
    r !in s.reqs && s' == Goto(s, r, Request(kind, Subject(kind), 0, 0, 0, Begin))
  }

  ghost predicate StepLoad(s: State, r: RequestId, s': State) {
    r in s.reqs && s.reqs[r].pc.Begin? && s' == Goto(s, r, Loaded(s.db, s.reqs[r]))
  }

  /** A lock step needs the lock to be free: a request whose lock is held has no step at all. */
  ghost predicate StepLock(c: Config, s: State, r: RequestId, s': State) {
    && r in s.reqs && s.reqs[r].pc.Locking?
    && var q := s.reqs[r];
       var x := Advisory(c.lockKey(q.user));
       x !in s.locks && s' == Take(s, r, x, AfterLock(q.kind))
  }

  /** UPDATE ... WHERE status = 'pending': once the row is free the condition is checked again. */
  ghost predicate StepClaimRow(s: State, r: RequestId, s': State) {
    && r in s.reqs && s.reqs[r].pc.Claiming? && (s.reqs[r].kind.Confirm? || s.reqs[r].kind.Reject?)
    && var q := s.reqs[r];
       && Row(q.kind.wid) !in s.locks && q.kind.wid in s.db.withdrawals
       && s' == if s.db.withdrawals[q.kind.wid].status.Pending?
                then Take(s, r, Row(q.kind.wid), if q.kind.Confirm? then SumDeposits else Rejecting)
                else End(s, r, s.db, Done)
  }

  /** INSERT under a unique index: waits for an in-flight twin, then fails on a committed one. */
  ghost predicate StepReserveKey(s: State, r: RequestId, s': State) {
    && r in s.reqs && s.reqs[r].pc.Reserving? && Reserves(s.reqs[r].kind)
    && var x := Reservation(s.reqs[r].kind);
       && x !in s.locks
       && s' == if Exists(s.db, x) then End(s, r, s.db, Done) else Take(s, r, x, Sending(Main, Resolving))
  }

  ghost predicate StepReadBalance(c: Config, s: State, r: RequestId, reading: Option<nat>, s': State) {
    r in s.reqs && s.reqs[r].pc.Funding? && s' == GotoPc(s, r, AfterBalance(c, reading))
  }

  ghost predicate StepReadDeposits(s: State, r: RequestId, s': State) {
    && r in s.reqs && s.reqs[r].pc.SumDeposits?
    && s' == GotoPc(s, r, SumWithdrawals(Deposited(s.db, s.reqs[r].user)))
  }

  /** The second SUM has its own snapshot. A confirm sees its own uncommitted flip. */
  ghost predicate StepReadWithdrawals(s: State, r: RequestId, s': State) {
    && r in s.reqs && s.reqs[r].pc.SumWithdrawals?
    && var q := s.reqs[r];
       var spent := if q.kind.Confirm? then Burned(s.db, q.user) + q.uzd else Outstanding(s.db, q.user);
       s' == GotoPc(s, r, Capping(q.pc.deposited, spent))
  }

  ghost predicate StepCheckFile(s: State, r: RequestId, s': State) {
    && r in s.reqs && s.reqs[r].pc.Capping? && s.reqs[r].kind.File?
    && var q := s.reqs[r];
       s' == if q.uzd > q.pc.deposited - q.pc.spent then End(s, r, s.db, Done) else GotoPc(s, r, Filing)
  }

  ghost predicate StepCheckConfirm(s: State, r: RequestId, s': State) {
    && r in s.reqs && s.reqs[r].pc.Capping? && s.reqs[r].kind.Confirm?
    && var q := s.reqs[r];
       s' == if q.pc.spent > q.pc.deposited then End(s, r, s.db, Done) else GotoPc(s, r, Sending(Main, Resolving))
  }

  ghost predicate StepCommitFile(s: State, r: RequestId, wid: WithdrawalId, s': State) {
    && r in s.reqs && s.reqs[r].pc.Filing? && wid !in s.db.withdrawals
    && s' == End(s, r, WithFiled(s.db, wid, s.reqs[r].user, s.reqs[r].uzd, s.reqs[r].wei), Done)
  }

  ghost predicate StepCommitReject(s: State, r: RequestId, s': State) {
    && r in s.reqs && s.reqs[r].pc.Rejecting? && s.reqs[r].kind.Reject? && s.reqs[r].kind.wid in s.db.withdrawals
    && s' == End(s, r, WithRejected(s.db, s.reqs[r].kind.wid), Done)
  }

  ghost predicate StepAbort(s: State, r: RequestId, s': State) {
    r in s.reqs && MayAbort(s.reqs[r]) && s' == End(s, r, s.db, Done)
  }

  /** Find the role's key and build the calldata, before the signer lock. */
  ghost predicate StepResolve(s: State, r: RequestId, ok: bool, s': State) {
    && r in s.reqs && s.reqs[r].pc.Sending? && s.reqs[r].pc.stage.Resolving?
    && var leg := s.reqs[r].pc.leg;
       s' == GotoPc(s, r, if ok then Sending(leg, Queued) else AfterFailure(leg))
  }

  ghost predicate StepTakeSigner(c: Config, s: State, r: RequestId, s': State) {
    && r in s.reqs && s.reqs[r].pc.Sending? && s.reqs[r].pc.stage.Queued?
    && var g := SignerFor(c, s.reqs[r]);
       var stage := if SignerAt(s, g).counter.None? then NeedNonce else Sign(false);
       SignerKey(g) !in s.locks && s' == Take(s, r, SignerKey(g), Sending(s.reqs[r].pc.leg, stage))
  }

  /** Load the counter from the node's count; a failed read ends the send. */
  ghost predicate StepFetchNonce(c: Config, s: State, r: RequestId, ok: bool, s': State) {
    && r in s.reqs && s.reqs[r].pc.Sending? && (s.reqs[r].pc.stage.NeedNonce? || s.reqs[r].pc.stage.Resync?)
    && var pc := s.reqs[r].pc;
       var g := SignerFor(c, s.reqs[r]);
       var signer := SignerAt(s, g);
       s' == if ok then
               GotoPc(s, r, Sending(pc.leg, Sign(pc.stage.Resync?))).(
                 signers := s.signers[g := signer.(counter := Some(signer.count), resynced := true)])
             else FailSend(c, s, r)
  }

  predicate Signing(c: Config, s: State, r: RequestId) {
    && r in s.reqs && s.reqs[r].pc.Sending? && s.reqs[r].pc.stage.Sign?
    && SignerAt(s, SignerFor(c, s.reqs[r])).counter.Some?
    && (s.reqs[r].pc.leg.Main? ==> Sends(s.reqs[r].kind))
    && (s.reqs[r].pc.leg.Rate? ==> s.reqs[r].kind.Fx?)
  }

  /** The node takes the transaction: the counter advances and the signer lock goes. */
  ghost predicate StepTaken(c: Config, s: State, r: RequestId, h: Hash, s': State) {
    && Signing(c, s, r) && h !in s.chain
    && var q := s.reqs[r];
       var g := SignerFor(c, q);
       var signer := SignerAt(s, g);
       var nonce := signer.counter.value;
       && signer.count <= nonce
       && s' == GotoPc(s, r, Waiting(q.pc.leg, h)).(
            locks := s.locks - {SignerKey(g)},
            chain := s.chain[h := Tx(r, g, nonce, EffectOf(q, q.pc.leg), Accepted, false)],
            signers := s.signers[g := Signer(Some(nonce + 1), signer.count,
                                             signer.log + [Sent(h, nonce, signer.resynced)], false)])
  }

  ghost predicate StepTooLow(c: Config, s: State, r: RequestId, s': State) {
    && Signing(c, s, r)
    && var signer := SignerAt(s, SignerFor(c, s.reqs[r]));
       && signer.counter.value < signer.count
       && s' == if s.reqs[r].pc.stage.retried then FailSend(c, s, r) else GotoPc(s, r, Sending(s.reqs[r].pc.leg, Resync))
  }

  ghost predicate StepRefused(c: Config, s: State, r: RequestId, s': State) {
    Signing(c, s, r) && s' == FailSend(c, s, r)
  }

  ghost predicate StepReceipt(s: State, r: RequestId, s': State) {
    && r in s.reqs && s.reqs[r].pc.Waiting? && s.reqs[r].pc.hash in s.chain
    && var pc := s.reqs[r].pc;
       var status := s.chain[pc.hash].status;
       && (status.Mined? || status.Reverted?)
       && s' == GotoPc(s, r, if status.Mined? then AfterSend(pc.leg, pc.hash) else AfterFailure(pc.leg))
  }

  ghost predicate StepTimeout(s: State, r: RequestId, s': State) {
    && r in s.reqs && s.reqs[r].pc.Waiting? && s.reqs[r].pc.hash in s.chain
    && var pc := s.reqs[r].pc;
       s' == GotoPc(s, r, AfterTimeout(pc.leg, pc.hash)).(
               chain := s.chain[pc.hash := s.chain[pc.hash].(abandoned := true)])
  }

  ghost predicate StepSettle(s: State, r: RequestId, s': State) {
    && r in s.reqs && s.reqs[r].pc.Settling?
    && var q := s.reqs[r];
       var pc := if q.kind.Welcome? && !q.pc.parked then Sending(Bonus, Resolving) else Done;
       s' == End(s, r, Committed(s.db, r, q, q.pc.hash, q.pc.parked), pc)
  }

  ghost predicate StepRollback(s: State, r: RequestId, s': State) {
    r in s.reqs && s.reqs[r].pc.Failing? && s' == End(s, r, s.db, Done)
  }

  /** The chain settles an accepted transaction in whatever way it likes, whenever it likes. */
  ghost predicate StepMine(s: State, h: Hash, status: TxStatus, s': State) {
    && h in s.chain && s.chain[h].status.Accepted? && !status.Accepted?
    && s' == s.(chain := s.chain[h := s.chain[h].(status := status)])
  }

  ghost predicate StepGrowCount(s: State, g: SignerId, count: nat, s': State) {
    SignerAt(s, g).count <= count && s' == s.(signers := s.signers[g := SignerAt(s, g).(count := count)])
  }

  ghost predicate StepBindWallet(s: State, u: UserId, w: Address, s': State) {
    s' == s.(db := s.db.(wallets := s.db.wallets[u := w]))
  }

  /** A pending row that did not come through create_withdrawal. */
  ghost predicate StepInsertPending(s: State, wid: WithdrawalId, u: UserId, uzd: nat, s': State) {
    && wid !in s.db.withdrawals
    && s' == s.(db := WithFiled(s.db, wid, u, uzd, uzd * UNIT), inserted := s.inserted[u := Inserted(s, u) + uzd])
  }

  /** Reads, locks and checks before anything is sent or committed. */
  ghost predicate CheckStep(c: Config, s: State, a: Action, s': State) {
    match a
    case Load(r) => StepLoad(s, r, s')
    case Lock(r) => StepLock(c, s, r, s')
    case ClaimRow(r) => StepClaimRow(s, r, s')
    case ReserveKey(r) => StepReserveKey(s, r, s')
    case ReadBalance(r, reading) => StepReadBalance(c, s, r, reading, s')
    case ReadDeposits(r) => StepReadDeposits(s, r, s')
    case ReadWithdrawals(r) => StepReadWithdrawals(s, r, s')
    case CheckCap(r) => StepCheckFile(s, r, s') || StepCheckConfirm(s, r, s')
    case _ => false
  }

  ghost predicate SendStep(c: Config, s: State, a: Action, s': State) {
    match a
    case Resolve(r, ok) => StepResolve(s, r, ok, s')
    case TakeSigner(r) => StepTakeSigner(c, s, r, s')
    case FetchNonce(r, ok) => StepFetchNonce(c, s, r, ok, s')
    case Broadcast(r, Taken(h)) => StepTaken(c, s, r, h, s')
    case Broadcast(r, TooLow) => StepTooLow(c, s, r, s')
    case Broadcast(r, Refused) => StepRefused(c, s, r, s')
    case _ => false
  }

  /** The receipt, the commit and the rollback. */
  ghost predicate EndStep(s: State, a: Action, s': State) {
    match a
    case Receipt(r) => StepReceipt(s, r, s')
    case Timeout(r) => StepTimeout(s, r, s')
    case CommitFile(r, wid) => StepCommitFile(s, r, wid, s')
    case CommitReject(r) => StepCommitReject(s, r, s')
    case Abort(r) => StepAbort(s, r, s')
    case Settle(r) => StepSettle(s, r, s')
    case Rollback(r) => StepRollback(s, r, s')
    case _ => false
  }

  /** New requests, the chain, the node's count, wallets, and rows that appear from elsewhere. */
  ghost predicate EnvStep(s: State, a: Action, s': State) {
    match a
    case Arrive(r, kind) => StepArrive(s, r, kind, s')
    case Mine(h, status) => StepMine(s, h, status, s')
    case GrowCount(g, count) => StepGrowCount(s, g, count, s')
    case BindWallet(u, w) => StepBindWallet(s, u, w, s')
    case InsertPending(wid, u, uzd) => StepInsertPending(s, wid, u, uzd, s')
    case _ => false
  }

  ghost predicate Step(c: Config, s: State, a: Action, s': State) {
    CheckStep(c, s, a, s') || SendStep(c, s, a, s') || EndStep(s, a, s') || EnvStep(s, a, s')
  }

  /** A run: its states, from the initial one, and the actions between them. */
  ghost predicate IsRun(c: Config, states: seq<State>, actions: seq<Action>) {
    && |states| == |actions| + 1
    && Init(states[0])
    && forall i :: 0 <= i < |actions| ==> Step(c, states[i], actions[i], states[i + 1])
  }
}
