/** What every reachable state of the bank protocol satisfies, and what a request may rely on
    while the others move. */
module BankInvariant {
  import opened Common
  import opened BankModel

  // ---------------------------------------------------------------- who holds what

  /** Between lock_user and the end of the transaction. */
  predicate HasAdvisory(q: Request) {
    && (q.kind.File? || q.kind.Confirm? || q.kind.Welcome?)
    && match q.pc
       case Begin => false
       case Locking => false
       case Done => false
       case Sending(leg, _) => !leg.Bonus?
       case Waiting(leg, _) => !leg.Bonus?
       case _ => true
  }

  /** Between the claiming UPDATE or the flushed INSERT and the end of the transaction. */
  predicate HasReservation(q: Request) {
    && Reserves(q.kind)
    && match q.pc
       case SumDeposits => q.kind.Confirm?
       case SumWithdrawals(_) => q.kind.Confirm?
       case Capping(_, _) => q.kind.Confirm?
       case Rejecting => true
       case Sending(leg, _) => leg.Main?
       case Waiting(leg, _) => leg.Main?
       case Settling(_, _) => true
       case Failing => true
       case _ => false
  }

  predicate Holds(c: Config, q: Request, x: Resource) {
    match x
    case Advisory(k) => HasAdvisory(q) && k == c.lockKey(q.user)
    case SignerKey(g) => UnderSigner(q.pc) && g == c.signerOf(RoleOf(q.kind))
    case _ => HasReservation(q) && x == Reservation(q.kind)
  }

  /** The lock table says exactly what the program counters say. */
  ghost predicate LocksOk(c: Config, s: State) {
    && (forall x :: x in s.locks ==> s.locks[x] in s.reqs && Holds(c, s.reqs[s.locks[x]], x))
    && (forall r, x :: r in s.reqs && Holds(c, s.reqs[r], x) ==> x in s.locks && s.locks[x] == r)
  }

  // ---------------------------------------------------------------- requests

  predicate LegFits(k: Kind, leg: Leg) {
    match leg
    case Main => Sends(k)
    case Rate => k.Fx?
    case _ => k.Welcome?
  }

  /** Each kind of request visits only its own program points. */
  predicate PcFits(q: Request) {
    match q.pc
    case Begin => true
    case Done => true
    case Locking => q.kind.File? || q.kind.Confirm? || q.kind.Welcome?
    case Claiming => q.kind.Confirm? || q.kind.Reject?
    case Reserving => q.kind.DepositFor? || q.kind.Attest? || q.kind.Welcome?
    case Funding => q.kind.Welcome?
    case SumDeposits => q.kind.File? || q.kind.Confirm?
    case SumWithdrawals(_) => q.kind.File? || q.kind.Confirm?
    case Capping(_, _) => q.kind.File? || q.kind.Confirm?
    case Filing => q.kind.File?
    case Rejecting => q.kind.Reject?
    case Sending(leg, _) => LegFits(q.kind, leg)
    case Waiting(leg, _) => LegFits(q.kind, leg)
    case Settling(_, _) => Sends(q.kind)
    case Failing => Sends(q.kind)
  }

  predicate Loading(q: Request) {
    q.pc.Begin? || q.pc.Done?
  }

  ghost predicate DataOk(s: State, q: Request) {
    && (q.kind.File? || q.kind.DepositFor? || q.kind.Welcome? ==> q.user == Subject(q.kind))
    && (q.kind.DepositFor? && !Loading(q) ==> q.uzd == q.kind.amountUzs && q.wei == q.uzd * UNIT)
    && (q.kind.File? && !Loading(q) ==> q.uzd == q.kind.amount && q.wei == q.uzd * UNIT)
    && ((q.kind.Confirm? || q.kind.Reject?) && !Loading(q) ==>
          && q.kind.wid in s.db.withdrawals
          && var row := s.db.withdrawals[q.kind.wid];
             row.user == q.user && row.uzd == q.uzd && row.wei == q.wei)
  }

  /** The recorded transaction of a reservation, once it is committed. */
  function HashOf(db: Db, x: Resource): Option<Hash> {
    match x
    case Row(w) => if w in db.withdrawals then db.withdrawals[w].txHash else None
    case DepositKey(k) => if k in db.deposits then Some(db.deposits[k].txHash) else None
    case AuditKey(ref) => if ref in db.attestations then Some(db.attestations[ref].txHash) else None
    case ClaimKey(u) => if u in db.claims then Some(db.claims[u].txHash) else None
    case _ => None
  }

  /** Nothing is committed for x: the row is still pending, the key still unused. */
  predicate Unsettled(db: Db, x: Resource) {
    && HashOf(db, x).None?
    && (x.Row? ==> x.wid in db.withdrawals && db.withdrawals[x.wid].status.Pending?)
  }

  ghost predicate ReservationOk(s: State, q: Request) {
    HasReservation(q) ==> Unsettled(s.db, Reservation(q.kind))
  }

  /** The request's own sums still bound what is committed. */
  ghost predicate SumsOk(s: State, q: Request) {
    match q.pc
    case SumWithdrawals(d) =>
      d <= Deposited(s.db, q.user) && Outstanding(s.db, q.user) <= d + Inserted(s, q.user)
    case Capping(d, spent) =>
      && d <= Deposited(s.db, q.user)
      && (q.kind.File? ==> Outstanding(s.db, q.user) <= spent + Inserted(s, q.user))
      && (q.kind.Confirm? ==> Burned(s.db, q.user) + q.uzd <= spent <= d + Inserted(s, q.user))
    case Filing => Outstanding(s.db, q.user) + q.uzd <= Deposited(s.db, q.user) + Inserted(s, q.user)
    case SumDeposits => true
    case _ => q.kind.Confirm? && HasReservation(q) ==> Burned(s.db, q.user) + q.uzd <= Deposited(s.db, q.user)
  }

  ghost predicate SentBy(chain: map<Hash, Tx>, h: Hash, r: RequestId, e: Effect) {
    h in chain && chain[h].origin == r && chain[h].effect == e
  }

  ghost predicate IsMined(chain: map<Hash, Tx>, h: Hash) {
    h in chain && chain[h].status.Mined?
  }

  ghost predicate ClaimedBy(s: State, u: UserId, r: RequestId) {
    u in s.db.claims && s.db.claims[u].id == r && IsMined(s.chain, s.db.claims[u].txHash)
  }

  ghost predicate SendOk(s: State, r: RequestId, q: Request) {
    match q.pc
    case Sending(leg, _) => leg.Bonus? ==> ClaimedBy(s, q.user, r)
    case Waiting(leg, h) =>
      && LegFits(q.kind, leg) && SentBy(s.chain, h, r, EffectOf(q, leg))
      && (leg.Bonus? ==> ClaimedBy(s, q.user, r))
    case Settling(h, parked) =>
      && Sends(q.kind) && SentBy(s.chain, h, r, MainEffect(q))
      && if parked then s.chain[h].abandoned else s.chain[h].status.Mined?
    case _ => true
  }

  ghost predicate ReqOk(c: Config, s: State, r: RequestId)
    requires r in s.reqs
  {
    var q := s.reqs[r];
    PcFits(q) && DataOk(s, q) && ReservationOk(s, q) && SumsOk(s, q) && SendOk(s, r, q)
  }

  ghost predicate ReqsOk(c: Config, s: State) {
    forall r :: r in s.reqs ==> ReqOk(c, s, r)
  }

  // ---------------------------------------------------------------- chain

  /** The reservation a transaction settles, for the effects that settle one. */
  function Settles(e: Effect): Option<Resource> {
    match e
    case Burn(w, _, _, _) => Some(Row(w))
    case MintDeposit(k, _, _, _) => Some(DepositKey(k))
    case PostAnswer(ref, _) => Some(AuditKey(ref))
    case MintWelcome(u, _) => Some(ClaimKey(u))
    case _ => None
  }

  predicate AtHash(q: Request, h: Hash) {
    (q.pc.Waiting? && q.pc.leg.Main? && q.pc.hash == h) || (q.pc.Settling? && q.pc.hash == h)
  }

  /** Every transaction that may still have an effect is either recorded in the committed row of
      its reservation, or its request is still in flight and holds that reservation. */
  ghost predicate MainTxOk(s: State, h: Hash)
    requires h in s.chain && s.chain[h].origin in s.reqs
  {
    var t := s.chain[h];
    var q := s.reqs[t.origin];
    Settles(t.effect).Some? && !t.status.Reverted? ==>
      || HashOf(s.db, Settles(t.effect).value) == Some(h)
      || (AtHash(q, h) && Reserves(q.kind) && Reservation(q.kind) == Settles(t.effect).value)
  }

  ghost predicate BonusTxOk(s: State, h: Hash)
    requires h in s.chain && s.chain[h].origin in s.reqs
  {
    var t := s.chain[h];
    t.effect.Gift? ==>
      && ClaimedBy(s, t.effect.user, t.origin)
      && (s.reqs[t.origin].pc.Done? || s.reqs[t.origin].pc == Waiting(Bonus, h))
  }

  ghost predicate DripTxOk(s: State, h: Hash)
    requires h in s.chain && s.chain[h].origin in s.reqs
  {
    var t := s.chain[h];
    var q := s.reqs[t.origin];
    t.effect.Drip? && t.status.Accepted? && !t.abandoned ==>
      q.user == t.effect.user && q.pc.Waiting? && q.pc.leg.Gas? && q.pc.hash == h && q.kind.Welcome?
  }

  ghost predicate TxOk(s: State, h: Hash)
    requires h in s.chain
  {
    s.chain[h].origin in s.reqs && MainTxOk(s, h) && BonusTxOk(s, h) && DripTxOk(s, h)
  }

  ghost predicate ChainOk(s: State) {
    forall h :: h in s.chain ==> TxOk(s, h)
  }

  // ---------------------------------------------------------------- rows

  /** The recorded transaction exists, has this effect and mined or was given up on. */
  ghost predicate Recorded(chain: map<Hash, Tx>, h: Hash) {
    h in chain && (chain[h].status.Mined? || chain[h].abandoned)
  }

  ghost predicate WithdrawalOk(s: State, w: WithdrawalId)
    requires w in s.db.withdrawals
  {
    var row := s.db.withdrawals[w];
    && row.wei == row.uzd * UNIT
    && match row.status
       case Pending => row.txHash.None?
       case Rejected => row.txHash.None?
       case Confirmed => row.txHash.Some? && IsBurnOf(s.chain, row.txHash.value, w, row) && IsMined(s.chain, row.txHash.value)
       case Reconcile => row.txHash.Some? && IsBurnOf(s.chain, row.txHash.value, w, row) && Recorded(s.chain, row.txHash.value)
  }

  ghost predicate IsBurnOf(chain: map<Hash, Tx>, h: Hash, w: WithdrawalId, row: Withdrawal) {
    && h in chain && chain[h].effect.Burn?
    && chain[h].effect.wid == w && chain[h].effect.user == row.user && chain[h].effect.wei == row.wei
  }

  ghost predicate DepositOk(s: State, k: BankTxId)
    requires k in s.db.deposits
  {
    var row := s.db.deposits[k];
    && row.wei == row.uzs * UNIT
    && Recorded(s.chain, row.txHash)
    && var e := s.chain[row.txHash].effect;
       e.MintDeposit? && e.key == k && e.user == row.user && e.wei == row.wei
  }

  ghost predicate AttestationOk(s: State, ref: AuditRef)
    requires ref in s.db.attestations
  {
    var row := s.db.attestations[ref];
    Recorded(s.chain, row.txHash) && s.chain[row.txHash].effect == PostAnswer(ref, row.grams)
  }

  ghost predicate ClaimOk(s: State, u: UserId)
    requires u in s.db.claims
  {
    var row := s.db.claims[u];
    Recorded(s.chain, row.txHash) && s.chain[row.txHash].effect == MintWelcome(u, row.wallet)
  }

  ghost predicate DbOk(s: State) {
    && (forall w :: w in s.db.withdrawals ==> WithdrawalOk(s, w))
    && (forall k :: k in s.db.deposits ==> DepositOk(s, k))
    && (forall ref :: ref in s.db.attestations ==> AttestationOk(s, ref))
    && (forall u :: u in s.db.claims ==> ClaimOk(s, u))
  }

  // ---------------------------------------------------------------- money

  /** Rows counted as burned never exceed the deposits; everything outstanding does so at most by what
      was inserted past the filing cap. */
  ghost predicate Solvent(s: State) {
    && (forall u :: Burned(s.db, u) <= Deposited(s.db, u))
    && (forall u :: Outstanding(s.db, u) <= Deposited(s.db, u) + Inserted(s, u))
  }

  ghost predicate Inv(c: Config, s: State) {
    LocksOk(c, s) && ReqsOk(c, s) && ChainOk(s) && DbOk(s) && Solvent(s)
  }

  // ---------------------------------------------------------------- interference

  /** Transactions are never lost or rewritten; they settle once and may be given up on. */
  ghost predicate ChainGrows(chain: map<Hash, Tx>, chain': map<Hash, Tx>) {
    forall h :: h in chain ==>
      && h in chain' && chain'[h].origin == chain[h].origin && chain'[h].effect == chain[h].effect
      && (!chain[h].status.Accepted? ==> chain'[h].status == chain[h].status)
      && (chain[h].abandoned ==> chain'[h].abandoned)
  }

  /** Rows are never removed; a withdrawal keeps its owner and amount, and what is settled stays. */
  ghost predicate DbGrows(db: Db, db': Db) {
    && (forall w :: w in db.withdrawals ==>
          && w in db'.withdrawals
          && var row, row' := db.withdrawals[w], db'.withdrawals[w];
             && row'.user == row.user && row'.uzd == row.uzd && row'.wei == row.wei
             && (!row.status.Pending? ==> row' == row))
    && (forall k :: k in db.deposits ==> k in db'.deposits && db'.deposits[k] == db.deposits[k])
    && (forall ref :: ref in db.attestations ==> ref in db'.attestations && db'.attestations[ref] == db.attestations[ref])
    && (forall u :: u in db.claims ==> u in db'.claims && db'.claims[u] == db.claims[u])
  }

  /** What request q relies on from a step of anybody else. Only the holder of q's user lock may
      raise what q summed; only the holder of q's reservation may settle it. */
  ghost predicate Rely(s: State, s': State, q: Request) {
    && ChainGrows(s.chain, s'.chain)
    && DbGrows(s.db, s'.db)
    && Inserted(s, q.user) <= Inserted(s', q.user)
    && Deposited(s.db, q.user) <= Deposited(s'.db, q.user)
    && (HasAdvisory(q) ==>
          && Burned(s'.db, q.user) <= Burned(s.db, q.user)
          && Outstanding(s'.db, q.user) + Inserted(s, q.user) <= Outstanding(s.db, q.user) + Inserted(s', q.user))
    && (HasReservation(q) && Unsettled(s.db, Reservation(q.kind)) ==> Unsettled(s'.db, Reservation(q.kind)))
  }
}
