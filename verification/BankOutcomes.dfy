/** What each bank operation decides and commits, in terms of what it was asked and of the states its own
    statements saw, over every interleaving. */
module BankOutcomes {
  import opened Common
  import opened BankModel
  import opened BankInvariant
  import opened BankSums
  import opened BankSafety
  import opened BankOnce
  import opened BankProgress
  import opened BankStory

  // ---------------------------------------------------------------- admission

  /** What the service demands before anything else. */
  predicate Admissible(db: Db, kind: Kind) {
    match kind
    case File(u, amount) => u in db.wallets && amount > 0
    case Confirm(w) => w in db.withdrawals && db.withdrawals[w].status.Pending? && db.withdrawals[w].user in db.wallets
    case Reject(w) => w in db.withdrawals && db.withdrawals[w].status.Pending?
    case DepositFor(u, _, _) => u in db.wallets
    case Attest(_, _) => true
    case Welcome(u) => u in db.wallets
    case Fx(answer) => answer > 0
  }

  /** The user, wallet and amounts a request goes by are those it was asked for, as the database had them. */
  predicate Terms(db: Db, q: Request) {
    && Admissible(db, q.kind)
    && match q.kind
       case File(u, amount) => q.user == u && q.holder == db.wallets[u] && q.uzd == amount && q.wei == amount * UNIT
       case Confirm(w) =>
         var row := db.withdrawals[w];
         q.user == row.user && q.holder == db.wallets[row.user] && q.uzd == row.uzd && q.wei == row.wei
       case Reject(w) => q.user == db.withdrawals[w].user && q.uzd == db.withdrawals[w].uzd
       case DepositFor(u, uzs, _) => q.user == u && q.holder == db.wallets[u] && q.uzd == uzs && q.wei == uzs * UNIT
       case Welcome(u) => q.user == u && q.holder == db.wallets[u]
       case _ => true
  }

  /** A request is let in exactly when it is admissible at its first reads; otherwise it is over. */
  lemma AdmittedExactly(c: Config, states: seq<State>, actions: seq<Action>, i: nat, r: RequestId)
    requires IsRun(c, states, actions) && i < |actions| && actions[i] == Load(r)
    ensures r in states[i].reqs && r in states[i + 1].reqs
    ensures states[i + 1].reqs[r].pc.Done? <==> !Admissible(states[i].db, states[i].reqs[r].kind)
    ensures states[i + 1].db == states[i].db
  {
    assert Step(c, states[i], actions[i], states[i + 1]);
  }

  /** Every request in flight arrived with its kind at step k and, once it has begun, acts to its end on the
      terms it read at step l. */
  lemma TermsAreRead(c: Config, states: seq<State>, actions: seq<Action>, i: nat, r: RequestId) returns (k: nat, l: nat)
    requires IsRun(c, states, actions) && i < |states| && r in states[i].reqs && !Loading(states[i].reqs[r])
    ensures k < l < i && ArrivedAt(actions, k, r, states[i].reqs[r].kind) && actions[l] == Load(r)
    ensures Terms(states[l].db, states[i].reqs[r])
  {
    k, l := Story(c, states, actions, i, r);
    InvRun(c, states, actions, i);
    assert ReqOk(c, states[i], r);
    NotRefused(c, states, actions, i, l, r);
  }

  lemma NotRefused(c: Config, states: seq<State>, actions: seq<Action>, i: nat, l: nat, r: RequestId)
    requires IsRun(c, states, actions) && l < i < |states| && actions[l] == Load(r)
    requires r in states[i].reqs && !states[i].reqs[r].pc.Done?
    ensures r in states[l].reqs && Admissible(states[l].db, states[i].reqs[r].kind)
  {
    AdmittedExactly(c, states, actions, l, r);
    OnwardRun(c, states, actions, l, i, r);
    OnwardRun(c, states, actions, l + 1, i, r);
  }

  // ---------------------------------------------------------------- the claiming UPDATE and the unique INSERT

  /** The UPDATE wins exactly when the row is still pending once it is free; the loser changes nothing. */
  lemma ClaimsExactly(c: Config, states: seq<State>, actions: seq<Action>, i: nat, r: RequestId)
    requires IsRun(c, states, actions) && i < |actions| && actions[i] == ClaimRow(r)
    ensures r in states[i].reqs && (states[i].reqs[r].kind.Confirm? || states[i].reqs[r].kind.Reject?)
    ensures var w := states[i].reqs[r].kind.wid;
            && w in states[i].db.withdrawals && Row(w) !in states[i].locks && states[i + 1].db == states[i].db
            && r in states[i + 1].reqs
            && (if states[i].db.withdrawals[w].status.Pending?
                then Row(w) in states[i + 1].locks && states[i + 1].locks[Row(w)] == r && !states[i + 1].reqs[r].pc.Done?
                else states[i + 1].reqs[r].pc.Done?)
  {
    assert Step(c, states[i], actions[i], states[i + 1]);
  }

  /** The INSERT passes exactly when no row with its key is committed once the key is free; the request then
      holds the key and goes on to its main send. */
  lemma ReservesExactly(c: Config, states: seq<State>, actions: seq<Action>, i: nat, r: RequestId)
    requires IsRun(c, states, actions) && i < |actions| && actions[i] == ReserveKey(r)
    ensures r in states[i].reqs && r in states[i + 1].reqs && Reserves(states[i].reqs[r].kind)
    ensures var x := Reservation(states[i].reqs[r].kind);
            && x !in states[i].locks && states[i + 1].db == states[i].db
            && (if HashOf(states[i].db, x).None?
                then x in states[i + 1].locks && states[i + 1].locks[x] == r
                     && states[i + 1].reqs[r].pc == Sending(Main, Resolving)
                else states[i + 1].reqs[r].pc.Done?)
  {
    InvRun(c, states, actions, i);
    assert Step(c, states[i], actions[i], states[i + 1]);
    assert ReqOk(c, states[i], r);
  }

  // ---------------------------------------------------------------- the two sums

  /** Before step i the request read its deposits in state k1 and then its withdrawals in state k2. */
  ghost predicate SumsReadAt(actions: seq<Action>, k1: nat, k2: nat, i: nat, r: RequestId) {
    k1 < k2 < i <= |actions| && actions[k1] == ReadDeposits(r) && actions[k2] == ReadWithdrawals(r)
  }

  /** What a request knows at its check are the sums of two earlier states, each of its own statement. */
  lemma SumsAreRead(c: Config, states: seq<State>, actions: seq<Action>, i: nat, r: RequestId) returns (k1: nat, k2: nat)
    requires IsRun(c, states, actions) && i < |states| && r in states[i].reqs && states[i].reqs[r].pc.Capping?
    ensures SumsReadAt(actions, k1, k2, i, r)
    ensures var q := states[i].reqs[r];
            && q.pc.deposited == Deposited(states[k1].db, q.user)
            && q.pc.spent == if q.kind.Confirm? then Burned(states[k2].db, q.user) + q.uzd else Outstanding(states[k2].db, q.user)
  {
    k2 := LastTouch(c, states, actions, i, r);
    Into(c, states[k2], actions[k2], states[k2 + 1], r);
    k1 := LastTouch(c, states, actions, k2, r);
    Into(c, states[k1], actions[k1], states[k1 + 1], r);
  }

  // ---------------------------------------------------------------- create_withdrawal

  lemma FileChecks(c: Config, s: State, r: RequestId, s': State)
    requires Step(c, s, CheckCap(r), s') && r in s.reqs && s.reqs[r].kind.File? && ReqOk(c, s, r)
    ensures var q := s.reqs[r];
            && q.pc.Capping? && q.user == q.kind.filer && r in s'.reqs && s'.db == s.db
            && if q.kind.amount + q.pc.spent <= q.pc.deposited then s'.reqs[r].pc.Filing? else s'.reqs[r].pc.Done?
  {
  }

  /** The filing cap: a withdrawal of u goes on to be filed if and only if it fits into what u's deposits,
      as the first statement saw them, leave above what is outstanding, as the second saw it. */
  lemma FilesExactly(c: Config, states: seq<State>, actions: seq<Action>, i: nat, r: RequestId, u: UserId, amount: int)
    returns (k1: nat, k2: nat)
    requires IsRun(c, states, actions) && i < |actions| && actions[i] == CheckCap(r)
    requires r in states[i].reqs && states[i].reqs[r].kind == File(u, amount)
    ensures SumsReadAt(actions, k1, k2, i, r) && r in states[i + 1].reqs && states[i + 1].db == states[i].db
    ensures if amount + Outstanding(states[k2].db, u) <= Deposited(states[k1].db, u)
            then states[i + 1].reqs[r].pc.Filing? else states[i + 1].reqs[r].pc.Done?
  {
    InvRun(c, states, actions, i);
    FileChecks(c, states[i], r, states[i + 1]);
    k1, k2 := SumsAreRead(c, states, actions, i, r);
  }

  lemma FileCommits(c: Config, s: State, r: RequestId, w: WithdrawalId, s': State)
    requires Step(c, s, CommitFile(r, w), s') && (r in s.reqs ==> ReqOk(c, s, r))
    ensures r in s.reqs && s.reqs[r].pc.Filing? && s.reqs[r].kind.File? && s.reqs[r].kind.amount >= 0
    ensures var k := s.reqs[r].kind;
            && w !in s.db.withdrawals
            && s'.db == s.db.(withdrawals := s.db.withdrawals[w := Withdrawal(k.filer, k.amount, k.amount * UNIT, Pending, None)])
  {
  }

  lemma FileRaises(db: Db, db': Db, w: WithdrawalId, u: UserId, amount: nat)
    requires w !in db.withdrawals
    requires db' == db.(withdrawals := db.withdrawals[w := Withdrawal(u, amount, amount * UNIT, Pending, None)])
    ensures forall v :: Outstanding(db', v) == Outstanding(db, v) + if v == u then amount else 0
  {
    forall v ensures Outstanding(db', v) == Outstanding(db, v) + if v == u then amount else 0 {
      FiledSums(db, w, u, amount, amount * UNIT, v);
    }
  }

  /** Filing adds exactly one row: pending, for the user and the amount that were asked for, after the cap
      let it through at step j. */
  lemma FileAddsOneRow(c: Config, states: seq<State>, actions: seq<Action>, i: nat, r: RequestId, w: WithdrawalId)
    returns (j: nat, u: UserId, amount: nat)
    requires IsRun(c, states, actions) && i < |actions| && actions[i] == CommitFile(r, w)
    ensures j < i && actions[j] == CheckCap(r) && r in states[j].reqs && states[j].reqs[r].kind == File(u, amount)
    ensures r in states[j + 1].reqs && states[j + 1].reqs[r].pc.Filing?
    ensures w !in states[i].db.withdrawals
    ensures states[i + 1].db ==
              states[i].db.(withdrawals := states[i].db.withdrawals[w := Withdrawal(u, amount, amount * UNIT, Pending, None)])
    ensures forall v :: Outstanding(states[i + 1].db, v) == Outstanding(states[i].db, v) + if v == u then amount else 0
  {
    InvRun(c, states, actions, i);
    FileCommits(c, states[i], r, w, states[i + 1]);
    u, amount := states[i].reqs[r].kind.filer, states[i].reqs[r].kind.amount;
    FileRaises(states[i].db, states[i + 1].db, w, u, amount);
    j := LastTouch(c, states, actions, i, r);
    Into(c, states[j], actions[j], states[j + 1], r);
    OwnOnlyPc(c, states[j], actions[j], states[j + 1]);
  }

  // ---------------------------------------------------------------- confirm_withdrawal

  lemma ConfirmChecks(c: Config, s: State, r: RequestId, s': State)
    requires Step(c, s, CheckCap(r), s') && r in s.reqs && s.reqs[r].kind.Confirm? && ReqOk(c, s, r)
    ensures var q := s.reqs[r];
            && q.pc.Capping? && r in s'.reqs && s'.db == s.db && q.kind.wid in s.db.withdrawals
            && s.db.withdrawals[q.kind.wid].status.Pending?
            && s.db.withdrawals[q.kind.wid].user == q.user && s.db.withdrawals[q.kind.wid].uzd == q.uzd
    ensures var pc := s.reqs[r].pc;
            if pc.spent <= pc.deposited then s'.reqs[r].pc == Sending(Main, Resolving) else s'.reqs[r].pc.Done?
  {
  }

  /** The solvency guard: a confirm of w burns if and only if the row fits into what its owner's deposits,
      as the first statement saw them, leave above what counts as burned, as the second saw it. */
  lemma ConfirmsExactly(c: Config, states: seq<State>, actions: seq<Action>, i: nat, r: RequestId, w: WithdrawalId)
    returns (k1: nat, k2: nat)
    requires IsRun(c, states, actions) && i < |actions| && actions[i] == CheckCap(r)
    requires r in states[i].reqs && states[i].reqs[r].kind == Confirm(w)
    ensures SumsReadAt(actions, k1, k2, i, r) && r in states[i + 1].reqs && states[i + 1].db == states[i].db
    ensures w in states[i].db.withdrawals && states[i].db.withdrawals[w].status.Pending?
    ensures var row := states[i].db.withdrawals[w];
            if row.uzd + Burned(states[k2].db, row.user) <= Deposited(states[k1].db, row.user)
            then states[i + 1].reqs[r].pc == Sending(Main, Resolving) else states[i + 1].reqs[r].pc.Done?
  {
    InvRun(c, states, actions, i);
    ConfirmChecks(c, states[i], r, states[i + 1]);
    k1, k2 := SumsAreRead(c, states, actions, i, r);
  }

  // ---------------------------------------------------------------- how a main send ended

  /** Action j is r's receipt, or its timeout, for its main send h. */
  ghost predicate EndsMain(states: seq<State>, actions: seq<Action>, j: nat, r: RequestId, h: Hash, parked: bool)
    requires |states| == |actions| + 1
  {
    && j < |actions| && actions[j] == (if parked then Timeout(r) else Receipt(r))
    && r in states[j].reqs && states[j].reqs[r].pc == Waiting(Main, h)
  }

  lemma EndsMainFalls(c: Config, states: seq<State>, actions: seq<Action>, j: nat, r: RequestId)
    requires IsRun(c, states, actions) && j < |actions| && (actions[j] == Receipt(r) || actions[j] == Timeout(r))
    requires r in states[j].reqs && states[j].reqs[r].pc.Waiting? && states[j].reqs[r].pc.leg.Main?
    ensures r in states[j + 1].reqs && Remaining(states[j + 1], r) == 8
  {
    assert Step(c, states[j], actions[j], states[j + 1]);
  }

  /** Where a settling request comes from: its broadcast b, then the receipt or timeout m of that very
      transaction, since when it has not moved. */
  lemma MainSendEnded(c: Config, states: seq<State>, actions: seq<Action>, i: nat, r: RequestId) returns (b: nat, m: nat)
    requires IsRun(c, states, actions) && i < |states| && r in states[i].reqs && states[i].reqs[r].pc.Settling?
    ensures b < m < i && actions[b] == Broadcast(r, Taken(states[i].reqs[r].pc.hash))
    ensures EndsMain(states, actions, m, r, states[i].reqs[r].pc.hash, states[i].reqs[r].pc.parked)
    ensures forall j :: m < j <= i ==> r in states[j].reqs && states[j].reqs[r] == states[i].reqs[r]
  {
    m := LastTouch(c, states, actions, i, r);
    Into(c, states[m], actions[m], states[m + 1], r);
    b := LastTouch(c, states, actions, m, r);
    Into(c, states[b], actions[b], states[b + 1], r);
  }

  /** No earlier step ended its main send. */
  lemma EndedOnce(
      c: Config, states: seq<State>, actions: seq<Action>, j: nat, m: nat, r: RequestId, h: Hash, g: Hash, p: bool, parked: bool)
    requires IsRun(c, states, actions) && j < m
    requires EndsMain(states, actions, m, r, h, parked)
    ensures !EndsMain(states, actions, j, r, g, p)
  {
    if EndsMain(states, actions, j, r, g, p) {
      EndsMainFalls(c, states, actions, j, r);
      OnwardRun(c, states, actions, j + 1, m, r);
    }
  }

  /** r's receipt for its main send h came before step i; or r gave up waiting for it. */
  ghost predicate SawReceipt(states: seq<State>, actions: seq<Action>, i: nat, r: RequestId, h: Hash)
    requires |states| == |actions| + 1
  {
    exists j: nat :: j < i && EndsMain(states, actions, j, r, h, false)
  }

  ghost predicate GaveUp(states: seq<State>, actions: seq<Action>, i: nat, r: RequestId, h: Hash)
    requires |states| == |actions| + 1
  {
    exists j: nat :: j < i && EndsMain(states, actions, j, r, h, true)
  }

  /** r broadcast h as its main send before step i. */
  ghost predicate SentMain(states: seq<State>, actions: seq<Action>, i: nat, r: RequestId, h: Hash)
    requires |states| == |actions| + 1
  {
    exists b: nat :: b < i <= |actions| && actions[b] == Broadcast(r, Taken(h))
  }

  /** So of receipt and timeout exactly one came before, and only for the transaction that was sent. */
  lemma OneEnd(c: Config, states: seq<State>, actions: seq<Action>, i: nat, r: RequestId, h: Hash)
    requires IsRun(c, states, actions) && i < |states| && r in states[i].reqs
    requires states[i].reqs[r].pc.Settling? && states[i].reqs[r].pc.hash == h
    ensures i <= |actions| && SentMain(states, actions, i, r, h)
    ensures SawReceipt(states, actions, i, r, h) <==> !states[i].reqs[r].pc.parked
    ensures GaveUp(states, actions, i, r, h) <==> states[i].reqs[r].pc.parked
    ensures forall j: nat, g, p :: j < i && EndsMain(states, actions, j, r, g, p) ==> g == h && p == states[i].reqs[r].pc.parked
  {
    var b, m := MainSendEnded(c, states, actions, i, r);
    var parked := states[i].reqs[r].pc.parked;
    forall j: nat, g, p | j < i && EndsMain(states, actions, j, r, g, p) ensures g == h && p == parked {
      if j < m { EndedOnce(c, states, actions, j, m, r, h, g, p, parked); }
    }
  }

  lemma SettleNow(c: Config, states: seq<State>, actions: seq<Action>, i: nat, r: RequestId)
    requires IsRun(c, states, actions) && i < |actions| && actions[i] == Settle(r)
    ensures StepSettle(states[i], r, states[i + 1]) && ReqOk(c, states[i], r)
  {
    assert Step(c, states[i], actions[i], states[i + 1]);
    InvRun(c, states, actions, i);
    assert ReqOk(c, states[i], r);
  }

  lemma SettlingKnows(c: Config, s: State, r: RequestId)
    requires r in s.reqs && s.reqs[r].pc.Settling? && ReqOk(c, s, r)
    ensures var q := s.reqs[r];
            && Sends(q.kind) && SentBy(s.chain, q.pc.hash, r, MainEffect(q))
            && if q.pc.parked then s.chain[q.pc.hash].abandoned else IsMined(s.chain, q.pc.hash)
  {
  }

  /** The transaction a commit records is the one its request sent; it saw it mined or gave it up, never
      both, and each exactly as its last step says. */
  lemma SettledSend(c: Config, states: seq<State>, actions: seq<Action>, i: nat, r: RequestId) returns (h: Hash)
    requires IsRun(c, states, actions) && i < |actions| && actions[i] == Settle(r)
    ensures r in states[i].reqs && states[i].reqs[r].pc.Settling? && states[i].reqs[r].pc.hash == h
    ensures SentMain(states, actions, i, r, h) && (SawReceipt(states, actions, i, r, h) <==> !GaveUp(states, actions, i, r, h))
    ensures states[i].reqs[r].pc.parked <==> GaveUp(states, actions, i, r, h)
    ensures Sends(states[i].reqs[r].kind) && SentBy(states[i].chain, h, r, MainEffect(states[i].reqs[r]))
    ensures SawReceipt(states, actions, i, r, h) ==> IsMined(states[i].chain, h)
    ensures GaveUp(states, actions, i, r, h) ==> states[i].chain[h].abandoned
  {
    SettleNow(c, states, actions, i, r);
    SettlingKnows(c, states[i], r);
    h := states[i].reqs[r].pc.hash;
    OneEnd(c, states, actions, i, r, h);
  }

  lemma ConfirmHasOneLeg(c: Config, states: seq<State>, actions: seq<Action>, j: nat, i: nat, r: RequestId)
    requires IsRun(c, states, actions) && j < i < |states| && j < |actions| && (actions[j] == Receipt(r) || actions[j] == Timeout(r))
    requires r in states[i].reqs && states[i].reqs[r].kind.Confirm?
    ensures r in states[j].reqs && states[j].reqs[r].pc.Waiting? && states[j].reqs[r].pc.leg.Main?
  {
    assert Step(c, states[j], actions[j], states[j + 1]);
    InvRun(c, states, actions, j);
    assert ReqOk(c, states[j], r);
    OnwardRun(c, states, actions, j, i, r);
  }

  ghost predicate Before(actions: seq<Action>, i: nat, a: Action) {
    exists j: nat :: j < i <= |actions| && actions[j] == a
  }

  lemma ConfirmEnds(c: Config, states: seq<State>, actions: seq<Action>, i: nat, r: RequestId, h: Hash)
    requires IsRun(c, states, actions) && i < |states| && r in states[i].reqs
    requires states[i].reqs[r].kind.Confirm? && states[i].reqs[r].pc.Settling? && states[i].reqs[r].pc.hash == h
    ensures Before(actions, i, Receipt(r)) <==> SawReceipt(states, actions, i, r, h)
    ensures Before(actions, i, Timeout(r)) <==> GaveUp(states, actions, i, r, h)
  {
    OneEnd(c, states, actions, i, r, h);
    if j: nat :| j < i && actions[j] == Receipt(r) {
      ConfirmHasOneLeg(c, states, actions, j, i, r);
      assert EndsMain(states, actions, j, r, states[j].reqs[r].pc.hash, false);
    }
    if j: nat :| j < i && actions[j] == Timeout(r) {
      ConfirmHasOneLeg(c, states, actions, j, i, r);
      assert EndsMain(states, actions, j, r, states[j].reqs[r].pc.hash, true);
    }
  }

  lemma ConfirmCommits(c: Config, s: State, r: RequestId, s': State)
    requires StepSettle(s, r, s') && ReqOk(c, s, r) && s.reqs[r].kind.Confirm?
    ensures var q := s.reqs[r];
            var w := q.kind.wid;
            && w in s.db.withdrawals && s.db.withdrawals[w].status.Pending?
            && IsBurnOf(s.chain, q.pc.hash, w, s.db.withdrawals[w])
            && var row := s.db.withdrawals[w].(status := if q.pc.parked then Reconcile else Confirmed, txHash := Some(q.pc.hash));
               s'.db == s.db.(withdrawals := s.db.withdrawals[w := row])
  {
  }

  /** A confirm commits its row confirmed if and only if it saw the receipt of the burn it sent, and parked
      for reconciliation if and only if it gave up waiting; with that burn's hash, and nothing else changes. */
  lemma ConfirmSettles(c: Config, states: seq<State>, actions: seq<Action>, i: nat, r: RequestId, w: WithdrawalId)
    returns (h: Hash)
    requires IsRun(c, states, actions) && i < |actions| && actions[i] == Settle(r)
    requires r in states[i].reqs && states[i].reqs[r].kind == Confirm(w)
    ensures Before(actions, i, Broadcast(r, Taken(h)))
    ensures w in states[i].db.withdrawals && states[i].db.withdrawals[w].status.Pending?
    ensures IsBurnOf(states[i].chain, h, w, states[i].db.withdrawals[w])
    ensures w in states[i + 1].db.withdrawals
    ensures var row, row' := states[i].db.withdrawals[w], states[i + 1].db.withdrawals[w];
            && (row'.status.Confirmed? <==> Before(actions, i, Receipt(r)))
            && (row'.status.Reconcile? <==> Before(actions, i, Timeout(r)))
            && (row'.status.Confirmed? || row'.status.Reconcile?)
            && row' == row.(status := row'.status, txHash := Some(h))
            && states[i + 1].db == states[i].db.(withdrawals := states[i].db.withdrawals[w := row'])
  {
    SettleNow(c, states, actions, i, r);
    h := states[i].reqs[r].pc.hash;
    ConfirmCommits(c, states[i], r, states[i + 1]);
    OneEnd(c, states, actions, i, r, h);
    ConfirmEnds(c, states, actions, i, r, h);
  }

  // ---------------------------------------------------------------- reject_withdrawal

  lemma RejectOutstanding(db: Db, w: WithdrawalId, v: UserId)
    requires w in db.withdrawals && db.withdrawals[w].status.Pending?
    ensures Outstanding(WithRejected(db, w), v) + (if db.withdrawals[w].user == v then db.withdrawals[w].uzd else 0)
         == Outstanding(db, v)
  {
    var db' := WithRejected(db, w);
    WithdrawnPut(db, db', w, db'.withdrawals[w], v, {Pending, Confirmed, Reconcile});
  }

  /** A rejection makes its row rejected for ever and changes no other; its owner has that much more to
      withdraw, and no burn of it ever takes effect from then on. */
  lemma RejectReleases(c: Config, states: seq<State>, actions: seq<Action>, i: nat, r: RequestId, w: WithdrawalId)
    requires IsRun(c, states, actions) && i < |actions| && actions[i] == CommitReject(r)
    requires r in states[i].reqs && states[i].reqs[r].kind == Reject(w)
    ensures w in states[i].db.withdrawals && states[i].db.withdrawals[w].status.Pending?
    ensures var row := states[i].db.withdrawals[w];
            && states[i + 1].db == states[i].db.(withdrawals := states[i].db.withdrawals[w := row.(status := Rejected)])
            && (forall v :: Outstanding(states[i + 1].db, v) + (if v == row.user then row.uzd else 0)
                         == Outstanding(states[i].db, v))
            && (forall j :: i < j < |states| ==>
                  w in states[j].db.withdrawals && states[j].db.withdrawals[w] == row.(status := Rejected))
            && (forall j, h :: i < j < |states| ==> !LiveFor(states[j], h, Row(w)))
  {
    var s, s' := states[i], states[i + 1];
    assert Step(c, s, actions[i], s');
    InvRun(c, states, actions, i);
    assert ReqOk(c, s, r);
    var row := s.db.withdrawals[w];
    forall v ensures Outstanding(s'.db, v) + (if v == row.user then row.uzd else 0) == Outstanding(s.db, v) {
      RejectOutstanding(s.db, w, v);
    }
    forall j | i < j < |states|
      ensures w in states[j].db.withdrawals && states[j].db.withdrawals[w] == row.(status := Rejected)
    {
      WithdrawalMovesOnce(c, states, actions, i + 1, j, w);
    }
    forall j, h | i < j < |states| ensures !LiveFor(states[j], h, Row(w)) {
      RejectedNeverBurns(c, states, actions, i + 1, j, w, h);
    }
  }

  // ---------------------------------------------------------------- create_deposit, post_attestation

  lemma DepositCommits(c: Config, s: State, r: RequestId, s': State)
    requires StepSettle(s, r, s') && ReqOk(c, s, r) && s.reqs[r].kind.DepositFor?
    ensures var q := s.reqs[r];
            var k := q.kind;
            && MainEffect(q) == MintDeposit(k.key, k.to, q.holder, k.amountUzs * UNIT)
            && k.key !in s.db.deposits
            && s'.db == s.db.(deposits := s.db.deposits[k.key := Deposit(k.to, k.amountUzs, k.amountUzs * UNIT, q.pc.hash)])
  {
  }

  lemma AttestationCommits(c: Config, s: State, r: RequestId, s': State)
    requires StepSettle(s, r, s') && ReqOk(c, s, r) && s.reqs[r].kind.Attest?
    ensures var q := s.reqs[r];
            var k := q.kind;
            && MainEffect(q) == PostAnswer(k.ref, k.grams)
            && k.ref !in s.db.attestations
            && s'.db == s.db.(attestations := s.db.attestations[k.ref := Attestation(k.grams, q.pc.hash)])
  {
  }

  lemma ClaimCommits(c: Config, s: State, r: RequestId, s': State)
    requires StepSettle(s, r, s') && ReqOk(c, s, r) && s.reqs[r].kind.Welcome?
    ensures var q := s.reqs[r];
            var u := q.kind.claimant;
            && MainEffect(q) == MintWelcome(u, q.holder)
            && u !in s.db.claims
            && s'.db == s.db.(claims := s.db.claims[u := Claim(r, q.holder, q.pc.hash)])
            && r in s'.reqs && s'.reqs[r].pc == if q.pc.parked then Done else Sending(Bonus, Resolving)
  {
  }

  /** A deposit commits, whether it saw its mint or gave up on it, exactly one row under its key: for the
      user and the amount that were asked for, with the mint it sent of 10^18 wei for every sum. */
  lemma DepositSettles(
      c: Config, states: seq<State>, actions: seq<Action>, i: nat, r: RequestId, u: UserId, uzs: nat, key: BankTxId)
    returns (h: Hash, a: Address)
    requires IsRun(c, states, actions) && i < |actions| && actions[i] == Settle(r)
    requires r in states[i].reqs && states[i].reqs[r].kind == DepositFor(u, uzs, key)
    ensures SentMain(states, actions, i, r, h) && (SawReceipt(states, actions, i, r, h) <==> !GaveUp(states, actions, i, r, h))
    ensures SentBy(states[i].chain, h, r, MintDeposit(key, u, a, uzs * UNIT))
    ensures SawReceipt(states, actions, i, r, h) ==> IsMined(states[i].chain, h)
    ensures key !in states[i].db.deposits
    ensures states[i + 1].db ==
              states[i].db.(deposits := states[i].db.deposits[key := Deposit(u, uzs, uzs * UNIT, h)])
    ensures forall v :: Deposited(states[i + 1].db, v) == Deposited(states[i].db, v) + if v == u then uzs else 0
  {
    h := SettledSend(c, states, actions, i, r);
    a := states[i].reqs[r].holder;
    SettleNow(c, states, actions, i, r);
    DepositCommits(c, states[i], r, states[i + 1]);
    forall v ensures Deposited(states[i + 1].db, v) == Deposited(states[i].db, v) + if v == u then uzs else 0 {
      DepositedPut(states[i].db, states[i + 1].db, key, Deposit(u, uzs, uzs * UNIT, h), v);
    }
  }

  /** The same for an attestation: the grams asked for, in the row and in the answer it posted. */
  lemma AttestationSettles(
      c: Config, states: seq<State>, actions: seq<Action>, i: nat, r: RequestId, grams: nat, ref: AuditRef)
    returns (h: Hash)
    requires IsRun(c, states, actions) && i < |actions| && actions[i] == Settle(r)
    requires r in states[i].reqs && states[i].reqs[r].kind == Attest(grams, ref)
    ensures SentMain(states, actions, i, r, h) && (SawReceipt(states, actions, i, r, h) <==> !GaveUp(states, actions, i, r, h))
    ensures SentBy(states[i].chain, h, r, PostAnswer(ref, grams))
    ensures SawReceipt(states, actions, i, r, h) ==> IsMined(states[i].chain, h)
    ensures ref !in states[i].db.attestations
    ensures states[i + 1].db == states[i].db.(attestations := states[i].db.attestations[ref := Attestation(grams, h)])
  {
    h := SettledSend(c, states, actions, i, r);
    SettleNow(c, states, actions, i, r);
    AttestationCommits(c, states[i], r, states[i + 1]);
  }

  // ---------------------------------------------------------------- claim_welcome_bonus

  /** A claim commits its one row whether it saw its mint or gave up on it, and goes on to the gift if and
      only if it saw it. */
  lemma ClaimSettles(c: Config, states: seq<State>, actions: seq<Action>, i: nat, r: RequestId, u: UserId)
    returns (h: Hash, a: Address)
    requires IsRun(c, states, actions) && i < |actions| && actions[i] == Settle(r)
    requires r in states[i].reqs && states[i].reqs[r].kind == Welcome(u)
    ensures SentMain(states, actions, i, r, h) && (SawReceipt(states, actions, i, r, h) <==> !GaveUp(states, actions, i, r, h))
    ensures SentBy(states[i].chain, h, r, MintWelcome(u, a))
    ensures u !in states[i].db.claims
    ensures states[i + 1].db == states[i].db.(claims := states[i].db.claims[u := Claim(r, a, h)])
    ensures r in states[i + 1].reqs
    ensures states[i + 1].reqs[r].pc == Sending(Bonus, Resolving) <==> SawReceipt(states, actions, i, r, h)
    ensures states[i + 1].reqs[r].pc.Done? <==> GaveUp(states, actions, i, r, h)
  {
    h := SettledSend(c, states, actions, i, r);
    a := states[i].reqs[r].holder;
    SettleNow(c, states, actions, i, r);
    ClaimCommits(c, states[i], r, states[i + 1]);
  }

  /** A drip is sent if and only if the balance could be read and lies below the threshold; otherwise the
      claim goes straight to its reservation. */
  lemma DripsExactly(c: Config, states: seq<State>, actions: seq<Action>, i: nat, r: RequestId, reading: Option<nat>)
    requires IsRun(c, states, actions) && i < |actions| && actions[i] == ReadBalance(r, reading)
    ensures r in states[i + 1].reqs && states[i + 1].db == states[i].db
    ensures if reading.Some? && reading.value < c.dripThreshold
            then states[i + 1].reqs[r].pc == Sending(Gas, Resolving) else states[i + 1].reqs[r].pc.Reserving?
  {
    assert Step(c, states[i], actions[i], states[i + 1]);
  }

  // ---------------------------------------------------------------- where rows come from

  /** The action brought the row in: filed by a request of this user for this amount, or inserted so. */
  ghost predicate Filed(s: State, a: Action, w: WithdrawalId, u: UserId, uzd: nat) {
    || a == InsertPending(w, u, uzd)
    || (a.CommitFile? && a.wid == w && a.r in s.reqs && s.reqs[a.r].kind == File(u, uzd))
  }

  lemma InsertCame(s: State, w: WithdrawalId, u: UserId, uzd: nat, s': State)
    requires StepInsertPending(s, w, u, uzd, s')
    ensures forall v :: v in s'.db.withdrawals && v !in s.db.withdrawals ==>
              v == w && s'.db.withdrawals[v].user == u && s'.db.withdrawals[v].uzd == uzd
  {
  }

  lemma SettleAddsNone(c: Config, s: State, r: RequestId, s': State)
    requires Step(c, s, Settle(r), s') && (r in s.reqs ==> ReqOk(c, s, r))
    ensures s'.db.withdrawals.Keys == s.db.withdrawals.Keys
  {
  }

  /** Only a filing and an insertion add a row. */
  lemma AddsNone(c: Config, s: State, a: Action, s': State)
    requires Step(c, s, a, s') && WritesDb(a) && !a.CommitFile? && !a.InsertPending? && !a.Settle?
    ensures s'.db.withdrawals.Keys == s.db.withdrawals.Keys
  {
  }

  lemma RowCame(c: Config, s: State, a: Action, s': State, w: WithdrawalId)
    requires ReqsOk(c, s) && Step(c, s, a, s') && w in s'.db.withdrawals && w !in s.db.withdrawals
    ensures Filed(s, a, w, s'.db.withdrawals[w].user, s'.db.withdrawals[w].uzd)
  {
    Untouched(c, s, a, s');
    if a.CommitFile? {
      FileCommits(c, s, a.r, a.wid, s');
    } else if a.InsertPending? {
      InsertCame(s, a.wid, a.u, a.uzd, s');
    } else if a.Settle? {
      SettleAddsNone(c, s, a.r, s');
    } else {
      AddsNone(c, s, a, s');
    }
  }

  /** One step of a run keeps a row's user and amount, or brought the row in. */
  lemma RowAt(c: Config, states: seq<State>, actions: seq<Action>, k: nat, w: WithdrawalId)
    requires IsRun(c, states, actions) && k < |actions| && w in states[k + 1].db.withdrawals
    ensures var row := states[k + 1].db.withdrawals[w];
            if w in states[k].db.withdrawals
            then states[k].db.withdrawals[w].user == row.user && states[k].db.withdrawals[w].uzd == row.uzd
            else Filed(states[k], actions[k], w, row.user, row.uzd)
  {
    InvRun(c, states, actions, k);
    if w in states[k].db.withdrawals {
      RunGrows(c, states, actions, k);
    } else {
      RowCame(c, states[k], actions[k], states[k + 1], w);
    }
  }

  /** Every withdrawal there is was filed by a request of its user for its amount, or inserted so. */
  lemma {:induction false} RowsAreFiled(c: Config, states: seq<State>, actions: seq<Action>, i: nat, w: WithdrawalId)
    returns (j: nat)
    requires IsRun(c, states, actions) && i < |states| && w in states[i].db.withdrawals
    ensures j < i && Filed(states[j], actions[j], w, states[i].db.withdrawals[w].user, states[i].db.withdrawals[w].uzd)
  {
    RowAt(c, states, actions, i - 1, w);
    if w in states[i - 1].db.withdrawals {
      j := RowsAreFiled(c, states, actions, i - 1, w);
    } else {
      j := i - 1;
    }
  }
}
