/** The sends of a request: what is broadcast and with which nonce, when a send ends, and what its end means
    for the request, over every interleaving. */
module BankSends {
  import opened Common
  import opened BankModel
  import opened BankInvariant
  import opened BankSafety
  import opened BankOnce
  import opened BankNonces
  import opened BankProgress
  import opened BankStory
  import opened BankOutcomes

  // ---------------------------------------------------------------- what is broadcast

  /** The transaction that r's leg is for, on the terms it read from db. */
  function AskedEffect(db: Db, kind: Kind, leg: Leg): Option<Effect>
    requires Admissible(db, kind)
  {
    match kind
    case Confirm(w) =>
      var row := db.withdrawals[w];
      if leg.Main? then Some(Burn(w, row.user, db.wallets[row.user], row.wei)) else None
    case DepositFor(u, uzs, key) => if leg.Main? then Some(MintDeposit(key, u, db.wallets[u], uzs * UNIT)) else None
    case Attest(grams, ref) => if leg.Main? then Some(PostAnswer(ref, grams)) else None
    case Fx(answer) => if leg.Rate? then Some(PostRate(answer)) else None
    case Welcome(u) =>
      if leg.Main? then Some(MintWelcome(u, db.wallets[u]))
      else if leg.Bonus? then Some(Gift(u, db.wallets[u]))
      else if leg.Gas? then Some(Drip(u, db.wallets[u]))
      else None
    case _ => None
  }

  /** Attestations go out with the attestor's key, rates with the feed's, everything else with the bank's. */
  function KeyFor(c: Config, e: Effect): SignerId {
    if e.PostAnswer? then c.signerOf(Reserve) else if e.PostRate? then c.signerOf(Uzs) else c.signerOf(BankOps)
  }

  lemma TakenIsAsked(c: Config, s: State, r: RequestId, h: Hash, s': State, db: Db)
    requires StepTaken(c, s, r, h, s') && ReqOk(c, s, r) && Terms(db, s.reqs[r])
    ensures var t := s'.chain[h];
            && Some(t.effect) == AskedEffect(db, s.reqs[r].kind, s.reqs[r].pc.leg)
            && t.signer == KeyFor(c, t.effect) && t.origin == r && t.status.Accepted? && !t.abandoned
  {
  }

  /** Every broadcast is exactly what was asked for: the row, key, grams or rate of the request, and the user,
      wallet and wei as its first reads at step l had them; and it is signed with the key of its role. */
  lemma BroadcastIsAsked(c: Config, states: seq<State>, actions: seq<Action>, i: nat, r: RequestId, h: Hash)
    returns (k: nat, l: nat)
    requires IsRun(c, states, actions) && i < |actions| && actions[i] == Broadcast(r, Taken(h))
    ensures r in states[i].reqs && states[i].reqs[r].pc.Sending?
    ensures k < l < i && ArrivedAt(actions, k, r, states[i].reqs[r].kind) && actions[l] == Load(r)
    ensures Admissible(states[l].db, states[i].reqs[r].kind)
    ensures h !in states[i].chain && h in states[i + 1].chain
    ensures var t := states[i + 1].chain[h];
            && Some(t.effect) == AskedEffect(states[l].db, states[i].reqs[r].kind, states[i].reqs[r].pc.leg)
            && t.signer == KeyFor(c, t.effect) && t.origin == r && t.status.Accepted?
  {
    var s, s' := states[i], states[i + 1];
    assert StepTaken(c, s, r, h, s') by { assert Step(c, s, actions[i], s'); }
    InvRun(c, states, actions, i);
    assert ReqOk(c, s, r);
    k, l := TermsAreRead(c, states, actions, i, r);
    TakenIsAsked(c, s, r, h, s', states[l].db);
  }

  // ---------------------------------------------------------------- with which nonce

  /** The action sets the counter of g: a reload, or a broadcast the node took. */
  ghost predicate SetsCounter(c: Config, s: State, a: Action, g: SignerId) {
    && ((a.FetchNonce? && a.ok) || (a.Broadcast? && a.reply.Taken?))
    && a.r in s.reqs && SignerFor(c, s.reqs[a.r]) == g
  }

  /** What it sets it to: the node's count at that moment, or one more than the nonce just used. */
  ghost predicate CounterSet(c: Config, s: State, a: Action, s': State, g: SignerId, counter: nat) {
    && SetsCounter(c, s, a, g)
    && (a.FetchNonce? ==> counter == SignerAt(s, g).count)
    && (a.Broadcast? ==>
          a.reply.hash in s'.chain && s'.chain[a.reply.hash].signer == g && counter == s'.chain[a.reply.hash].nonce + 1)
  }

  ghost predicate CounterMoves(c: Config, s: State, a: Action, s': State, g: SignerId) {
    && (!SetsCounter(c, s, a, g) ==> SignerAt(s', g).counter == SignerAt(s, g).counter)
    && (SetsCounter(c, s, a, g) ==> SignerAt(s', g).counter.Some? && CounterSet(c, s, a, s', g, SignerAt(s', g).counter.value))
  }

  lemma SendMovesCounter(c: Config, s: State, a: Action, s': State, g: SignerId)
    requires SendStep(c, s, a, s')
    ensures CounterMoves(c, s, a, s', g)
  {
  }

  lemma StepMovesCounter(c: Config, s: State, a: Action, s': State, g: SignerId)
    requires Step(c, s, a, s')
    ensures CounterMoves(c, s, a, s', g)
  {
    if CheckStep(c, s, a, s') {
      if a.Lock? || a.ClaimRow? || a.ReserveKey? { LockShape(c, s, a, s'); } else { ReadShape(c, s, a, s'); }
    } else if SendStep(c, s, a, s') {
      SendMovesCounter(c, s, a, s', g);
    } else if EndStep(s, a, s') {
      EndShape(s, a, s');
    } else if a.GrowCount? {
      GrownSigner(c, s, a.g, a.count, s', g);
    }
  }

  lemma {:induction false} CounterAlong(c: Config, states: seq<State>, actions: seq<Action>, i: nat, g: SignerId) returns (k: nat)
    requires |states| == |actions| + 1 && i < |states| && SignerAt(states[0], g).counter.None?
    requires SignerAt(states[i], g).counter.Some?
    requires forall m :: 0 <= m < |actions| ==> CounterMoves(c, states[m], actions[m], states[m + 1], g)
    ensures k < i && CounterSet(c, states[k], actions[k], states[k + 1], g, SignerAt(states[i], g).counter.value)
    ensures forall m :: k < m < i ==> !SetsCounter(c, states[m], actions[m], g)
  {
    assert CounterMoves(c, states[i - 1], actions[i - 1], states[i - 1 + 1], g);
    if SetsCounter(c, states[i - 1], actions[i - 1], g) {
      k := i - 1;
    } else {
      k := CounterAlong(c, states, actions, i - 1, g);
    }
  }

  /** Every accepted transaction carries the nonce that the last setting of its signer's counter calls for,
      at step k: the node's count read there, or one more than the nonce accepted there. */
  lemma NonceIsCurrent(c: Config, states: seq<State>, actions: seq<Action>, i: nat, r: RequestId, h: Hash, g: SignerId)
    returns (k: nat)
    requires IsRun(c, states, actions) && i < |actions| && actions[i] == Broadcast(r, Taken(h))
    requires h in states[i + 1].chain && states[i + 1].chain[h].signer == g
    ensures k < i && SetsCounter(c, states[k], actions[k], g)
    ensures forall m :: k < m < i ==> !SetsCounter(c, states[m], actions[m], g)
    ensures actions[k].FetchNonce? ==> states[i + 1].chain[h].nonce == SignerAt(states[k], g).count
    ensures actions[k].Broadcast? ==>
              var last := actions[k].reply.hash;
              last in states[k + 1].chain && states[k + 1].chain[last].signer == g
              && states[i + 1].chain[h].nonce == states[k + 1].chain[last].nonce + 1
  {
    assert StepTaken(c, states[i], r, h, states[i + 1]) by { assert Step(c, states[i], actions[i], states[i + 1]); }
    forall m | 0 <= m < |actions| ensures CounterMoves(c, states[m], actions[m], states[m + 1], g) {
      StepMovesCounter(c, states[m], actions[m], states[m + 1], g);
    }
    k := CounterAlong(c, states, actions, i, g);
  }

  // ---------------------------------------------------------------- when a send ends, and what follows

  /** r is in the middle of this send. */
  predicate OnLeg(s: State, r: RequestId, leg: Leg) {
    r in s.reqs && (s.reqs[r].pc.Sending? || s.reqs[r].pc.Waiting?) && s.reqs[r].pc.leg == leg
  }

  /** The node called the nonce of this send too low before step i: the one retry is spent. */
  ghost predicate Retried(states: seq<State>, actions: seq<Action>, i: nat, r: RequestId, leg: Leg)
    requires |states| == |actions| + 1
  {
    exists j: nat :: j < i <= |actions| && actions[j] == Broadcast(r, TooLow) && OnLeg(states[j], r, leg)
  }

  /** Step i ends the send with a known failure: no key or calldata, no counter, a refusal, a nonce too low
      for the second time, or a revert. */
  ghost predicate KnownFailure(states: seq<State>, actions: seq<Action>, i: nat, r: RequestId, leg: Leg)
    requires |states| == |actions| + 1 && i < |actions|
  {
    || actions[i] == Resolve(r, false)
    || actions[i] == FetchNonce(r, false)
    || actions[i] == Broadcast(r, Refused)
    || (actions[i] == Broadcast(r, TooLow) && Retried(states, actions, i, r, leg))
    || (actions[i] == Receipt(r) && r in states[i].reqs && states[i].reqs[r].pc.Waiting?
        && states[i].reqs[r].pc.hash in states[i].chain && states[i].chain[states[i].reqs[r].pc.hash].status.Reverted?)
  }

  lemma TooLowLeft(c: Config, states: seq<State>, actions: seq<Action>, j: nat, r: RequestId, leg: Leg)
    requires IsRun(c, states, actions) && j < |actions| && actions[j] == Broadcast(r, TooLow) && OnLeg(states[j], r, leg)
    ensures r in states[j + 1].reqs && Remaining(states[j + 1], r) <= LegsLeft(leg) + 3
  {
    assert StepTooLow(c, states[j], r, states[j + 1]) by { assert Step(c, states[j], actions[j], states[j + 1]); }
  }

  lemma RetryCame(c: Config, states: seq<State>, actions: seq<Action>, i: nat, r: RequestId, leg: Leg)
    requires IsRun(c, states, actions) && i < |states| && r in states[i].reqs && states[i].reqs[r].pc == Sending(leg, Sign(true))
    ensures i <= |actions| && Retried(states, actions, i, r, leg)
  {
    var k := LastTouch(c, states, actions, i, r);
    Into(c, states[k], actions[k], states[k + 1], r);
    var j := LastTouch(c, states, actions, k, r);
    Into(c, states[j], actions[j], states[j + 1], r);
  }

  lemma NoRetryCame(c: Config, states: seq<State>, actions: seq<Action>, i: nat, r: RequestId, leg: Leg)
    requires IsRun(c, states, actions) && i < |states| && r in states[i].reqs && states[i].reqs[r].pc == Sending(leg, Sign(false))
    ensures !Retried(states, actions, i, r, leg)
  {
    if j: nat :| j < i && actions[j] == Broadcast(r, TooLow) && OnLeg(states[j], r, leg) {
      TooLowLeft(c, states, actions, j, r, leg);
      OnwardRun(c, states, actions, j + 1, i, r);
    }
  }

  /** At its broadcast a send remembers exactly whether it was turned away before. */
  lemma RetriedExactly(c: Config, states: seq<State>, actions: seq<Action>, i: nat, r: RequestId, leg: Leg, retried: bool)
    requires IsRun(c, states, actions) && i < |states| && r in states[i].reqs && states[i].reqs[r].pc == Sending(leg, Sign(retried))
    ensures retried <==> Retried(states, actions, i, r, leg)
  {
    if retried {
      RetryCame(c, states, actions, i, r, leg);
    } else {
      NoRetryCame(c, states, actions, i, r, leg);
    }
  }

  /** What a send that ended leads to. */
  predicate Follows(leg: Leg, failed: bool, gaveUp: bool, pc: Pc) {
    match leg
    case Main => if failed then pc.Failing? else pc.Settling? && pc.parked == gaveUp
    case Gas => pc.Reserving?
    case Bonus => pc.Done?
    case Rate => pc.Done?
  }

  lemma QueueStepEnds(c: Config, s: State, a: Action, s': State, r: RequestId, leg: Leg)
    requires SendStep(c, s, a, s') && !a.Broadcast? && Actor(a) == Some(r) && OnLeg(s, r, leg)
    ensures r in s'.reqs && (OnLeg(s', r, leg) || Follows(leg, true, false, s'.reqs[r].pc))
    ensures !OnLeg(s', r, leg) <==> a == Resolve(r, false) || a == FetchNonce(r, false)
  {
  }

  lemma BroadcastEnds(c: Config, s: State, a: Action, s': State, r: RequestId, leg: Leg)
    requires SendStep(c, s, a, s') && a.Broadcast? && Actor(a) == Some(r) && OnLeg(s, r, leg)
    ensures r in s'.reqs && s.reqs[r].pc.Sending? && s.reqs[r].pc.stage.Sign?
    ensures OnLeg(s', r, leg) || Follows(leg, true, false, s'.reqs[r].pc)
    ensures !OnLeg(s', r, leg) <==>
              a == Broadcast(r, Refused) || (a == Broadcast(r, TooLow) && s.reqs[r].pc.stage == Sign(true))
  {
  }

  lemma EndStepEnds(s: State, a: Action, s': State, r: RequestId, leg: Leg)
    requires EndStep(s, a, s') && Actor(a) == Some(r) && OnLeg(s, r, leg)
    ensures r in s'.reqs && s.reqs[r].pc.Waiting? && s.reqs[r].pc.hash in s.chain && !OnLeg(s', r, leg)
    ensures a == Timeout(r) || a == Receipt(r)
    ensures a == Receipt(r) ==> s.chain[s.reqs[r].pc.hash].status.Mined? || s.chain[s.reqs[r].pc.hash].status.Reverted?
    ensures Follows(leg, a == Receipt(r) && s.chain[s.reqs[r].pc.hash].status.Reverted?, a == Timeout(r), s'.reqs[r].pc)
  {
  }

  lemma NoCheckOnLeg(c: Config, s: State, a: Action, s': State, r: RequestId, leg: Leg)
    requires CheckStep(c, s, a, s') && Actor(a) == Some(r)
    ensures !OnLeg(s, r, leg)
  {
  }

  /** A send goes on until a receipt, the timeout or a known failure, and these end it at once. A main send
      then fails exactly on a known failure, and settles otherwise, parked exactly on a timeout; the drip
      leads to the reservation whatever became of it, and the gift and the rate to the end. */
  lemma SendEndsExactly(c: Config, states: seq<State>, actions: seq<Action>, i: nat, r: RequestId, leg: Leg)
    requires IsRun(c, states, actions) && i < |actions| && Actor(actions[i]) == Some(r) && OnLeg(states[i], r, leg)
    ensures r in states[i + 1].reqs
    ensures !OnLeg(states[i + 1], r, leg) <==>
              actions[i] == Receipt(r) || actions[i] == Timeout(r) || KnownFailure(states, actions, i, r, leg)
    ensures !OnLeg(states[i + 1], r, leg) ==>
              Follows(leg, KnownFailure(states, actions, i, r, leg), actions[i] == Timeout(r), states[i + 1].reqs[r].pc)
  {
    var s, a, s' := states[i], actions[i], states[i + 1];
    assert Step(c, s, a, s');
    if CheckStep(c, s, a, s') {
      NoCheckOnLeg(c, s, a, s', r, leg);
    } else if SendStep(c, s, a, s') {
      if a.Broadcast? {
        BroadcastEnds(c, s, a, s', r, leg);
        RetriedExactly(c, states, actions, i, r, leg, s.reqs[r].pc.stage.retried);
      } else {
        QueueStepEnds(c, s, a, s', r, leg);
      }
    } else {
      EndStepEnds(s, a, s', r, leg);
    }
  }
}
