/** The nonce stream of every signer, shared by all requests that send with its key. */
module BankNonces {
  import opened BankModel
  import opened BankInvariant
  import opened BankLocks
  import opened BankSafety

  /** Accepted nonces strictly increase, and by one unless the counter was reloaded in between. */
  ghost predicate StreamOk(log: seq<Sent>) {
    && (forall i, j :: 0 <= i < j < |log| ==> log[i].nonce < log[j].nonce)
    && (forall i :: 0 < i < |log| ==> log[i].resynced || log[i].nonce == log[i - 1].nonce + 1)
  }

  ghost predicate SignerOk(g: Signer) {
    && StreamOk(g.log)
    && (g.counter.None? ==> g.log == [])
    && (g.counter.Some? ==>
          && (forall i :: 0 <= i < |g.log| ==> g.log[i].nonce < g.counter.value)
          && (g.resynced || (|g.log| > 0 && g.counter.value == g.log[|g.log| - 1].nonce + 1)))
  }

  /** What a request inside the critical section knows about the counter. */
  ghost predicate StageOk(c: Config, s: State, q: Request) {
    q.pc.Sending? ==>
      var g := SignerAt(s, SignerFor(c, q));
      match q.pc.stage
      case NeedNonce => g.counter.None?
      case Sign(_) => g.counter.Some?
      case Resync => g.counter.Some? && g.counter.value < g.count
      case _ => true
  }

  ghost predicate InLog(log: seq<Sent>, h: Hash, nonce: nat) {
    exists i :: 0 <= i < |log| && log[i].hash == h && log[i].nonce == nonce
  }

  ghost predicate Logged(s: State, h: Hash)
    requires h in s.chain
  {
    InLog(SignerAt(s, s.chain[h].signer).log, h, s.chain[h].nonce)
  }

  ghost predicate NoncesOk(c: Config, s: State) {
    && (forall g :: SignerOk(SignerAt(s, g)))
    && (forall r :: r in s.reqs ==> StageOk(c, s, s.reqs[r]))
    && (forall h :: h in s.chain ==> Logged(s, h))
  }

  ghost predicate SameTxs(s: State, s': State) {
    && s'.chain.Keys == s.chain.Keys
    && forall h :: h in s.chain ==> s'.chain[h].signer == s.chain[h].signer && s'.chain[h].nonce == s.chain[h].nonce
  }

  lemma LoggedStays(s: State, s': State)
    requires SameTxs(s, s') && forall g :: SignerAt(s', g).log == SignerAt(s, g).log
    requires forall h :: h in s.chain ==> Logged(s, h)
    ensures forall h :: h in s'.chain ==> Logged(s', h)
  {
    forall h | h in s'.chain ensures Logged(s', h) { assert Logged(s, h); }
  }

  /** A step that leaves the signers alone; r knows what its stage needs. */
  lemma NoncesMove(c: Config, s: State, s': State, r: RequestId)
    requires NoncesOk(c, s) && s'.signers == s.signers && SameTxs(s, s')
    requires r in s'.reqs && s'.reqs == s.reqs[r := s'.reqs[r]] && StageOk(c, s', s'.reqs[r])
    ensures NoncesOk(c, s')
  {
    forall g ensures SignerOk(SignerAt(s', g)) && SignerAt(s', g).log == SignerAt(s, g).log {
      assert SignerOk(SignerAt(s, g));
    }
    forall o | o in s'.reqs ensures StageOk(c, s', s'.reqs[o]) {
      if o != r { assert StageOk(c, s, s.reqs[o]); }
    }
    LoggedStays(s, s');
  }

  lemma NoncesQuiet(c: Config, s: State, s': State, r: RequestId)
    requires NoncesOk(c, s) && s'.signers == s.signers && SameTxs(s, s')
    requires r in s'.reqs && s'.reqs == s.reqs[r := s'.reqs[r]] && !UnderSigner(s'.reqs[r].pc)
    ensures NoncesOk(c, s')
  {
    NoncesMove(c, s, s', r);
  }

  lemma NoncesTakeSigner(c: Config, s: State, r: RequestId, s': State)
    requires NoncesOk(c, s) && StepTakeSigner(c, s, r, s')
    ensures NoncesOk(c, s')
  {
    NoncesMove(c, s, s', r);
  }

  /** Nobody else is between reading and advancing this counter. */
  lemma OneInSection(c: Config, s: State, r: RequestId, o: RequestId)
    requires LocksOk(c, s) && r in s.reqs && o in s.reqs
    requires UnderSigner(s.reqs[r].pc) && UnderSigner(s.reqs[o].pc) && SignerFor(c, s.reqs[r]) == SignerFor(c, s.reqs[o])
    ensures r == o
  {
    Exclusive(c, s, r, o, SignerKey(SignerFor(c, s.reqs[r])));
  }

  lemma NoncesFetch(c: Config, s: State, r: RequestId, s': State)
    requires LocksOk(c, s) && NoncesOk(c, s) && StepFetchNonce(c, s, r, true, s')
    ensures NoncesOk(c, s')
  {
    var g := SignerFor(c, s.reqs[r]);
    assert StageOk(c, s, s.reqs[r]);
    forall x ensures SignerOk(SignerAt(s', x)) && SignerAt(s', x).log == SignerAt(s, x).log {
      assert SignerOk(SignerAt(s, x));
    }
    forall o | o in s'.reqs ensures StageOk(c, s', s'.reqs[o]) {
      if o != r {
        assert StageOk(c, s, s.reqs[o]);
        if UnderSigner(s.reqs[o].pc) && SignerFor(c, s.reqs[o]) == g { OneInSection(c, s, r, o); }
      }
    }
    LoggedStays(s, s');
  }

  lemma StreamExtends(log: seq<Sent>, e: Sent)
    requires StreamOk(log)
    requires forall i :: 0 <= i < |log| ==> log[i].nonce < e.nonce
    requires |log| > 0 ==> e.resynced || e.nonce == log[|log| - 1].nonce + 1
    ensures StreamOk(log + [e])
  {
  }

  lemma TakenSigner(c: Config, s: State, r: RequestId, h: Hash, s': State, x: SignerId)
    requires StepTaken(c, s, r, h, s') && SignerOk(SignerAt(s, x))
    ensures SignerOk(SignerAt(s', x))
    ensures SignerAt(s, x).log <= SignerAt(s', x).log
  {
    if x == SignerFor(c, s.reqs[r]) {
      var signer := SignerAt(s, x);
      StreamExtends(signer.log, Sent(h, signer.counter.value, signer.resynced));
    }
  }

  lemma TakenLogged(c: Config, s: State, r: RequestId, h: Hash, s': State, j: Hash)
    requires StepTaken(c, s, r, h, s') && j in s'.chain && (j in s.chain ==> Logged(s, j))
    ensures Logged(s', j)
  {
    var log, log' := SignerAt(s, s'.chain[j].signer).log, SignerAt(s', s'.chain[j].signer).log;
    if j == h {
      assert log'[|log|].hash == h && log'[|log|].nonce == s'.chain[h].nonce;
    } else {
      var i :| 0 <= i < |log| && log[i].hash == j && log[i].nonce == s.chain[j].nonce;
      assert log'[i] == log[i];
    }
  }

  lemma NoncesTaken(c: Config, s: State, r: RequestId, h: Hash, s': State)
    requires LocksOk(c, s) && NoncesOk(c, s) && StepTaken(c, s, r, h, s')
    ensures NoncesOk(c, s')
  {
    forall x ensures SignerOk(SignerAt(s', x)) { TakenSigner(c, s, r, h, s', x); }
    forall o | o in s'.reqs ensures StageOk(c, s', s'.reqs[o]) {
      if o != r {
        assert StageOk(c, s, s.reqs[o]);
        if UnderSigner(s.reqs[o].pc) && SignerFor(c, s.reqs[o]) == SignerFor(c, s.reqs[r]) { OneInSection(c, s, r, o); }
      }
    }
    forall j | j in s'.chain ensures Logged(s', j) { TakenLogged(c, s, r, h, s', j); }
  }

  lemma NoncesTooLow(c: Config, s: State, r: RequestId, s': State)
    requires NoncesOk(c, s) && StepTooLow(c, s, r, s')
    ensures NoncesOk(c, s')
  {
    if s.reqs[r].pc.stage.retried {
      NoncesQuiet(c, s, s', r);
    } else {
      NoncesMove(c, s, s', r);
    }
  }

  lemma GrownSigner(c: Config, s: State, g: SignerId, count: nat, s': State, x: SignerId)
    requires StepGrowCount(s, g, count, s')
    ensures SignerAt(s', x).log == SignerAt(s, x).log && SignerAt(s', x).counter == SignerAt(s, x).counter
    ensures SignerAt(s', x).resynced == SignerAt(s, x).resynced && SignerAt(s, x).count <= SignerAt(s', x).count
  {
  }

  /** A step outside every request: logs and counters stay, counts may grow. */
  lemma NoncesEnv(c: Config, s: State, s': State)
    requires NoncesOk(c, s) && s'.reqs == s.reqs && SameTxs(s, s')
    requires forall x :: SignerAt(s', x).log == SignerAt(s, x).log && SignerAt(s', x).counter == SignerAt(s, x).counter
               && SignerAt(s', x).resynced == SignerAt(s, x).resynced && SignerAt(s, x).count <= SignerAt(s', x).count
    ensures NoncesOk(c, s')
  {
    forall x ensures SignerOk(SignerAt(s', x)) { assert SignerOk(SignerAt(s, x)); }
    forall o | o in s'.reqs ensures StageOk(c, s', s'.reqs[o]) { assert StageOk(c, s, s.reqs[o]); }
    LoggedStays(s, s');
  }

  lemma NoncesGrow(c: Config, s: State, g: SignerId, count: nat, s': State)
    requires NoncesOk(c, s) && StepGrowCount(s, g, count, s')
    ensures NoncesOk(c, s')
  {
    forall x
      ensures SignerAt(s', x).log == SignerAt(s, x).log && SignerAt(s', x).counter == SignerAt(s, x).counter
           && SignerAt(s', x).resynced == SignerAt(s, x).resynced && SignerAt(s, x).count <= SignerAt(s', x).count
    {
      GrownSigner(c, s, g, count, s', x);
    }
    NoncesEnv(c, s, s');
  }

  ghost predicate LeavesSigners(s: State, a: Action, s': State)
    requires !a.Mine? && !a.GrowCount? && !a.BindWallet? && !a.InsertPending?
  {
    && s'.signers == s.signers && SameTxs(s, s')
    && a.r in s'.reqs && s'.reqs == s.reqs[a.r := s'.reqs[a.r]] && !UnderSigner(s'.reqs[a.r].pc)
  }

  lemma LockShape(c: Config, s: State, a: Action, s': State)
    requires CheckStep(c, s, a, s') && (a.Lock? || a.ClaimRow? || a.ReserveKey?)
    ensures LeavesSigners(s, a, s')
  {
  }

  lemma ReadShape(c: Config, s: State, a: Action, s': State)
    requires CheckStep(c, s, a, s') && !a.Lock? && !a.ClaimRow? && !a.ReserveKey?
    ensures LeavesSigners(s, a, s')
  {
  }

  lemma CheckQuiet(c: Config, s: State, a: Action, s': State)
    requires NoncesOk(c, s) && CheckStep(c, s, a, s')
    ensures NoncesOk(c, s')
  {
    if a.Lock? || a.ClaimRow? || a.ReserveKey? {
      LockShape(c, s, a, s');
    } else {
      ReadShape(c, s, a, s');
    }
    NoncesQuiet(c, s, s', a.r);
  }

  lemma EndShape(s: State, a: Action, s': State)
    requires EndStep(s, a, s')
    ensures LeavesSigners(s, a, s')
  {
  }

  lemma EndQuiet(c: Config, s: State, a: Action, s': State)
    requires NoncesOk(c, s) && EndStep(s, a, s')
    ensures NoncesOk(c, s')
  {
    EndShape(s, a, s');
    NoncesQuiet(c, s, s', a.r);
  }

  lemma NoncesFail(c: Config, s: State, r: RequestId, s': State)
    requires NoncesOk(c, s) && r in s.reqs && s.reqs[r].pc.Sending? && s' == FailSend(c, s, r)
    ensures NoncesOk(c, s')
  {
    NoncesQuiet(c, s, s', r);
  }

  lemma SendQuiet(c: Config, s: State, a: Action, s': State)
    requires LocksOk(c, s) && NoncesOk(c, s) && SendStep(c, s, a, s')
    ensures NoncesOk(c, s')
  {
    match a
    case TakeSigner(r) => NoncesTakeSigner(c, s, r, s');
    case FetchNonce(r, true) => NoncesFetch(c, s, r, s');
    case FetchNonce(r, false) => NoncesFail(c, s, r, s');
    case Broadcast(r, Taken(h)) => NoncesTaken(c, s, r, h, s');
    case Broadcast(r, TooLow) => NoncesTooLow(c, s, r, s');
    case Broadcast(r, Refused) => NoncesFail(c, s, r, s');
    case Resolve(r, ok) => NoncesQuiet(c, s, s', r);
  }

  lemma EnvShape(s: State, a: Action, s': State)
    requires EnvStep(s, a, s') && !a.Arrive? && !a.GrowCount?
    ensures s'.reqs == s.reqs && s'.signers == s.signers && SameTxs(s, s')
  {
  }

  lemma EnvQuiet(c: Config, s: State, a: Action, s': State)
    requires NoncesOk(c, s) && EnvStep(s, a, s')
    ensures NoncesOk(c, s')
  {
    match a
    case GrowCount(g, count) => NoncesGrow(c, s, g, count, s');
    case Arrive(r, kind) => NoncesQuiet(c, s, s', r);
    case _ =>
      EnvShape(s, a, s');
      NoncesEnv(c, s, s');
  }

  lemma NoncesStep(c: Config, s: State, a: Action, s': State)
    requires LocksOk(c, s) && NoncesOk(c, s) && Step(c, s, a, s')
    ensures NoncesOk(c, s')
  {
    if CheckStep(c, s, a, s') {
      CheckQuiet(c, s, a, s');
    } else if SendStep(c, s, a, s') {
      SendQuiet(c, s, a, s');
    } else if EndStep(s, a, s') {
      EndQuiet(c, s, a, s');
    } else {
      EnvQuiet(c, s, a, s');
    }
  }

  lemma {:induction false} NoncesRun(c: Config, states: seq<State>, actions: seq<Action>, i: nat)
    requires IsRun(c, states, actions) && i < |states|
    ensures NoncesOk(c, states[i])
  {
    if i > 0 {
      NoncesRun(c, states, actions, i - 1);
      InvRun(c, states, actions, i - 1);
      NoncesStep(c, states[i - 1], actions[i - 1], states[i]);
    }
  }

  /** Whatever requests send with a key at once, in order of acceptance its nonces strictly increase,
      by one except right after the counter was reloaded; no two accepted transactions share a nonce. */
  lemma NoncesIncrease(c: Config, states: seq<State>, actions: seq<Action>, i: nat, g: SignerId)
    requires IsRun(c, states, actions) && i < |states|
    ensures StreamOk(SignerAt(states[i], g).log)
    ensures forall h1, h2 ::
              (h1 in states[i].chain && h2 in states[i].chain
               && states[i].chain[h1].signer == g && states[i].chain[h2].signer == g
               && states[i].chain[h1].nonce == states[i].chain[h2].nonce) ==> h1 == h2
  {
    var s := states[i];
    NoncesRun(c, states, actions, i);
    assert SignerOk(SignerAt(s, g));
    forall h1, h2 | h1 in s.chain && h2 in s.chain && s.chain[h1].signer == g && s.chain[h2].signer == g
      && s.chain[h1].nonce == s.chain[h2].nonce
      ensures h1 == h2
    {
      DistinctNonces(c, s, h1, h2);
    }
  }

  lemma DistinctNonces(c: Config, s: State, h1: Hash, h2: Hash)
    requires NoncesOk(c, s) && h1 in s.chain && h2 in s.chain
    requires s.chain[h1].signer == s.chain[h2].signer && s.chain[h1].nonce == s.chain[h2].nonce
    ensures h1 == h2
  {
    var log := SignerAt(s, s.chain[h1].signer).log;
    assert SignerOk(SignerAt(s, s.chain[h1].signer));
    assert Logged(s, h1) && Logged(s, h2);
    var i :| 0 <= i < |log| && log[i].hash == h1 && log[i].nonce == s.chain[h1].nonce;
    var j :| 0 <= j < |log| && log[j].hash == h2 && log[j].nonce == s.chain[h2].nonce;
  }

  /** Never two broadcasts with one key at once: at most one request is inside a signer's critical section. */
  lemma OneBroadcastAtATime(c: Config, states: seq<State>, actions: seq<Action>, i: nat, r: RequestId, o: RequestId)
    requires IsRun(c, states, actions) && i < |states| && r in states[i].reqs && o in states[i].reqs
    requires UnderSigner(states[i].reqs[r].pc) && UnderSigner(states[i].reqs[o].pc)
    requires SignerFor(c, states[i].reqs[r]) == SignerFor(c, states[i].reqs[o])
    ensures r == o
  {
    InvRun(c, states, actions, i);
    OneInSection(c, states[i], r, o);
  }
}
