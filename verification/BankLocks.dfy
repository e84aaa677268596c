/** The lock table and the program counters never disagree: the five ways in which a step
    changes who holds what. */
module BankLocks {
  import opened BankModel
  import opened BankInvariant

  predicate OnlyMoves(s: State, s': State, r: RequestId) {
    && r in s.reqs && r in s'.reqs
    && s'.reqs == s.reqs[r := s'.reqs[r]]
    && s'.reqs[r].kind == s.reqs[r].kind
  }

  /** r keeps exactly the locks it has. */
  lemma LocksMove(c: Config, s: State, s': State, r: RequestId)
    requires LocksOk(c, s) && OnlyMoves(s, s', r) && s'.locks == s.locks
    requires HasAdvisory(s'.reqs[r]) == HasAdvisory(s.reqs[r])
    requires HasAdvisory(s.reqs[r]) ==> s'.reqs[r].user == s.reqs[r].user
    requires HasReservation(s'.reqs[r]) == HasReservation(s.reqs[r])
    requires UnderSigner(s'.reqs[r].pc) == UnderSigner(s.reqs[r].pc)
    ensures LocksOk(c, s')
  {
    assert forall x :: Holds(c, s'.reqs[r], x) <==> Holds(c, s.reqs[r], x);
  }

  /** r takes the free lock x. */
  lemma LocksTake(c: Config, s: State, s': State, r: RequestId, x: Resource)
    requires LocksOk(c, s) && OnlyMoves(s, s', r) && x !in s.locks && s'.locks == s.locks[x := r]
    requires s'.reqs[r].user == s.reqs[r].user
    requires HasAdvisory(s'.reqs[r]) == (HasAdvisory(s.reqs[r]) || x.Advisory?)
    requires x.Advisory? ==> x.key == c.lockKey(s.reqs[r].user)
    requires HasReservation(s'.reqs[r]) == (HasReservation(s.reqs[r]) || (!x.Advisory? && !x.SignerKey?))
    requires !x.Advisory? && !x.SignerKey? ==> Reserves(s.reqs[r].kind) && x == Reservation(s.reqs[r].kind)
    requires UnderSigner(s'.reqs[r].pc) == (UnderSigner(s.reqs[r].pc) || x.SignerKey?)
    requires x.SignerKey? ==> x.signer == SignerFor(c, s.reqs[r])
    ensures LocksOk(c, s')
  {
    assert forall y :: Holds(c, s'.reqs[r], y) <==> (Holds(c, s.reqs[r], y) || y == x);
  }

  /** r leaves the signer's critical section. */
  lemma LocksDropSigner(c: Config, s: State, s': State, r: RequestId)
    requires LocksOk(c, s) && OnlyMoves(s, s', r) && s'.locks == s.locks - {SignerKey(SignerFor(c, s.reqs[r]))}
    requires s'.reqs[r].user == s.reqs[r].user
    requires HasAdvisory(s'.reqs[r]) == HasAdvisory(s.reqs[r])
    requires HasReservation(s'.reqs[r]) == HasReservation(s.reqs[r])
    requires UnderSigner(s.reqs[r].pc) && !UnderSigner(s'.reqs[r].pc)
    ensures LocksOk(c, s')
  {
    var x := SignerKey(SignerFor(c, s.reqs[r]));
    assert Holds(c, s.reqs[r], x);
    assert forall y :: Holds(c, s'.reqs[r], y) <==> (Holds(c, s.reqs[r], y) && y != x);
  }

  /** r's transaction ends. */
  lemma LocksEnd(c: Config, s: State, s': State, r: RequestId)
    requires LocksOk(c, s) && OnlyMoves(s, s', r)
    requires s'.locks == map x | x in s.locks && s.locks[x] != r :: s.locks[x]
    requires !HasAdvisory(s'.reqs[r]) && !HasReservation(s'.reqs[r]) && !UnderSigner(s'.reqs[r].pc)
    ensures LocksOk(c, s')
  {
    assert forall x :: !Holds(c, s'.reqs[r], x);
  }

  /** Two requests never hold the same thing. */
  lemma Exclusive(c: Config, s: State, r1: RequestId, r2: RequestId, x: Resource)
    requires LocksOk(c, s) && r1 in s.reqs && r2 in s.reqs
    requires Holds(c, s.reqs[r1], x) && Holds(c, s.reqs[r2], x)
    ensures r1 == r2
  {
    assert x in s.locks && s.locks[x] == r1;
    assert s.locks[x] == r2;
  }

  /** At most one request of a user is inside its create/confirm/claim section. */
  lemma ExclusiveUser(c: Config, s: State, r1: RequestId, r2: RequestId)
    requires LocksOk(c, s) && r1 in s.reqs && r2 in s.reqs
    requires HasAdvisory(s.reqs[r1]) && HasAdvisory(s.reqs[r2]) && s.reqs[r1].user == s.reqs[r2].user
    ensures r1 == r2
  {
    Exclusive(c, s, r1, r2, Advisory(c.lockKey(s.reqs[r1].user)));
  }

  /** At most one request holds a row or a key. */
  lemma ExclusiveKey(c: Config, s: State, r1: RequestId, r2: RequestId)
    requires LocksOk(c, s) && r1 in s.reqs && r2 in s.reqs
    requires HasReservation(s.reqs[r1]) && HasReservation(s.reqs[r2])
    requires Reservation(s.reqs[r1].kind) == Reservation(s.reqs[r2].kind)
    ensures r1 == r2
  {
    Exclusive(c, s, r1, r2, Reservation(s.reqs[r1].kind));
  }
}
