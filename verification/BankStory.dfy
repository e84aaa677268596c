/** How a request came to where it is: the last step that moved it, and what each point of its program
    says about the steps before it. */
module BankStory {
  import opened Common
  import opened BankModel
  import opened BankInvariant
  import opened BankSafety
  import opened BankOnce
  import opened BankProgress

  // ---------------------------------------------------------------- the last step of a request

  /** The action brings r in or is a step of r. */
  predicate Touches(a: Action, r: RequestId) {
    Actor(a) == Some(r) || (a.Arrive? && a.r == r)
  }

  /** A step that does not touch r leaves it alone. */
  ghost predicate LeavesAlone(s: State, a: Action, s': State, r: RequestId) {
    r in s'.reqs && !Touches(a, r) ==> r in s.reqs && s'.reqs[r] == s.reqs[r]
  }

  lemma StepLeavesAlone(c: Config, s: State, a: Action, s': State, r: RequestId)
    requires Step(c, s, a, s')
    ensures LeavesAlone(s, a, s', r)
  {
    if Actor(a).Some? {
      StepMoves(c, s, a, s');
    } else {
      EnvMoves(c, s, a, s');
    }
  }

  lemma {:induction false} LastTouchAlong(states: seq<State>, actions: seq<Action>, i: nat, r: RequestId) returns (k: nat)
    requires |states| == |actions| + 1 && i < |states| && states[0].reqs == map[] && r in states[i].reqs
    requires forall m :: 0 <= m < |actions| ==> LeavesAlone(states[m], actions[m], states[m + 1], r)
    ensures k < i && Touches(actions[k], r)
    ensures forall m :: k < m <= i ==> r in states[m].reqs && states[m].reqs[r] == states[i].reqs[r]
  {
    assert LeavesAlone(states[i - 1], actions[i - 1], states[i - 1 + 1], r);
    if Touches(actions[i - 1], r) {
      k := i - 1;
    } else {
      k := LastTouchAlong(states, actions, i - 1, r);
    }
  }

  /** The step that made r what it is. */
  lemma LastTouch(c: Config, states: seq<State>, actions: seq<Action>, i: nat, r: RequestId) returns (k: nat)
    requires IsRun(c, states, actions) && i < |states| && r in states[i].reqs
    ensures k < i && Touches(actions[k], r) && Step(c, states[k], actions[k], states[k + 1])
    ensures forall m :: k < m <= i ==> r in states[m].reqs && states[m].reqs[r] == states[i].reqs[r]
  {
    forall m | 0 <= m < |actions| ensures LeavesAlone(states[m], actions[m], states[m + 1], r) {
      StepLeavesAlone(c, states[m], actions[m], states[m + 1], r);
    }
    k := LastTouchAlong(states, actions, i, r);
  }

  // ---------------------------------------------------------------- which steps lead where

  lemma CheckInto(c: Config, s: State, a: Action, s': State)
    requires CheckStep(c, s, a, s') && !a.Lock? && !a.ClaimRow? && !a.ReserveKey?
    ensures a.r in s.reqs && a.r in s'.reqs
    ensures var pc := s'.reqs[a.r].pc;
            && (pc.SumWithdrawals? ==> a.ReadDeposits?)
            && (pc.Capping? ==> a.ReadWithdrawals?)
            && (pc.Filing? ==> a.CheckCap?)
            && (pc.Sending? ==> pc.stage.Resolving?)
            && !pc.Begin? && !pc.SumDeposits? && !pc.Rejecting? && !pc.Waiting? && !pc.Settling? && !pc.Failing?
  {
  }

  lemma LockInto(c: Config, s: State, a: Action, s': State)
    requires CheckStep(c, s, a, s') && (a.Lock? || a.ClaimRow? || a.ReserveKey?)
    ensures a.r in s.reqs && a.r in s'.reqs
    ensures var pc := s'.reqs[a.r].pc;
            && (pc.Rejecting? ==> a.ClaimRow?)
            && (pc.Sending? ==> a.ReserveKey? && pc.stage.Resolving?)
            && !pc.Begin? && !pc.SumWithdrawals? && !pc.Capping? && !pc.Filing? && !pc.Waiting? && !pc.Settling? && !pc.Failing?
  {
  }

  lemma SendInto(c: Config, s: State, a: Action, s': State)
    requires SendStep(c, s, a, s')
    ensures a.r in s.reqs && a.r in s'.reqs && s.reqs[a.r].pc.Sending?
    ensures var pc := s'.reqs[a.r].pc;
            && (pc.Waiting? ==> a.Broadcast? && a.reply.Taken? && pc == Waiting(s.reqs[a.r].pc.leg, a.reply.hash))
            && (pc.Sending? && pc.stage.Resync? ==> a.Broadcast? && a.reply.TooLow? && pc.leg == s.reqs[a.r].pc.leg)
            && (pc.Sending? && pc.stage == Sign(true) ==> a.FetchNonce? && s.reqs[a.r].pc == Sending(pc.leg, Resync))
            && !pc.Begin? && !pc.SumDeposits? && !pc.SumWithdrawals? && !pc.Capping? && !pc.Filing? && !pc.Rejecting?
            && !pc.Settling?
  {
  }

  lemma EndInto(s: State, a: Action, s': State)
    requires EndStep(s, a, s')
    ensures a.r in s.reqs && a.r in s'.reqs
    ensures var pc := s'.reqs[a.r].pc;
            && (pc.Settling? ==>
                  && s.reqs[a.r].pc == Waiting(Main, pc.hash)
                  && a == if pc.parked then Timeout(a.r) else Receipt(a.r))
            && (pc.Sending? ==> pc.stage.Resolving?)
            && !pc.Begin? && !pc.SumDeposits? && !pc.SumWithdrawals? && !pc.Capping? && !pc.Filing? && !pc.Rejecting?
            && !pc.Waiting?
  {
  }

  /** The only steps of r that lead to these points. */
  lemma Into(c: Config, s: State, a: Action, s': State, r: RequestId)
    requires Step(c, s, a, s') && Actor(a) == Some(r)
    ensures r in s.reqs && r in s'.reqs
    ensures var pc, pc' := s.reqs[r].pc, s'.reqs[r].pc;
            && !pc'.Begin?
            && (pc'.SumWithdrawals? ==> a == ReadDeposits(r))
            && (pc'.Capping? ==> a == ReadWithdrawals(r))
            && (pc'.Filing? ==> a == CheckCap(r))
            && (pc'.Waiting? ==> pc.Sending? && a == Broadcast(r, Taken(pc'.hash)) && pc'.leg == pc.leg)
            && (pc'.Settling? ==> pc == Waiting(Main, pc'.hash) && a == if pc'.parked then Timeout(r) else Receipt(r))
            && (pc'.Sending? && pc'.stage.Resync? ==> pc.Sending? && a == Broadcast(r, TooLow) && pc'.leg == pc.leg)
            && (pc'.Sending? && pc'.stage == Sign(true) ==> a.FetchNonce? && pc == Sending(pc'.leg, Resync))
  {
    if a.Lock? || a.ClaimRow? || a.ReserveKey? {
      LockInto(c, s, a, s');
    } else if CheckStep(c, s, a, s') {
      CheckInto(c, s, a, s');
    } else if SendStep(c, s, a, s') {
      SendInto(c, s, a, s');
    } else {
      EndInto(s, a, s');
    }
  }

  // ---------------------------------------------------------------- what a request was asked and first read

  /** The step moves r's program counter and nothing else of r. */
  ghost predicate OnlyPc(s: State, s': State, r: RequestId) {
    r in s.reqs && r in s'.reqs && !s.reqs[r].pc.Begin? && s'.reqs[r] == s.reqs[r].(pc := s'.reqs[r].pc)
  }

  lemma ReadOnlyPc(c: Config, s: State, a: Action, s': State)
    requires CheckStep(c, s, a, s') && !a.Load? && !a.Lock? && !a.ClaimRow? && !a.ReserveKey?
    ensures OnlyPc(s, s', a.r)
  {
  }

  lemma LockOnlyPc(c: Config, s: State, a: Action, s': State)
    requires CheckStep(c, s, a, s') && (a.Lock? || a.ClaimRow? || a.ReserveKey?)
    ensures OnlyPc(s, s', a.r)
  {
  }

  lemma SendOnlyPc(c: Config, s: State, a: Action, s': State)
    requires SendStep(c, s, a, s')
    ensures OnlyPc(s, s', a.r)
  {
  }

  lemma EndOnlyPc(s: State, a: Action, s': State)
    requires EndStep(s, a, s')
    ensures OnlyPc(s, s', a.r)
  {
  }

  lemma OwnOnlyPc(c: Config, s: State, a: Action, s': State)
    requires Step(c, s, a, s') && Actor(a).Some? && !a.Load?
    ensures OnlyPc(s, s', Actor(a).value)
  {
    if a.Lock? || a.ClaimRow? || a.ReserveKey? {
      LockOnlyPc(c, s, a, s');
    } else if CheckStep(c, s, a, s') {
      ReadOnlyPc(c, s, a, s');
    } else if SendStep(c, s, a, s') {
      SendOnlyPc(c, s, a, s');
    } else {
      EndOnlyPc(s, a, s');
    }
  }

  /** Action k brought r in, to do this. */
  ghost predicate ArrivedAt(actions: seq<Action>, k: nat, r: RequestId, kind: Kind) {
    k < |actions| && actions[k] == Arrive(r, kind)
  }

  lemma Arrived(c: Config, states: seq<State>, actions: seq<Action>, i: nat, r: RequestId) returns (k: nat)
    requires IsRun(c, states, actions) && i < |states| && r in states[i].reqs && states[i].reqs[r].pc.Begin?
    ensures k < i && ArrivedAt(actions, k, r, states[i].reqs[r].kind)
    ensures states[i].reqs[r] == Request(states[i].reqs[r].kind, Subject(states[i].reqs[r].kind), 0, 0, 0, Begin)
  {
    k := LastTouch(c, states, actions, i, r);
    if Actor(actions[k]).Some? { Into(c, states[k], actions[k], states[k + 1], r); }
  }

  /** Every request arrived with its kind, and once it has begun its first reads, at a given step, are what
      it goes by to its end. */
  lemma {:induction false} Story(c: Config, states: seq<State>, actions: seq<Action>, i: nat, r: RequestId)
    returns (k: nat, l: nat)
    requires IsRun(c, states, actions) && i < |states| && r in states[i].reqs && !states[i].reqs[r].pc.Begin?
    ensures k < l < i && actions[l] == Load(r) && ArrivedAt(actions, k, r, states[i].reqs[r].kind)
    ensures var kind := states[i].reqs[r].kind;
            states[i].reqs[r] ==
              Loaded(states[l].db, Request(kind, Subject(kind), 0, 0, 0, Begin)).(pc := states[i].reqs[r].pc)
    decreases i
  {
    var m := LastTouch(c, states, actions, i, r);
    if actions[m].Load? {
      l := m;
      k := Arrived(c, states, actions, m, r);
    } else {
      OwnOnlyPc(c, states[m], actions[m], states[m + 1]);
      k, l := Story(c, states, actions, m, r);
    }
  }

  // ---------------------------------------------------------------- between two states

  /** From one state to a later one the steps r has left only fall, its kind stays, and so does all of r if
      no step was made. */
  ghost predicate Onward(s: State, s': State, r: RequestId) {
    && Remaining(s', r) <= Remaining(s, r)
    && (r in s.reqs ==>
          && r in s'.reqs && s'.reqs[r].kind == s.reqs[r].kind
          && (Remaining(s', r) == Remaining(s, r) ==> s'.reqs[r] == s.reqs[r]))
  }

  lemma StepOnward(c: Config, s: State, a: Action, s': State, r: RequestId)
    requires Step(c, s, a, s')
    ensures Onward(s, s', r)
  {
    StepFalls(c, s, a, s', r);
    if Actor(a).Some? {
      StepMoves(c, s, a, s');
      if !a.Load? { OwnOnlyPc(c, s, a, s'); }
    } else {
      EnvMoves(c, s, a, s');
    }
  }

  lemma {:induction false} OnwardAlong(states: seq<State>, i: nat, j: nat, r: RequestId)
    requires i <= j < |states|
    requires forall k :: 0 <= k < |states| - 1 ==> Onward(states[k], states[k + 1], r)
    ensures Onward(states[i], states[j], r)
    decreases j
  {
    if i < j {
      OnwardAlong(states, i, j - 1, r);
      assert Onward(states[j - 1], states[j - 1 + 1], r);
    }
  }

  lemma OnwardRun(c: Config, states: seq<State>, actions: seq<Action>, i: nat, j: nat, r: RequestId)
    requires IsRun(c, states, actions) && i <= j < |states|
    ensures Onward(states[i], states[j], r)
  {
    forall k | 0 <= k < |states| - 1 ensures Onward(states[k], states[k + 1], r) {
      StepOnward(c, states[k], actions[k], states[k + 1], r);
    }
    OnwardAlong(states, i, j, r);
  }
}
