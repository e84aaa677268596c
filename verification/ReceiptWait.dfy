/** The receipt poll of a signer: what it may conclude about a broadcast transaction, and that it
    ends, whatever the node and the transport do. Times are in seconds. */
module ReceiptWait {

  const RECEIPT_TIMEOUT: real := 60.0
  const RECEIPT_POLL: real := 2.0

  /** The status field of a receipt: a hexadecimal number, some other text, or no text at all. */
  datatype Status = Hex(value: int) | Text | NotText

  /** One poll: the call raised, there was no receipt object, or there was one. */
  datatype Reply = Raised | NoReceipt | Receipt(status: Status)

  /** Malformed: int(status, 16) raises, which send does not catch. */
  datatype Outcome = Success | Revert | TimedOut | Malformed

  function Conclusion(status: Status): Outcome {
    match status
    case Hex(v) => if v == 1 then Success else Revert
    case Text => Malformed
    case NotText => Revert
  }

  /** A poll that brings a receipt ends the wait; any other ends it only at the deadline. */
  predicate Ends(reply: Reply, elapsed: real) {
    reply.Receipt? || elapsed >= RECEIPT_TIMEOUT
  }

  function Verdict(reply: Reply): Outcome {
    if reply.Receipt? then Conclusion(reply.status) else TimedOut
  }

  /** elapsed(i) is the time since the start when poll i has answered; each sleep lasts at least the
      poll period. */
  ghost predicate Paced(elapsed: nat -> real) {
    && elapsed(0) >= 0.0
    && forall i: nat :: elapsed(i + 1) >= elapsed(i) + RECEIPT_POLL
  }

  lemma {:induction false} PacedTime(elapsed: nat -> real, i: nat)
    requires Paced(elapsed)
    ensures elapsed(i) >= RECEIPT_POLL * i as real
  {
    if i > 0 {
      PacedTime(elapsed, i - 1);
      assert elapsed((i - 1) + 1) >= elapsed(i - 1) + RECEIPT_POLL;
    }
  }

  /** Polls until a receipt or the deadline. The outcome is that of the first poll that ends the wait,
      so it is exactly one of the four; and there are at most 31 polls. */
  method WaitForReceipt(reply: nat -> Reply, elapsed: nat -> real) returns (outcome: Outcome, polls: nat)
    requires Paced(elapsed)
    ensures 1 <= polls <= 31
    ensures Ends(reply(polls - 1), elapsed(polls - 1)) && outcome == Verdict(reply(polls - 1))
    ensures forall i :: 0 <= i < polls - 1 ==> !Ends(reply(i), elapsed(i))
    ensures outcome.Success? <==> reply(polls - 1) == Receipt(Hex(1))
    ensures outcome.Revert? <==> reply(polls - 1).Receipt? && reply(polls - 1).status != Hex(1) && !reply(polls - 1).status.Text?
    ensures outcome.Malformed? <==> reply(polls - 1) == Receipt(Text)
    ensures outcome.TimedOut? <==> !reply(polls - 1).Receipt?
    ensures outcome.TimedOut? ==> elapsed(polls - 1) >= RECEIPT_TIMEOUT
  {
    polls := 0;
    outcome := TimedOut;
    while true
      invariant polls <= 30
      invariant forall i :: 0 <= i < polls ==> !Ends(reply(i), elapsed(i))
      decreases 31 - polls
    {
      var answer := reply(polls);
      var now := elapsed(polls);
      PacedTime(elapsed, polls);
      polls := polls + 1;
      match answer {
        case Raised =>
          if now >= RECEIPT_TIMEOUT { return TimedOut, polls; }
        case Receipt(status) =>
          return Conclusion(status), polls;
        case NoReceipt =>
          if now >= RECEIPT_TIMEOUT { return TimedOut, polls; }
      }
    }
  }

  /** What the node truly knows of the transaction when poll i is answered. */
  datatype Fate = Unmined | MinedOk | MinedReverted

  /** A node that never invents: a receipt appears only for a mined transaction, with its status as a
      hexadecimal text that is 1 exactly for success; and mining is final. */
  ghost predicate Truthful(reply: nat -> Reply, fate: nat -> Fate) {
    && (forall i: nat :: reply(i).Receipt? ==>
          && reply(i).status.Hex?
          && fate(i) == if reply(i).status.value == 1 then MinedOk else MinedReverted)
    && (forall i: nat :: !fate(i).Unmined? ==> fate(i + 1) == fate(i))
  }

  lemma {:induction false} FateIsFinal(reply: nat -> Reply, fate: nat -> Fate, i: nat, j: nat)
    requires Truthful(reply, fate) && i <= j && !fate(i).Unmined?
    ensures fate(j) == fate(i)
    decreases j
  {
    if i < j {
      FateIsFinal(reply, fate, i, j - 1);
      assert fate((j - 1) + 1) == fate(j - 1);
    }
  }

  /** The outcome of a wait: the verdict of its last poll, the first that ends it. */
  ghost predicate IsOutcome(reply: nat -> Reply, elapsed: nat -> real, outcome: Outcome, polls: nat) {
    && polls >= 1 && Ends(reply(polls - 1), elapsed(polls - 1)) && outcome == Verdict(reply(polls - 1))
    && forall i :: 0 <= i < polls - 1 ==> !Ends(reply(i), elapsed(i))
  }

  /** With a truthful node the three outcomes mean what the callers take them for: success and revert
      are final facts about the chain, and anything short of a receipt is unknown, never a failure. */
  lemma OutcomeMeaning(reply: nat -> Reply, elapsed: nat -> real, fate: nat -> Fate, outcome: Outcome, polls: nat, later: nat)
    requires Paced(elapsed) && Truthful(reply, fate) && IsOutcome(reply, elapsed, outcome, polls) && later >= polls - 1
    ensures outcome != Malformed
    ensures outcome.Success? ==> fate(later).MinedOk?
    ensures outcome.Revert? ==> fate(later).MinedReverted?
    ensures outcome.TimedOut? <==> forall i :: 0 <= i < polls ==> !reply(i).Receipt?
  {
    if reply(polls - 1).Receipt? {
      FateIsFinal(reply, fate, polls - 1, later);
    }
  }

  /** The bound is reached: a node that never answers is polled 31 times when every sleep lasts
      exactly the poll period. */
  lemma BoundIsTight(reply: nat -> Reply, elapsed: nat -> real, outcome: Outcome, polls: nat)
    requires forall i: nat :: reply(i) == Raised && elapsed(i) == RECEIPT_POLL * i as real
    requires IsOutcome(reply, elapsed, outcome, polls)
    ensures polls == 31 && outcome.TimedOut?
  {
    assert Ends(reply(30), elapsed(30));
  }
}
