/** The feed keepers' relay guard: what a price or reserve feed may become over any number of rounds
    when the keeper is its only poster. */
module Keeper {
  import opened Common
  import opened Decimals
  import opened Proposals

  datatype Decision = Post | Skip | Refuse

  function Delta(a: int, b: int): nat {
    if b > a then b - a else a - b
  }

  function JumpBps(current: int, next: int): int
    requires current != 0
  {
    Truncated(Delta(current, next) * 10000, current)
  }

  /** Price feeds: age is now minus the on-chain updatedAt. */
  function DecidePost(current: int, next: int, age: int, minDelta: int, maxJumpBps: int, heartbeat: int): Decision {
    if current > 0 then
      if Delta(current, next) <= minDelta then
        if age >= heartbeat then Post else Skip
      else if JumpBps(current, next) > maxJumpBps then Refuse
      else Post
    else Post
  }

  /** Reserve feed: a change beyond the guard needs RESERVE_CONFIRM to spell the new value exactly. */
  function DecideReservePost(
      current: int, next: int, age: int, heartbeat: int, maxJumpBps: int, confirm: Option<string>): Decision {
    if current == 0 then Post
    else if next == current then
      if age >= heartbeat then Post else Skip
    else if JumpBps(current, next) > maxJumpBps then
      if confirm == Some(Decimal(next)) then Post else Refuse
    else Post
  }

  // ---------------------------------------------------------------- one round

  /** The guard in exact terms: at most B whole basis points is less than B + 1 exact ones. */
  lemma GuardIsExact(current: int, next: int, b: int)
    requires current > 0
    ensures JumpBps(current, next) <= b <==> Delta(current, next) * 10000 < (b + 1) * current
  {
    var n: nat := Delta(current, next) * 10000;
    var q := n / current;
    assert q * current <= n < q * current + current;
    if q <= b {
      assert (q + 1) * current <= (b + 1) * current by { Scale(q + 1, b + 1, current); }
    } else {
      assert (b + 1) * current <= q * current by { Scale(b + 1, q, current); }
    }
  }

  lemma Scale(a: int, b: int, c: nat)
    requires a <= b
    ensures a * c <= b * c
  {
    assert b * c == a * c + (b - a) * c;
    assert (b - a) * c >= 0 by { Product(b - a, c); }
  }

  lemma Product(a: nat, b: nat)
    ensures a * b >= 0
  {
  }

  /** The change is beyond the guard, in exact arithmetic. On an answer that is not positive the quotient is
      negative or zero, and rounds up. */
  predicate IsBeyond(current: int, next: int, b: int) {
    if current > 0 then (next - current) * 10000 >= (b + 1) * current || (current - next) * 10000 >= (b + 1) * current
    else (next - current) * 10000 < b * current && (current - next) * 10000 < b * current
  }

  lemma NegativeGuard(n: nat, c: nat, b: int)
    requires c > 0
    ensures -(n / c) > b <==> n < (0 - b) * c
  {
    var q := n / c;
    assert q * c <= n < q * c + c;
    if q <= 0 - b - 1 {
      assert (q + 1) * c <= (0 - b) * c by { Scale(q + 1, 0 - b, c); }
    } else {
      assert (0 - b) * c <= q * c by { Scale(0 - b, q, c); }
    }
  }

  lemma BeyondIsExact(current: int, next: int, b: int)
    requires current != 0 && next != current
    ensures JumpBps(current, next) > b <==> IsBeyond(current, next, b)
  {
    if current > 0 {
      GuardIsExact(current, next, b);
      BelowBoth(current, next, b);
    } else {
      var n: nat, c: nat := Delta(current, next) * 10000, 0 - current;
      assert JumpBps(current, next) == -(n / c);
      NegativeGuard(n, c, b);
      assert (0 - b) * c == b * current;
    }
  }

  lemma BelowBoth(current: int, next: int, b: int)
    requires current > 0 && next != current
    ensures Delta(current, next) * 10000 >= (b + 1) * current <==> IsBeyond(current, next, b)
  {
    if (b + 1) * current > 0 {
      if next > current { assert (current - next) * 10000 < 0; } else { assert (next - current) * 10000 < 0; }
    }
  }

  /** The reserve keeper's three answers, for every integer on chain: it posts the first answer, a due
      heartbeat, and every change within the guard or confirmed by its exact text; it refuses exactly the
      unconfirmed changes beyond the guard; and it skips exactly an unchanged value that is not due. */
  lemma ReserveDecidesExactly(current: int, next: int, age: int, heartbeat: int, b: int, confirm: Option<string>)
    ensures var d := DecideReservePost(current, next, age, heartbeat, b, confirm);
            && (d.Post? <==>
                  || current == 0
                  || (next == current && age >= heartbeat)
                  || (next != current && (!IsBeyond(current, next, b) || confirm == Some(Decimal(next)))))
            && (d.Refuse? <==> current != 0 && next != current && IsBeyond(current, next, b) && confirm != Some(Decimal(next)))
            && (d.Skip? <==> current != 0 && next == current && age < heartbeat)
  {
    if current != 0 && next != current { BeyondIsExact(current, next, b); }
  }

  /** The price keepers' three answers: they post the first answer, a due heartbeat within minDelta, and every
      larger change within the guard; they refuse exactly the larger changes beyond it, and skip exactly the
      changes within minDelta that are not due. */
  lemma PriceDecidesExactly(current: int, next: int, age: int, minDelta: int, b: int, heartbeat: int)
    ensures var d := DecidePost(current, next, age, minDelta, b, heartbeat);
            var small := 0 - minDelta <= next - current <= minDelta;
            && (d.Post? <==>
                  || current <= 0
                  || (small && age >= heartbeat)
                  || (!small && (0 - b - 1) * current < (next - current) * 10000 < (b + 1) * current))
            && (d.Refuse? <==>
                  current > 0 && !small && !((0 - b - 1) * current < (next - current) * 10000 < (b + 1) * current))
            && (d.Skip? <==> current > 0 && small && age < heartbeat)
  {
    if current > 0 {
      GuardIsExact(current, next, b);
      assert (0 - b - 1) * current == 0 - (b + 1) * current;
      if next != current { BelowBoth(current, next, b); }
    }
  }

  /** Everything beyond the guard needs its own confirmation: one text lets at most one value through. */
  lemma OneConfirmationOneValue(current: int, a: int, b: int, age: int, heartbeat: int, maxJumpBps: int, confirm: Option<string>)
    requires current != 0 && JumpBps(current, a) > maxJumpBps && JumpBps(current, b) > maxJumpBps
    requires a != current && b != current
    requires DecideReservePost(current, a, age, heartbeat, maxJumpBps, confirm).Post?
    requires DecideReservePost(current, b, age, heartbeat, maxJumpBps, confirm).Post?
    ensures a == b && confirm == Some(Decimal(a))
  {
    DecimalInjective(a, b);
  }

  // ---------------------------------------------------------------- rounds

  /** A round proposes a value that its keeper could come up with. */
  datatype Round =
    | PriceRound(next: Proposal, age: int, heartbeat: int, minDelta: int)
    | ReserveRound(next: Proposal, age: int, heartbeat: int, confirm: Option<string>)

  function Decide(current: int, r: Round, maxJumpBps: int): Decision {
    match r
    case PriceRound(next, age, heartbeat, minDelta) => DecidePost(current, next, age, minDelta, maxJumpBps, heartbeat)
    case ReserveRound(next, age, heartbeat, confirm) => DecideReservePost(current, next, age, heartbeat, maxJumpBps, confirm)
  }

  /** The round was confirmed by hand. */
  predicate Confirmed(r: Round) {
    r.ReserveRound? && r.confirm == Some(Decimal(r.next))
  }

  function Relay(current: int, r: Round, maxJumpBps: int): int {
    if Decide(current, r, maxJumpBps).Post? then r.next else current
  }

  /** A heartbeat posts any value within minDelta without looking at the guard. This says that the guard
      would have passed it. */
  predicate DeltaIsGuarded(current: int, minDelta: int, b: int) {
    minDelta <= 0 || minDelta * 10000 < (b + 1) * current
  }

  predicate RoundIsGuarded(current: int, r: Round, b: int) {
    r.PriceRound? ==> DeltaIsGuarded(current, r.minDelta, b)
  }

  lemma PostIsGuarded(current: int, r: Round, b: int)
    requires current > 0 && !Confirmed(r) && Decide(current, r, b).Post? && RoundIsGuarded(current, r, b)
    ensures r.next == current || JumpBps(current, r.next) <= b
  {
    if r.PriceRound? && 0 < Delta(current, r.next) <= r.minDelta {
      GuardIsExact(current, r.next, b);
    }
  }

  /** Everything a price feed posts onto a positive answer moves it by less than B + 1 basis points
      exactly when that holds of minDelta and the answer. */
  lemma GuardHoldsExactly(current: int, minDelta: int, b: nat)
    requires current > 0
    ensures (forall next, age, heartbeat :: DecidePost(current, next, age, minDelta, b, heartbeat).Post? ==>
               Delta(current, next) * 10000 < (b + 1) * current)
            <==> DeltaIsGuarded(current, minDelta, b)
  {
    if DeltaIsGuarded(current, minDelta, b) {
      forall next, age, heartbeat | DecidePost(current, next, age, minDelta, b, heartbeat).Post?
        ensures Delta(current, next) * 10000 < (b + 1) * current
      {
        Scale(1, b + 1, current);
        GuardIsExact(current, next, b);
      }
    } else {
      assert Delta(current, current + minDelta) == minDelta;
      assert DecidePost(current, current + minDelta, 0, minDelta, b, 0).Post?;
    }
  }

  /** An unconfirmed post onto a positive answer moves it by less than B + 1 basis points. */
  lemma GuardRange(current: int, next: int, b: nat)
    requires current > 0 && (next == current || JumpBps(current, next) <= b)
    ensures (10000 - b - 1) * current <= next * 10000 <= (10000 + b + 1) * current
  {
    var gap := (b + 1) * current;
    assert (10000 - b - 1) * current == 10000 * current - gap;
    assert (10000 + b + 1) * current == 10000 * current + gap;
    if next == current {
      Product(b + 1, current);
    } else {
      GuardIsExact(current, next, b);
    }
  }

  // ---------------------------------------------------------------- the decision alone

  /** decidePost by itself, on any integers, posts only positive values onto this answer. The keepers never
      ask it about a value that is not positive; this says how far it would be safe without them. */
  ghost predicate BareIsSafeAt(current: int, minDelta: int, b: int) {
    forall next, age, heartbeat :: DecidePost(current, next, age, minDelta, b, heartbeat).Post? ==> next > 0
  }

  lemma BareIsSafeExactly(current: int, minDelta: int, b: int)
    requires current > 0
    ensures BareIsSafeAt(current, minDelta, b) <==> b <= 9999 && minDelta < current
  {
    if b <= 9999 && minDelta < current {
      forall next, age, heartbeat | DecidePost(current, next, age, minDelta, b, heartbeat).Post?
        ensures next > 0
      {
        GuardIsExact(current, next, b);
        Scale(b + 1, 10000, current);
      }
    } else {
      FullDrop(current);
      assert DecidePost(current, 0, 0, minDelta, b, 0).Post?;
    }
  }

  lemma FullDrop(current: int)
    requires current > 0
    ensures JumpBps(current, 0) == 10000
  {
    GuardIsExact(current, 0, 10000);
    GuardIsExact(current, 0, 9999);
  }

  /** The same for all positive answers at once. */
  lemma BareIsSafeEverywhere(b: int, minDelta: int)
    ensures (forall current :: current > 0 ==> BareIsSafeAt(current, minDelta, b)) <==> b <= 9999 && minDelta <= 0
  {
    forall current | current > 0 ensures BareIsSafeAt(current, minDelta, b) <==> b <= 9999 && minDelta < current {
      BareIsSafeExactly(current, minDelta, b);
    }
    assert BareIsSafeAt(1, minDelta, b) <==> b <= 9999 && minDelta < 1;
  }

  // ---------------------------------------------------------------- over the rounds

  function Pow(base: nat, n: nat): nat {
    if n == 0 then 1 else base * Pow(base, n - 1)
  }

  /** The feed before each round and after the last. */
  ghost predicate IsRelay(values: seq<int>, rounds: seq<Round>, b: int) {
    && |values| == |rounds| + 1
    && forall i :: 0 <= i < |rounds| ==> values[i + 1] == Relay(values[i], rounds[i], b)
  }

  /** How many of the first i rounds posted. */
  ghost function Posts(values: seq<int>, rounds: seq<Round>, b: int, i: nat): nat
    requires i <= |rounds| && |values| == |rounds| + 1
  {
    if i == 0 then 0
    else Posts(values, rounds, b, i - 1) + if Decide(values[i - 1], rounds[i - 1], b).Post? then 1 else 0
  }

  lemma ScaleOn(a: nat, b: nat, c: nat, d: nat, k: nat, p: nat)
    requires a <= b * p && k * b <= c * d
    ensures k * a <= c * (d * p)
  {
    Scale(a, b * p, k);
    Scale(k * b, c * d, p);
    Reorder(k, b, p);
    Reorder(c, d, p);
  }

  lemma ScaleUnder(a: nat, b: nat, c: nat, d: nat, k: nat, p: nat)
    requires b * p <= a && c * d <= k * b
    ensures c * (d * p) <= k * a
  {
    Scale(b * p, a, k);
    Scale(c * d, k * b, p);
    Reorder(k, b, p);
    Reorder(c, d, p);
  }

  lemma Reorder(a: nat, b: nat, c: nat)
    ensures a * b * c == a * (b * c) == (b * c) * a
  {
  }

  lemma DriftStep(v0: nat, v: nat, v': nat, lo: nat, hi: nat, n: nat)
    requires Pow(lo, n) * v0 <= v * Pow(10000, n) <= Pow(hi, n) * v0
    requires lo * v <= v' * 10000 <= hi * v
    ensures Pow(lo, n + 1) * v0 <= v' * Pow(10000, n + 1) <= Pow(hi, n + 1) * v0
  {
    ScaleOn(Pow(lo, n) * v0, v, v', 10000, lo, Pow(10000, n));
    ScaleUnder(Pow(hi, n) * v0, v, v', 10000, hi, Pow(10000, n));
    Reorder(lo, Pow(lo, n), v0);
    Reorder(hi, Pow(hi, n), v0);
  }

  /** The lower factor of the guard in ten-thousandths: a guard of 10000 or more lets any drop pass. */
  function LowFactor(b: nat): nat {
    if b <= 9999 then 10000 - b - 1 else 0
  }

  /** One round: nothing, or one more post inside the guard. */
  ghost predicate GuardedRound(v: int, v': int, n: nat, n': nat, b: nat) {
    || (v' == v && n' == n)
    || (n' == n + 1 && LowFactor(b) * v <= v' * 10000 <= (10000 + b + 1) * v)
  }

  /** The branch for a feed without a usable answer: it posts whatever is proposed. */
  predicate IsFirstPost(current: int, r: Round, b: int) {
    Decide(current, r, b).Post? && if r.PriceRound? then current <= 0 else current == 0
  }

  lemma RelayKeepsPositive(values: seq<int>, rounds: seq<Round>, b: int, i: nat)
    requires IsRelay(values, rounds, b) && i < |rounds| && (values[i] > 0 || Decide(values[i], rounds[i], b).Post?)
    ensures values[i + 1] > 0
  {
  }

  /** A feed follows its keeper: a round posts the proposed value onto a positive answer exactly when the change
      is within the guard, when it is a due heartbeat, or when it is a reserve confirmed by hand; otherwise the
      feed stays as it was. */
  lemma FeedFollows(values: seq<int>, rounds: seq<Round>, b: int, i: nat)
    requires IsRelay(values, rounds, b) && i < |rounds| && values[i] > 0
    ensures var v, r := values[i], rounds[i];
            var within := (0 - b - 1) * v < (r.next - v) * 10000 < (b + 1) * v;
            var small := if r.PriceRound? then 0 - r.minDelta <= r.next - v <= r.minDelta else r.next == v;
            values[i + 1] ==
              if (if small then r.age >= r.heartbeat else within || (r.ReserveRound? && r.confirm == Some(Decimal(r.next))))
              then r.next else v
  {
    var v, r := values[i], rounds[i];
    assert (0 - b - 1) * v == 0 - (b + 1) * v;
    match r
    case PriceRound(next, age, heartbeat, minDelta) => PriceDecidesExactly(v, next, age, minDelta, b, heartbeat);
    case ReserveRound(next, age, heartbeat, confirm) => ReserveDecidesExactly(v, next, age, heartbeat, b, confirm);
  }

  /** Whatever guard, minDelta and confirmations: from any start a feed is positive as soon as a keeper
      posted, and from a positive start always. */
  lemma {:induction false} StaysPositive(values: seq<int>, rounds: seq<Round>, b: int, i: nat)
    requires IsRelay(values, rounds, b) && i < |values|
    ensures values[0] > 0 || Posts(values, rounds, b, i) > 0 ==> values[i] > 0
  {
    if i > 0 {
      StaysPositive(values, rounds, b, i - 1);
      if values[i - 1] > 0 || Decide(values[i - 1], rounds[i - 1], b).Post? {
        RelayKeepsPositive(values, rounds, b, i - 1);
      }
    }
  }

  lemma {:induction false} PostsGrow(values: seq<int>, rounds: seq<Round>, b: int, i: nat, j: nat)
    requires |values| == |rounds| + 1 && i <= j <= |rounds|
    ensures Posts(values, rounds, b, i) <= Posts(values, rounds, b, j)
    decreases j
  {
    if i < j {
      PostsGrow(values, rounds, b, i, j - 1);
    }
  }

  /** So the branch that no guard covers is taken at most once in the life of a feed. */
  lemma OneFirstPost(values: seq<int>, rounds: seq<Round>, b: int, i: nat, j: nat)
    requires IsRelay(values, rounds, b) && i < j < |rounds|
    requires IsFirstPost(values[i], rounds[i], b)
    ensures !IsFirstPost(values[j], rounds[j], b)
  {
    PostsGrow(values, rounds, b, i + 1, j);
    StaysPositive(values, rounds, b, j);
  }

  lemma RelayStep(values: seq<int>, rounds: seq<Round>, b: nat, i: nat)
    requires IsRelay(values, rounds, b) && i < |rounds| && values[i] > 0
    requires !Confirmed(rounds[i]) && RoundIsGuarded(values[i], rounds[i], b)
    ensures values[i + 1] > 0
    ensures GuardedRound(values[i], values[i + 1], Posts(values, rounds, b, i), Posts(values, rounds, b, i + 1), b)
  {
    if Decide(values[i], rounds[i], b).Post? {
      PostIsGuarded(values[i], rounds[i], b);
      GuardRange(values[i], rounds[i].next, b);
      if b > 9999 { Product(0, values[i]); }
    }
  }

  ghost predicate WithinDrift(v0: int, v: int, b: nat, n: nat) {
    Pow(LowFactor(b), n) * v0 <= v * Pow(10000, n) <= Pow(10000 + b + 1, n) * v0
  }

  lemma DriftRound(v0: nat, v: nat, v': nat, b: nat, n: nat, n': nat)
    requires WithinDrift(v0, v, b, n) && GuardedRound(v, v', n, n', b)
    ensures WithinDrift(v0, v', b, n')
  {
    if n' == n + 1 {
      DriftStep(v0, v, v', LowFactor(b), 10000 + b + 1, n);
    }
  }

  lemma {:induction false} DriftAlong(values: seq<int>, counts: seq<nat>, b: nat, i: nat)
    requires i < |values| == |counts| && counts[0] == 0
    requires forall k :: 0 <= k <= i ==> values[k] > 0
    requires forall k :: 0 <= k < i ==> GuardedRound(values[k], values[k + 1], counts[k], counts[k + 1], b)
    ensures WithinDrift(values[0], values[i], b, counts[i])
  {
    if i > 0 {
      DriftAlong(values, counts, b, i - 1);
      assert GuardedRound(values[i - 1], values[i - 1 + 1], counts[i - 1], counts[i - 1 + 1], b);
      DriftRound(values[0], values[i - 1], values[i], b, counts[i - 1], counts[i]);
    }
  }

  /** Posts so far, before each round and after the last. */
  ghost function Counts(values: seq<int>, rounds: seq<Round>, b: nat): seq<nat>
    requires |values| == |rounds| + 1
  {
    seq(|values|, k requires 0 <= k < |values| => Posts(values, rounds, b, k))
  }

  lemma RoundsGuarded(values: seq<int>, rounds: seq<Round>, b: nat, i: nat, k: nat)
    requires IsRelay(values, rounds, b) && k < i < |values| && values[0] > 0
    requires forall j :: 0 <= j < i ==> !Confirmed(rounds[j]) && RoundIsGuarded(values[j], rounds[j], b)
    ensures GuardedRound(values[k], values[k + 1], Counts(values, rounds, b)[k], Counts(values, rounds, b)[k + 1], b)
  {
    StaysPositive(values, rounds, b, k);
    RelayStep(values, rounds, b, k);
  }

  /** Over any rounds none of which was confirmed by hand, with a guard that covers each round's minDelta
      (0 as shipped is always covered), a positive feed stays positive, and after n posts it is within
      the n-th powers of the guard's factors of where it started. */
  lemma FeedDrift(values: seq<int>, rounds: seq<Round>, b: nat, i: nat)
    requires IsRelay(values, rounds, b) && i < |values| && values[0] > 0
    requires forall k :: 0 <= k < i ==> !Confirmed(rounds[k]) && RoundIsGuarded(values[k], rounds[k], b)
    ensures values[i] > 0 && WithinDrift(values[0], values[i], b, Posts(values, rounds, b, i))
  {
    var counts := Counts(values, rounds, b);
    forall k | 0 <= k <= i ensures values[k] > 0 { StaysPositive(values, rounds, b, k); }
    forall k | 0 <= k < i ensures GuardedRound(values[k], values[k + 1], counts[k], counts[k + 1], b) {
      RoundsGuarded(values, rounds, b, i, k);
    }
    DriftAlong(values, counts, b, i);
  }
}
