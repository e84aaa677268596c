/** Where the values come from that the three keepers propose to their feeds, and why none of them is
    ever zero or negative: the inverted central bank rate, the reserve figure and the median of the
    gold quotes. */
module Proposals {
  import opened Common
  import opened Decimals

  type Proposal = x: int | x > 0 witness 1

  // ---------------------------------------------------------------- the sum

  const E16: nat := 10_000_000_000_000_000

  /** The rate is sum per dollar with 8 decimals, and not positive rates raise. */
  function UsdPerUzs(rateE8: int): Option<int> {
    if rateE8 <= 0 then None else Some((E16 + rateE8 / 2) / rateE8)
  }

  /** The keeper refuses an answer that is not positive. */
  function UzsProposal(rateE8: int): Option<Proposal> {
    match UsdPerUzs(rateE8)
    case None => None
    case Some(next) => if next <= 0 then None else Some(next)
  }

  /** The proposal is the integer nearest to 10^16 / rate, and there is one exactly for positive rates up
      to twice 10^16. */
  lemma UzsIsNearest(rateE8: int)
    ensures UzsProposal(rateE8).Some? <==> 0 < rateE8 <= 2 * E16
    ensures UzsProposal(rateE8).Some? ==>
              -rateE8 <= 2 * (UzsProposal(rateE8).value * rateE8 - E16) <= rateE8
  {
    if rateE8 > 0 {
      var n: nat := E16 + rateE8 / 2;
      var q := n / rateE8;
      assert q * rateE8 <= n < q * rateE8 + rateE8;
      if q <= 0 {
        assert q * rateE8 <= 0;
      } else {
        assert rateE8 <= q * rateE8 by { AtLeastOnce(q, rateE8); }
      }
    }
  }

  lemma AtLeastOnce(q: nat, d: nat)
    requires q >= 1
    ensures d <= q * d
  {
  }

  // ---------------------------------------------------------------- the reserve

  /** The figure of the statement, trimmed: digits only, and positive. */
  function ReserveProposal(raw: string): Option<Proposal> {
    if !IsNumber(raw) || NumberOf(raw) <= 0 then None else Some(NumberOf(raw))
  }

  /** Every positive figure can be stated, by its decimal text. */
  lemma ReserveRoundTrip(n: nat)
    requires n > 0
    ensures ReserveProposal(Digits(n)) == Some(n)
  {
    NumberRoundTrip(n);
  }

  // ---------------------------------------------------------------- gold

  /** A quote: value None when it is no decimal of at most 8 places, stamp None when it is no date. */
  datatype Quote = Quote(symbol: string, value: Option<int>, stamp: Option<int>)

  datatype GoldDecision =
    | PostPrice(price: int, sources: nat)
    | NoClock          // the shared clock is unreadable
    | SourcesDead      // no quote is left, yet chainlink is alive
    | Outage           // no quote is left and chainlink is dead too

  datatype GoldLimits = GoldLimits(maxAge: int, minSane: int, maxSane: int, chainlinkFreshAge: int)

  /** What the XAU keeper passes: one hundred and one hundred thousand dollars with 8 decimals. */
  const XAU_MIN: int := 100_0000_0000
  const XAU_MAX: int := 100_000_0000_0000

  predicate Usable(q: Quote, now: int, limits: GoldLimits) {
    && q.value.Some? && limits.minSane <= q.value.value <= limits.maxSane
    && q.stamp.Some? && now - q.stamp.value <= limits.maxAge
  }

  /** The values of the usable quotes, in their order. */
  function Values(quotes: seq<Quote>, now: int, limits: GoldLimits): (v: seq<int>)
    ensures forall i :: 0 <= i < |v| ==> limits.minSane <= v[i] <= limits.maxSane
  {
    if quotes == [] then []
    else
      var last := quotes[|quotes| - 1];
      Values(quotes[..|quotes| - 1], now, limits) + if Usable(last, now, limits) then [last.value.value] else []
  }

  function Insert(s: seq<int>, x: int): seq<int> {
    if s == [] || x <= s[0] then [x] + s else [s[0]] + Insert(s[1..], x)
  }

  function Sort(s: seq<int>): seq<int> {
    if s == [] then [] else Insert(Sort(s[1..]), s[0])
  }

  function Median(v: seq<int>): int
    requires v != []
  {
    SortKeeps(v);
    var s, mid := Sort(v), |v| / 2;
    if |v| % 2 == 1 then s[mid] else Truncated(s[mid - 1] + s[mid], 2)
  }

  /** The decision on a feed of quotes. */
  method DecideGoldPrice(quotes: seq<Quote>, now: Option<int>, limits: GoldLimits, chainlinkAge: Option<int>)
    returns (d: GoldDecision)
    ensures d.NoClock? <==> now.None?
    ensures d.PostPrice? <==> now.Some? && Values(quotes, now.value, limits) != []
    ensures d.PostPrice? ==>
              var v := Values(quotes, now.value, limits); d.price == Median(v) && d.sources == |v|
    ensures d.SourcesDead? ==> chainlinkAge.Some? && chainlinkAge.value <= limits.chainlinkFreshAge
    ensures d.Outage? ==> chainlinkAge.None? || chainlinkAge.value > limits.chainlinkFreshAge
  {
    if now.None? { return NoClock; }
    var valid: seq<int> := [];
    for i := 0 to |quotes|
      invariant valid == Values(quotes[..i], now.value, limits)
    {
      assert quotes[..i + 1][..i] == quotes[..i];
      var q := quotes[i];
      if q.value.None? { continue; }
      if q.value.value < limits.minSane || q.value.value > limits.maxSane { continue; }
      if q.stamp.None? { continue; }
      if now.value - q.stamp.value > limits.maxAge { continue; }
      valid := valid + [q.value.value];
    }
    assert quotes[..|quotes|] == quotes;
    if valid == [] {
      if chainlinkAge.Some? && chainlinkAge.value <= limits.chainlinkFreshAge { return SourcesDead; }
      return Outage;
    }
    return PostPrice(Median(valid), |valid|);
  }

  // ---------------------------------------------------------------- the median

  predicate Ascending(s: seq<int>) {
    forall i, j :: 0 <= i < j < |s| ==> s[i] <= s[j]
  }

  lemma {:induction false} InsertKeeps(s: seq<int>, x: int)
    ensures multiset(Insert(s, x)) == multiset(s) + multiset{x}
    ensures |Insert(s, x)| == |s| + 1
    ensures forall y :: y in Insert(s, x) <==> y == x || y in s
  {
    if s != [] {
      assert s == [s[0]] + s[1..];
      if x > s[0] { InsertKeeps(s[1..], x); }
    }
  }

  lemma {:induction false} InsertAscends(s: seq<int>, x: int)
    requires Ascending(s)
    ensures Ascending(Insert(s, x))
  {
    if s != [] && x > s[0] {
      InsertAscends(s[1..], x);
      InsertKeeps(s[1..], x);
      var t := Insert(s[1..], x);
      forall j | 0 <= j < |t| ensures s[0] <= t[j] {
        assert t[j] in t;
        if t[j] != x {
          var k :| 0 <= k < |s[1..]| && s[1..][k] == t[j];
          assert s[1..][k] == s[k + 1];
        }
      }
    }
  }

  lemma {:induction false} SortKeeps(s: seq<int>)
    ensures |Sort(s)| == |s| && multiset(Sort(s)) == multiset(s)
  {
    if s != [] {
      SortKeeps(s[1..]);
      InsertKeeps(Sort(s[1..]), s[0]);
      assert s == [s[0]] + s[1..];
    }
  }

  lemma {:induction false} SortAscends(s: seq<int>)
    ensures Ascending(Sort(s))
  {
    if s != [] {
      SortAscends(s[1..]);
      InsertAscends(Sort(s[1..]), s[0]);
    }
  }

  predicate Within(x: int, lo: int, hi: int) {
    lo <= x <= hi
  }

  /** How many values lie outside a range. */
  function Outside(v: seq<int>, lo: int, hi: int): nat {
    if v == [] then 0 else (if Within(v[0], lo, hi) then 0 else 1) + Outside(v[1..], lo, hi)
  }

  lemma {:induction false} OutsideInsert(s: seq<int>, x: int, lo: int, hi: int)
    ensures Outside(Insert(s, x), lo, hi) == Outside(s, lo, hi) + if Within(x, lo, hi) then 0 else 1
  {
    if s != [] && x > s[0] {
      OutsideInsert(s[1..], x, lo, hi);
    } else {
      assert ([x] + s)[1..] == s;
    }
  }

  lemma {:induction false} OutsideSort(v: seq<int>, lo: int, hi: int)
    ensures Outside(Sort(v), lo, hi) == Outside(v, lo, hi)
  {
    if v != [] {
      OutsideSort(v[1..], lo, hi);
      OutsideInsert(Sort(v[1..]), v[0], lo, hi);
    }
  }

  lemma {:induction false} AllOutside(s: seq<int>, lo: int, hi: int)
    requires forall i :: 0 <= i < |s| ==> !Within(s[i], lo, hi)
    ensures Outside(s, lo, hi) == |s|
  {
    if s != [] {
      AllOutside(s[1..], lo, hi);
    }
  }

  lemma {:induction false} OutsideConcat(a: seq<int>, b: seq<int>, lo: int, hi: int)
    ensures Outside(a + b, lo, hi) == Outside(a, lo, hi) + Outside(b, lo, hi)
  {
    if a == [] {
      assert a + b == b;
    } else {
      OutsideConcat(a[1..], b, lo, hi);
      assert (a + b)[1..] == a[1..] + b;
    }
  }

  /** In ascending order, a value with enough of the others outside on neither side lies inside. */
  lemma MiddleIsInside(s: seq<int>, lo: int, hi: int, k: nat)
    requires Ascending(s) && k < |s| && lo <= hi
    requires Outside(s, lo, hi) <= k && Outside(s, lo, hi) <= |s| - 1 - k
    ensures Within(s[k], lo, hi)
  {
    assert s == s[..k + 1] + s[k + 1..] && s == s[..k] + s[k..];
    OutsideConcat(s[..k + 1], s[k + 1..], lo, hi);
    OutsideConcat(s[..k], s[k..], lo, hi);
    if s[k] < lo {
      AllOutside(s[..k + 1], lo, hi);
    } else if s[k] > hi {
      AllOutside(s[k..], lo, hi);
    }
  }

  lemma MiddlesAreInside(v: seq<int>, lo: int, hi: int)
    requires v != [] && lo <= hi && 2 * Outside(v, lo, hi) < |v|
    ensures |Sort(v)| == |v| && Within(Sort(v)[|v| / 2], lo, hi)
    ensures |v| % 2 == 0 ==> Within(Sort(v)[|v| / 2 - 1], lo, hi)
  {
    SortKeeps(v);
    SortAscends(v);
    OutsideSort(v, lo, hi);
    MiddleIsInside(Sort(v), lo, hi, |v| / 2);
    if |v| % 2 == 0 {
      MiddleIsInside(Sort(v), lo, hi, |v| / 2 - 1);
    }
  }

  /** As long as fewer than half of the values lie outside a range, the median lies inside: however wild
      a minority of quotes is, the price stays within the range of the others. */
  lemma MedianIsRobust(v: seq<int>, lo: int, hi: int)
    requires v != [] && lo <= hi && 2 * Outside(v, lo, hi) < |v|
    ensures Within(Median(v), lo, hi)
  {
    MiddlesAreInside(v, lo, hi);
    if |v| % 2 == 0 {
      TruncatedMean(Sort(v)[|v| / 2 - 1], Sort(v)[|v| / 2], lo, hi);
    }
  }

  lemma FirstIsLeast(a: seq<int>, x: int)
    requires Ascending(a) && x in multiset(a)
    ensures a != [] && a[0] <= x
  {
    var i :| 0 <= i < |a| && a[i] == x;
  }

  lemma TailBag(a: seq<int>)
    requires a != []
    ensures multiset(a[1..]) == multiset(a) - multiset{a[0]} && a[0] in multiset(a)
  {
    assert a == [a[0]] + a[1..];
  }

  lemma SameFirst(a: seq<int>, b: seq<int>)
    requires Ascending(a) && Ascending(b) && multiset(a) == multiset(b) && a != []
    ensures b != [] && a[0] == b[0] && multiset(a[1..]) == multiset(b[1..])
    ensures Ascending(a[1..]) && Ascending(b[1..])
  {
    TailBag(a);
    FirstIsLeast(b, a[0]);
    TailBag(b);
    FirstIsLeast(a, b[0]);
  }

  /** Values can be put in ascending order in one way only. */
  lemma {:induction false} AscendingIsUnique(a: seq<int>, b: seq<int>)
    requires Ascending(a) && Ascending(b) && multiset(a) == multiset(b)
    ensures a == b
  {
    if a == [] {
      assert |b| == |multiset(b)| == 0;
    } else {
      SameFirst(a, b);
      AscendingIsUnique(a[1..], b[1..]);
      assert a == [a[0]] + a[1..] && b == [b[0]] + b[1..];
    }
  }

  /** The median is the middle of the values, however they are put in ascending order; of an even number, and
      for positive values, half the sum of the two in the middle, rounded down. */
  lemma MedianIsMiddle(v: seq<int>, s: seq<int>)
    requires v != [] && Ascending(s) && multiset(s) == multiset(v)
    ensures |s| == |v|
    ensures |v| % 2 == 1 ==> Median(v) == s[|v| / 2]
    ensures |v| % 2 == 0 ==>
              var sum := s[|v| / 2 - 1] + s[|v| / 2];
              if sum >= 0 then sum - 1 <= 2 * Median(v) <= sum else sum <= 2 * Median(v) <= sum + 1
  {
    assert |s| == |multiset(s)| == |multiset(v)| == |v|;
    SortKeeps(v);
    SortAscends(v);
    AscendingIsUnique(s, Sort(v));
  }

  lemma TruncatedMean(a: int, b: int, lo: int, hi: int)
    requires Within(a, lo, hi) && Within(b, lo, hi)
    ensures Within(Truncated(a + b, 2), lo, hi)
  {
  }

  lemma {:induction false} NoneOutside(v: seq<int>, lo: int, hi: int)
    requires forall i :: 0 <= i < |v| ==> Within(v[i], lo, hi)
    ensures Outside(v, lo, hi) == 0
  {
    if v != [] {
      NoneOutside(v[1..], lo, hi);
    }
  }

  lemma {:induction false} SortIsIdle(s: seq<int>)
    requires Ascending(s)
    ensures Sort(s) == s
  {
    if s != [] {
      SortIsIdle(s[1..]);
      if |s| > 1 { assert s[0] <= s[1]; }
      assert s == [s[0]] + s[1..];
    }
  }

  /** The median stays inside whatever k of n values lie outside. */
  ghost predicate Withstands(n: nat, k: nat) {
    forall v: seq<int>, lo, hi :: |v| == n && n > 0 && lo <= hi && Outside(v, lo, hi) == k ==> Within(Median(v), lo, hi)
  }

  /** n values of which the last k are 2 and the others 0. */
  function Skewed(n: nat, k: nat): seq<int>
    requires k <= n
  {
    seq(n - k, i => 0) + seq(k, i => 2)
  }

  lemma SkewedMedian(n: nat, k: nat)
    requires 0 < n <= 2 * k && k <= n
    ensures |Skewed(n, k)| == n && Outside(Skewed(n, k), 0, 0) == k && !Within(Median(Skewed(n, k)), 0, 0)
  {
    var a, b := seq(n - k, i => 0), seq(k, i => 2);
    OutsideConcat(a, b, 0, 0);
    NoneOutside(a, 0, 0);
    AllOutside(b, 0, 0);
    SortIsIdle(Skewed(n, k));
  }

  /** The median withstands k wild values among n exactly when they are fewer than half. */
  lemma MedianWithstandsExactly(n: nat, k: nat)
    requires 0 < n && k <= n
    ensures Withstands(n, k) <==> 2 * k < n
  {
    if 2 * k < n {
      forall v: seq<int>, lo, hi | |v| == n && n > 0 && lo <= hi && Outside(v, lo, hi) == k
        ensures Within(Median(v), lo, hi)
      {
        MedianIsRobust(v, lo, hi);
      }
    } else {
      SkewedMedian(n, k);
    }
  }

  /** The price of the XAU keeper lies within its sane range, so it is a proposal. */
  lemma GoldIsSane(quotes: seq<Quote>, now: int, limits: GoldLimits)
    requires limits.minSane == XAU_MIN && limits.maxSane == XAU_MAX && Values(quotes, now, limits) != []
    ensures Within(Median(Values(quotes, now, limits)), XAU_MIN, XAU_MAX)
    ensures Median(Values(quotes, now, limits)) > 0
  {
    var v := Values(quotes, now, limits);
    NoneOutside(v, XAU_MIN, XAU_MAX);
    MedianIsRobust(v, XAU_MIN, XAU_MAX);
  }
}
