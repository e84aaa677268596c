/** The exchange's integer arithmetic: floored buys and sells against one treasury, and the slippage
    floor the client derives from a quote. All amounts are wei. */
module Exchange {
  import opened Common
  import opened Sums

  const GRAMS_PER_OZ_1E8: nat := 3110347680
  const E8: nat := 100000000

  /** Feed answers for gold and for the sum, both positive: quotes are refused otherwise. */
  datatype Prices = Prices(xau: nat, uzs: nat)

  predicate Quotable(p: Prices) {
    p.xau > 0 && p.uzs > 0
  }

  /** UZD in per OLTIN out is Num to Den: the exact price is never rounded, only the amounts are. */
  function Num(p: Prices): nat {
    GRAMS_PER_OZ_1E8 * p.uzs
  }

  function Den(p: Prices): nat {
    E8 * p.xau
  }

  function ExpectedBuy(uzdIn: nat, p: Prices): nat
    requires Quotable(p)
  {
    var top: nat, bottom: nat := uzdIn * p.uzs * GRAMS_PER_OZ_1E8, E8 * p.xau;
    top / bottom
  }

  function ExpectedSell(oltinIn: nat, p: Prices): nat
    requires Quotable(p)
  {
    (oltinIn * p.xau * E8) / (GRAMS_PER_OZ_1E8 * p.uzs)
  }

  // ---------------------------------------------------------------- floors

  lemma Floor(n: nat, d: nat)
    requires d > 0
    ensures (n / d) * d <= n < (n / d) * d + d
  {
  }

  lemma FloorAtLeast(n: nat, d: nat, k: nat)
    requires d > 0 && k * d <= n
    ensures k <= n / d
  {
    Floor(n, d);
    if n / d < k {
      MulGap(n / d, k, d);
    }
  }

  lemma MulMono(a: nat, b: nat, c: nat)
    requires a <= b
    ensures a * c <= b * c
  {
  }

  lemma BuyFloor(x: nat, p: Prices)
    requires Quotable(p)
    ensures ExpectedBuy(x, p) * Den(p) <= x * Num(p) < ExpectedBuy(x, p) * Den(p) + Den(p)
  {
    assert x * p.uzs * GRAMS_PER_OZ_1E8 == x * Num(p);
    Floor(x * Num(p), Den(p));
  }

  lemma SellFloor(y: nat, p: Prices)
    requires Quotable(p)
    ensures ExpectedSell(y, p) * Num(p) <= y * Den(p) < ExpectedSell(y, p) * Num(p) + Num(p)
  {
    assert y * p.xau * E8 == y * Den(p);
    Floor(y * Den(p), Num(p));
  }

  // ---------------------------------------------------------------- trading

  datatype Holding = Holding(uzd: nat, oltin: nat)

  type Trader = nat

  datatype Market = Market(treasury: int, book: map<Trader, Holding>)

  datatype Trade = Buy(who: Trader, uzd: nat) | Sell(who: Trader, oltin: nat)

  ghost function OltinOf(book: map<Trader, Holding>): map<Trader, nat> {
    map t | t in book :: book[t].oltin
  }

  ghost function UzdOf(book: map<Trader, Holding>): map<Trader, nat> {
    map t | t in book :: book[t].uzd
  }

  ghost function Supply(m: Market): nat {
    Total(OltinOf(m.book))
  }

  predicate CanTrade(m: Market, t: Trade) {
    && t.who in m.book
    && if t.Buy? then t.uzd <= m.book[t.who].uzd else t.oltin <= m.book[t.who].oltin
  }

  function After(m: Market, t: Trade, p: Prices): Market
    requires Quotable(p) && CanTrade(m, t)
  {
    var h := m.book[t.who];
    match t
    case Buy(who, x) =>
      Market(m.treasury + x, m.book[who := Holding(h.uzd - x, h.oltin + ExpectedBuy(x, p))])
    case Sell(who, y) =>
      Market(m.treasury - ExpectedSell(y, p), m.book[who := Holding(h.uzd + ExpectedSell(y, p), h.oltin - y)])
  }

  /** At these prices the treasury is worth at least the whole supply. */
  ghost predicate Backed(m: Market, p: Prices) {
    m.treasury * Num(p) >= Supply(m) * Den(p)
  }

  function Worth(h: Holding, p: Prices): nat {
    h.uzd * Num(p) + h.oltin * Den(p)
  }

  lemma PutTotal(m: map<Trader, nat>, m': map<Trader, nat>, t: Trader)
    requires t in m && t in m' && m' - {t} == m - {t}
    ensures Total(m') + m[t] == Total(m) + m'[t]
  {
    TotalRemove(m, t);
    TotalRemove(m', t);
  }

  lemma BookTotals(m: Market, t: Trade, p: Prices)
    requires Quotable(p) && CanTrade(m, t)
    ensures var m' := After(m, t, p);
            && Supply(m') + m.book[t.who].oltin == Supply(m) + m'.book[t.who].oltin
            && Total(UzdOf(m'.book)) + m.book[t.who].uzd == Total(UzdOf(m.book)) + m'.book[t.who].uzd
  {
    var m' := After(m, t, p);
    assert OltinOf(m'.book) - {t.who} == OltinOf(m.book) - {t.who};
    assert UzdOf(m'.book) - {t.who} == UzdOf(m.book) - {t.who};
    PutTotal(OltinOf(m.book), OltinOf(m'.book), t.who);
    PutTotal(UzdOf(m.book), UzdOf(m'.book), t.who);
  }

  lemma BuyKeeps(treasury: int, supply: nat, x: nat, out: nat, num: nat, den: nat)
    requires treasury * num >= supply * den && out * den <= x * num
    ensures (treasury + x) * num >= (supply + out) * den
  {
    assert (treasury + x) * num == treasury * num + x * num;
    assert (supply + out) * den == supply * den + out * den;
  }

  lemma SellKeeps(treasury: int, supply: int, y: nat, out: nat, num: nat, den: nat)
    requires treasury * num >= supply * den && out * num <= y * den
    ensures (treasury - out) * num >= (supply - y) * den
  {
    assert (treasury - out) * num == treasury * num - out * num;
    assert (supply - y) * den == supply * den - y * den;
  }

  /** A trade keeps the treasury worth the supply. */
  lemma TradeKeepsBacking(m: Market, t: Trade, p: Prices)
    requires Quotable(p) && CanTrade(m, t) && Backed(m, p)
    ensures Backed(After(m, t, p), p)
  {
    BookTotals(m, t, p);
    match t
    case Buy(who, x) =>
      BuyFloor(x, p);
      BuyKeeps(m.treasury, Supply(m), x, ExpectedBuy(x, p), Num(p), Den(p));
    case Sell(who, y) =>
      SellFloor(y, p);
      SellKeeps(m.treasury, Supply(m), y, ExpectedSell(y, p), Num(p), Den(p));
  }

  /** Nobody gains by a trade at its own prices. */
  lemma TradeNeverGains(m: Market, t: Trade, p: Prices, who: Trader)
    requires Quotable(p) && CanTrade(m, t) && who in m.book
    ensures who in After(m, t, p).book && Worth(After(m, t, p).book[who], p) <= Worth(m.book[who], p)
  {
    var h := m.book[t.who];
    match t
    case Buy(_, x) =>
      BuyFloor(x, p);
      assert (h.uzd - x) * Num(p) == h.uzd * Num(p) - x * Num(p);
      assert (h.oltin + ExpectedBuy(x, p)) * Den(p) == h.oltin * Den(p) + ExpectedBuy(x, p) * Den(p);
    case Sell(_, y) =>
      SellFloor(y, p);
      assert (h.uzd + ExpectedSell(y, p)) * Num(p) == h.uzd * Num(p) + ExpectedSell(y, p) * Num(p);
      assert (h.oltin - y) * Den(p) == h.oltin * Den(p) - y * Den(p);
  }

  /** And nobody loses more than the rounding: a buyer less than the price of one wei of OLTIN, a seller less
      than one wei of UZD, and everybody else nothing. */
  lemma TradeLosesOnlyRounding(m: Market, t: Trade, p: Prices, who: Trader)
    requires Quotable(p) && CanTrade(m, t) && who in m.book
    ensures who in After(m, t, p).book
    ensures var lost := Worth(m.book[who], p) - Worth(After(m, t, p).book[who], p);
            if who != t.who then lost == 0 else 0 <= lost < if t.Buy? then Den(p) else Num(p)
  {
    var h := m.book[t.who];
    match t
    case Buy(_, x) =>
      BuyFloor(x, p);
      assert (h.uzd - x) * Num(p) == h.uzd * Num(p) - x * Num(p);
      assert (h.oltin + ExpectedBuy(x, p)) * Den(p) == h.oltin * Den(p) + ExpectedBuy(x, p) * Den(p);
    case Sell(_, y) =>
      SellFloor(y, p);
      assert (h.uzd + ExpectedSell(y, p)) * Num(p) == h.uzd * Num(p) + ExpectedSell(y, p) * Num(p);
      assert (h.oltin - y) * Den(p) == h.oltin * Den(p) - y * Den(p);
  }

  /** One troy ounce, 31.1034768 grams, in wei of OLTIN; one gram is one OLTIN. */
  const OUNCE_WEI: nat := 31_103_476_800_000_000_000

  const ONE: nat := 1_000_000_000_000_000_000

  /** The unit of the price: an ounce sells for the dollars of an ounce over the dollars of a sum, to the wei. */
  lemma OunceSellsAtTheFeeds(p: Prices)
    requires Quotable(p)
    ensures ExpectedSell(OUNCE_WEI, p) == ONE * p.xau / p.uzs
  {
    var n: nat := ONE * p.xau;
    assert OUNCE_WEI * p.xau * E8 == GRAMS_PER_OZ_1E8 * n;
    CancelFraction(GRAMS_PER_OZ_1E8, n, p.uzs);
  }

  lemma QuotientIs(n: nat, d: nat, q: nat, r: nat)
    requires n == q * d + r && r < d
    ensures n / d == q
  {
    Floor(n, d);
    if n / d < q { MulGap(n / d, q, d); }
    if n / d > q { MulGap(q, n / d, d); }
  }

  lemma CancelFraction(k: nat, n: nat, d: nat)
    requires k > 0 && d > 0
    ensures k * d > 0 && (k * n) / (k * d) == n / d
  {
    var q := n / d;
    Floor(n, d);
    var r: nat := n - q * d;
    Spread(k, q, d, r);
    MulGap(r, d, k);
    QuotientIs(k * n, k * d, q, k * r);
  }

  lemma Spread(k: nat, q: nat, d: nat, r: nat)
    ensures k * (q * d + r) == q * (k * d) + k * r
  {
  }

  /** What redeeming y of the supply costs is there. */
  lemma BackedPays(m: Market, p: Prices, y: nat)
    requires Quotable(p) && Backed(m, p) && y <= Supply(m)
    ensures ExpectedSell(y, p) <= m.treasury
  {
    SellFloor(y, p);
    MulMono(y, Supply(m), Den(p));
    assert ExpectedSell(y, p) * Num(p) <= m.treasury * Num(p);
    CancelLe(ExpectedSell(y, p), m.treasury, Num(p));
  }

  lemma CancelLe(a: int, b: int, c: nat)
    requires c > 0 && a * c <= b * c
    ensures a <= b
  {
    if b < a {
      MulGap(b, a, c);
    }
  }

  lemma MulGap(a: int, b: int, c: nat)
    requires a < b
    ensures a * c + c <= b * c
  {
    assert b * c == a * c + (b - a) * c;
    MulMono(1, b - a, c);
  }

  // ---------------------------------------------------------------- traces

  /** Trades one after the other at fixed prices. */
  ghost predicate IsTrace(markets: seq<Market>, trades: seq<Trade>, p: Prices) {
    && Quotable(p)
    && |markets| == |trades| + 1
    && forall i :: 0 <= i < |trades| ==> CanTrade(markets[i], trades[i]) && markets[i + 1] == After(markets[i], trades[i], p)
  }

  /** Along any trace that starts backed: the treasury can pay out the whole supply and every single
      sale, no UZD appears or disappears, and no trader's holdings gain value. */
  lemma {:induction false} TraceIsSound(markets: seq<Market>, trades: seq<Trade>, p: Prices, i: nat, who: Trader)
    requires IsTrace(markets, trades, p) && i < |markets| && Backed(markets[0], p) && who in markets[0].book
    ensures Backed(markets[i], p)
    ensures forall y: nat :: y <= Supply(markets[i]) ==> ExpectedSell(y, p) <= markets[i].treasury
    ensures markets[i].treasury + Total(UzdOf(markets[i].book)) == markets[0].treasury + Total(UzdOf(markets[0].book))
    ensures who in markets[i].book && Worth(markets[i].book[who], p) <= Worth(markets[0].book[who], p)
  {
    if i > 0 {
      TraceIsSound(markets, trades, p, i - 1, who);
      var m, t := markets[i - 1], trades[i - 1];
      assert markets[i - 1 + 1] == After(m, t, p);
      TradeKeepsBacking(m, t, p);
      TradeNeverGains(m, t, p, who);
      BookTotals(m, t, p);
    }
    forall y: nat | y <= Supply(markets[i]) ensures ExpectedSell(y, p) <= markets[i].treasury {
      BackedPays(markets[i], p, y);
    }
  }

  /** Buying with x and selling all of it returns r <= x, and loses less than one wei more than the
      price of one wei of OLTIN. */
  lemma RoundTrip(x: nat, p: Prices)
    requires Quotable(p)
    ensures var r := ExpectedSell(ExpectedBuy(x, p), p);
            r <= x && (x - r - 1) * Num(p) < Den(p)
  {
    var o := ExpectedBuy(x, p);
    var r := ExpectedSell(o, p);
    BuyFloor(x, p);
    SellFloor(o, p);
    assert r * Num(p) <= x * Num(p);
    CancelLe(r, x, Num(p));
    assert (x - r - 1) * Num(p) == x * Num(p) - r * Num(p) - Num(p);
  }

  // ---------------------------------------------------------------- slippage

  /** estimate is None when the quote is missing or is not a number. */
  function ComputeMinOut(estimate: Option<int>, slippageBps: int): Option<int> {
    if estimate.None? || estimate.value <= 0 then None
    else
      var minOut := Truncated(estimate.value * (10000 - slippageBps), 10000);
      if minOut > 0 then Some(minOut) else None
  }

  /** The floor is the largest whole number of wei within the tolerance of the estimate, whatever estimate and
      tolerance; there is none exactly when there is no positive estimate or the tolerance leaves less than a wei. */
  lemma MinOutIsLargest(estimate: Option<int>, slippageBps: int)
    ensures var m := ComputeMinOut(estimate, slippageBps);
            && (m.Some? <==> estimate.Some? && estimate.value > 0 && estimate.value * (10000 - slippageBps) >= 10000)
            && (m.Some? ==>
                  m.value > 0 && m.value * 10000 <= estimate.value * (10000 - slippageBps) < (m.value + 1) * 10000)
  {
  }

  /** Output of x at the exact rate num/den, floored. Buy and sell are the two directions of it. */
  function Fill(x: nat, num: nat, den: nat): nat
    requires den > 0
  {
    (x * num) / den
  }

  lemma BuyIsFill(x: nat, p: Prices)
    requires Quotable(p)
    ensures ExpectedBuy(x, p) == Fill(x, Num(p), Den(p))
    ensures ExpectedSell(x, p) == Fill(x, Den(p), Num(p))
  {
    assert x * p.uzs * GRAMS_PER_OZ_1E8 == x * Num(p);
    assert x * p.xau * E8 == x * Den(p);
  }

  /** The rate num'/den' is at least (10000 - s)/10000 of num/den. */
  predicate WithinSlippage(num: nat, den: nat, num': nat, den': nat, s: nat)
    requires s <= 10000
  {
    (10000 - s) * num * den' <= 10000 * num' * den
  }

  /** The swap does not revert on its floor: no floor was set, or the output meets it. */
  predicate MeetsFloor(quoted: nat, executed: nat, s: nat) {
    var floor := ComputeMinOut(Some(quoted), s);
    floor.Some? ==> floor.value <= executed
  }

  lemma RateChain(x: nat, num: nat, den: nat, num': nat, den': nat, s: nat, q: nat)
    requires s <= 10000 && den > 0 && WithinSlippage(num, den, num', den', s) && q * den <= x * num
    ensures (10000 - s) * q * den' <= 10000 * x * num'
  {
    var k: nat := 10000 - s;
    MulMono(q * den, x * num, k * den');
    MulMono(k * num * den', 10000 * num' * den, x);
    assert (k * q * den') * den == (q * den) * (k * den');
    assert (x * num) * (k * den') == (k * num * den') * x;
    assert (10000 * num' * den) * x == (10000 * x * num') * den;
    CancelLe(k * q * den', 10000 * x * num', den);
  }

  /** One amount: a rate within the tolerance always meets the floor derived from the quote. */
  lemma FloorIsMet(x: nat, num: nat, den: nat, num': nat, den': nat, s: nat)
    requires den > 0 && den' > 0 && s <= 10000 && WithinSlippage(num, den, num', den', s)
    ensures MeetsFloor(Fill(x, num, den), Fill(x, num', den'), s)
  {
    var q := Fill(x, num, den);
    Floor(x * num, den);
    RateChain(x, num, den, num', den', s, q);
    var n: nat := q * (10000 - s);
    var floor := n / 10000;
    Floor(n, 10000);
    MulMono(floor * 10000, n, den');
    assert (floor * den') * 10000 == (floor * 10000) * den';
    assert n * den' == (10000 - s) * q * den';
    assert 10000 * x * num' == (x * num') * 10000;
    CancelLe(floor * den', x * num', 10000);
    FloorAtLeast(x * num', den', floor);
  }

  /** And a rate outside it misses the floor on some amount. */
  lemma FloorIsMissed(num: nat, den: nat, num': nat, den': nat, s: nat) returns (x: nat)
    requires den > 0 && den' > 0 && s <= 10000 && !WithinSlippage(num, den, num', den', s)
    ensures !MeetsFloor(Fill(x, num, den), Fill(x, num', den'), s)
  {
    x := 10000 * den * den';
    var k: nat := 10000 - s;
    ExactDiv(10000 * num * den', den);
    assert x * num == (10000 * num * den') * den;
    ExactDiv(10000 * num' * den, den');
    assert x * num' == (10000 * num' * den) * den';
    ExactDiv(k * num * den', 10000);
    assert (10000 * num * den') * k == (k * num * den') * 10000;
  }

  lemma ExactDiv(a: nat, d: nat)
    requires d > 0
    ensures (a * d) / d == a
  {
    FloorAtLeast(a * d, d, a);
    Floor(a * d, d);
    CancelLe((a * d) / d, a, d);
  }

  /** The floor protects exactly the promised tolerance, for buys: executions at p' of a quote at p
      meet it for every amount if and only if the exact rate fell by no more than s. */
  lemma BuyFloorIsExact(p: Prices, p': Prices, s: nat)
    requires Quotable(p) && Quotable(p') && s <= 10000
    ensures (forall x: nat :: MeetsFloor(ExpectedBuy(x, p), ExpectedBuy(x, p'), s))
            <==> WithinSlippage(Num(p), Den(p), Num(p'), Den(p'), s)
  {
    if WithinSlippage(Num(p), Den(p), Num(p'), Den(p'), s) {
      forall x: nat ensures MeetsFloor(ExpectedBuy(x, p), ExpectedBuy(x, p'), s) {
        BuyIsFill(x, p);
        BuyIsFill(x, p');
        FloorIsMet(x, Num(p), Den(p), Num(p'), Den(p'), s);
      }
    } else {
      var x := FloorIsMissed(Num(p), Den(p), Num(p'), Den(p'), s);
      BuyIsFill(x, p);
      BuyIsFill(x, p');
    }
  }

  /** The same for sells. */
  lemma SellFloorIsExact(p: Prices, p': Prices, s: nat)
    requires Quotable(p) && Quotable(p') && s <= 10000
    ensures (forall x: nat :: MeetsFloor(ExpectedSell(x, p), ExpectedSell(x, p'), s))
            <==> WithinSlippage(Den(p), Num(p), Den(p'), Num(p'), s)
  {
    if WithinSlippage(Den(p), Num(p), Den(p'), Num(p'), s) {
      forall x: nat ensures MeetsFloor(ExpectedSell(x, p), ExpectedSell(x, p'), s) {
        BuyIsFill(x, p);
        BuyIsFill(x, p');
        FloorIsMet(x, Den(p), Num(p), Den(p'), Num(p'), s);
      }
    } else {
      var x := FloorIsMissed(Den(p), Num(p), Den(p'), Num(p'), s);
      BuyIsFill(x, p);
      BuyIsFill(x, p');
    }
  }
}
