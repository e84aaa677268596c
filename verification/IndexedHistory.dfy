/** From the ledger to the wallet's screen: what the operations of a ledger emit as logs, what the indexer
    stores of them, and the feed and history a wallet then sees. */
module IndexedHistory {
  import opened Common
  import I = Indexer
  import H = History

  type Address = nat

  const MINTED: I.Topic := 0x25b428dfde728ccfaddad7e29e4ac23c24ed7fd1a6e3e3f91894a9a073f5dfff
  const ADMIN_BURNED: I.Topic := 0x0300fb1646762c86af728e4b346b04152b9e37f2a30f156dd9c464ab60a446d8
  const TRANSFER: I.Topic := 0xddf252ad1be2c89b69c2b068fc378daa952ba7f163c4a11628f55a4df523b3ef
  const ANSWER_POSTED: I.Topic := 0x6222799a52e6ff10a8054d1589b5069e4736b8a0c789750abef03e1dfdc837fc

  datatype Contracts = Contracts(uzd: Address, oltin: Address, attestor: Address)

  predicate AreDistinct(c: Contracts) {
    c.uzd != c.oltin && c.uzd != c.attestor && c.oltin != c.attestor
  }

  function UzdWatch(c: Contracts): I.Watch {
    I.Watch(c.uzd, [
      I.Monitor("uzd_minted", MINTED, I.Mint),
      I.Monitor("uzd_admin_burned", ADMIN_BURNED, I.Burn),
      I.Monitor("uzd_transfer", TRANSFER, I.Transfer)])
  }

  function OltinWatch(c: Contracts): I.Watch {
    I.Watch(c.oltin, [I.Monitor("oltin_minted", MINTED, I.Mint), I.Monitor("oltin_transfer", TRANSFER, I.Transfer)])
  }

  function AttestorWatch(c: Contracts): I.Watch {
    I.Watch(c.attestor, [I.Monitor("reserve_answer", ANSWER_POSTED, I.Answer)])
  }

  function Watches(c: Contracts): seq<I.Watch> {
    [UzdWatch(c), OltinWatch(c), AttestorWatch(c)]
  }

  // ---------------------------------------------------------------- the feed of a wallet

  function TypeOf(eventType: string): H.EventType {
    if eventType == "uzd_minted" then H.UzdMinted
    else if eventType == "uzd_admin_burned" then H.UzdAdminBurned
    else if eventType == "uzd_transfer" then H.UzdTransfer
    else if eventType == "oltin_minted" then H.OltinMinted
    else if eventType == "oltin_transfer" then H.OltinTransfer
    else H.ReserveAnswer
  }

  predicate Touches(e: I.Event, wallet: Address) {
    e.source == Some(wallet) || e.target == Some(wallet)
  }

  function ItemOf(e: I.Event, wallet: Address): H.Item {
    H.Item(e.tx, TypeOf(e.eventType), H.DirectionOf(e.source, e.target, wallet), e.source, e.target,
           if e.amount.Some? then e.amount.value else 0)
  }

  predicate AllDistinct(keys: seq<I.Key>) {
    forall i, j :: 0 <= i < j < |keys| ==> keys[i] != keys[j]
  }

  function Items(keys: seq<I.Key>, store: I.Store, wallet: Address): seq<H.Item>
    requires forall k :: k in keys ==> k in store
  {
    if keys == [] then [] else [ItemOf(store[keys[0]], wallet)] + Items(keys[1..], store, wallet)
  }

  /** The query for a wallet: the stored events that touch it, each once, in any order. */
  ghost predicate IsFeed(feed: seq<H.Item>, keys: seq<I.Key>, store: I.Store, wallet: Address) {
    && AllDistinct(keys)
    && (forall k :: k in keys <==> k in store && Touches(store[k], wallet))
    && feed == Items(keys, store, wallet)
  }

  // ---------------------------------------------------------------- what a ledger emits

  datatype Emitted = Emitted(tx: string, contract: Address, topics: seq<I.Topic>, amount: nat)

  function ContractOf(c: Contracts, t: H.Token): Address {
    if t.UZD? then c.uzd else c.oltin
  }

  /** A mint and an admin burn emit their own event besides the transfer from or to the zero address. */
  function EmittedBy(c: Contracts, e: H.Entry): seq<Emitted> {
    match e.op
    case Mint(t, to, a) =>
      [Emitted(e.hash, ContractOf(c, t), [MINTED, to], a), Emitted(e.hash, ContractOf(c, t), [TRANSFER, H.ZERO, to], a)]
    case AdminBurn(holder, a) =>
      [Emitted(e.hash, c.uzd, [ADMIN_BURNED, holder], a), Emitted(e.hash, c.uzd, [TRANSFER, holder, H.ZERO], a)]
    case PlainBurn(t, holder, a) => [Emitted(e.hash, ContractOf(c, t), [TRANSFER, holder, H.ZERO], a)]
    case Move(t, sender, to, a) => [Emitted(e.hash, ContractOf(c, t), [TRANSFER, sender, to], a)]
  }

  function EmittedByAll(c: Contracts, ledger: seq<H.Entry>): seq<Emitted> {
    if ledger == [] then [] else EmittedBy(c, ledger[0]) + EmittedByAll(c, ledger[1..])
  }

  /** The log carries this emission, in some block and at some index. */
  predicate Carries(log: I.Log, m: Emitted) {
    && log.tx == m.tx && log.address == m.contract && log.topics == m.topics
    && log.word.Some? && log.word.value == m.amount
  }

  /** The token contracts' watched logs in blocks lo..hi are those of the ledger, one for each emission. Any
      other log may be on the chain too. */
  ghost predicate IsLedgerOf(
      ledger: seq<H.Entry>, logs: seq<I.Log>, c: Contracts, chain: set<I.Log>, lo: int, hi: int)
  {
    && |logs| == |EmittedByAll(c, ledger)|
    && (forall i :: 0 <= i < |logs| ==>
          logs[i] in chain && lo <= logs[i].block <= hi && Carries(logs[i], EmittedByAll(c, ledger)[i]))
    && KeysDiffer(logs)
    && (forall log :: log in chain && lo <= log.block <= hi && OnToken(c, log) ==> log in logs)
  }

  ghost predicate OnToken(c: Contracts, log: I.Log) {
    || (log.address == c.uzd && I.IsWatched(UzdWatch(c), log))
    || (log.address == c.oltin && I.IsWatched(OltinWatch(c), log))
  }

  // ---------------------------------------------------------------- one emission, one item

  /** What an emission shows to a wallet, by its first topic. */
  function Shown(c: Contracts, m: Emitted, wallet: Address): seq<H.Item>
    requires IsTokenEvent(c, m)
  {
    var t := if m.contract == c.uzd then H.UZD else H.OLTIN;
    if m.topics[0] == MINTED then H.Record(m.tx, H.MintType(t), None, Some(m.topics[1]), m.amount, wallet)
    else if m.topics[0] == ADMIN_BURNED then H.Record(m.tx, H.UzdAdminBurned, Some(m.topics[1]), None, m.amount, wallet)
    else H.Record(m.tx, H.TransferType(t), Some(m.topics[1]), Some(m.topics[2]), m.amount, wallet)
  }

  predicate IsTokenEvent(c: Contracts, m: Emitted) {
    && |m.topics| > 0
    && (m.contract == c.uzd || m.contract == c.oltin)
    && (|| (m.topics[0] == MINTED && |m.topics| == 2)
        || (m.topics[0] == ADMIN_BURNED && |m.topics| == 2 && m.contract == c.uzd)
        || (m.topics[0] == TRANSFER && |m.topics| == 3))
  }

  predicate AreTokenEvents(c: Contracts, ms: seq<Emitted>) {
    forall i :: 0 <= i < |ms| ==> IsTokenEvent(c, ms[i])
  }

  function AllShown(c: Contracts, ms: seq<Emitted>, wallet: Address): seq<H.Item>
    requires AreTokenEvents(c, ms)
  {
    if ms == [] then [] else AllShown(c, ms[..|ms| - 1], wallet) + Shown(c, ms[|ms| - 1], wallet)
  }

  lemma {:induction false} AllShownConcat(c: Contracts, a: seq<Emitted>, b: seq<Emitted>, wallet: Address)
    requires AreTokenEvents(c, a) && AreTokenEvents(c, b)
    ensures AreTokenEvents(c, a + b)
    ensures AllShown(c, a + b, wallet) == AllShown(c, a, wallet) + AllShown(c, b, wallet)
  {
    if b == [] {
      assert a + b == a;
    } else {
      AllShownConcat(c, a, b[..|b| - 1], wallet);
      assert (a + b)[..|a + b| - 1] == a + b[..|b| - 1] && (a + b)[|a + b| - 1] == b[|b| - 1];
      Associates(AllShown(c, a, wallet), AllShown(c, b[..|b| - 1], wallet), Shown(c, b[|b| - 1], wallet));
    }
  }

  lemma {:induction false} LedgerEmitsTokenEvents(c: Contracts, ledger: seq<H.Entry>)
    ensures AreTokenEvents(c, EmittedByAll(c, ledger))
  {
    if ledger != [] {
      LedgerEmitsTokenEvents(c, ledger[1..]);
    }
  }

  lemma ShownOne(c: Contracts, m: Emitted, wallet: Address)
    requires IsTokenEvent(c, m)
    ensures AllShown(c, [m], wallet) == Shown(c, m, wallet)
  {
    assert [m][..0] == [];
  }

  lemma ShownTwo(c: Contracts, m: Emitted, n: Emitted, wallet: Address)
    requires IsTokenEvent(c, m) && IsTokenEvent(c, n)
    ensures AllShown(c, [m, n], wallet) == Shown(c, m, wallet) + Shown(c, n, wallet)
  {
    assert [m, n][..1] == [m];
    ShownOne(c, m, wallet);
  }

  lemma EntryShown(c: Contracts, e: H.Entry, wallet: Address)
    requires AreDistinct(c)
    ensures AreTokenEvents(c, EmittedBy(c, e))
    ensures AllShown(c, EmittedBy(c, e), wallet) == H.ItemsOf(e, wallet)
  {
    var ms := EmittedBy(c, e);
    if e.op.Mint? || e.op.AdminBurn? {
      ShownTwo(c, ms[0], ms[1], wallet);
    } else {
      ShownOne(c, ms[0], wallet);
    }
  }

  /** The ledger's feed, emission by emission. */
  lemma {:induction false} FeedIsShown(c: Contracts, ledger: seq<H.Entry>, wallet: Address)
    requires AreDistinct(c)
    ensures AreTokenEvents(c, EmittedByAll(c, ledger))
    ensures AllShown(c, EmittedByAll(c, ledger), wallet) == H.FeedOf(ledger, wallet)
  {
    LedgerEmitsTokenEvents(c, ledger);
    if ledger != [] {
      FeedIsShown(c, ledger[1..], wallet);
      EntryShown(c, ledger[0], wallet);
      AllShownConcat(c, EmittedBy(c, ledger[0]), EmittedByAll(c, ledger[1..]), wallet);
    }
  }

  // ---------------------------------------------------------------- one emission, one stored event

  lemma {:induction false} WatchOf(c: Contracts, m: Emitted) returns (w: I.Watch, i: nat)
    requires AreDistinct(c) && IsTokenEvent(c, m)
    ensures i < |Watches(c)| && w == Watches(c)[i] && w.address == m.contract
    ensures w == if m.contract == c.uzd then UzdWatch(c) else OltinWatch(c)
  {
    w, i := if m.contract == c.uzd then UzdWatch(c) else OltinWatch(c), if m.contract == c.uzd then 0 else 1;
  }

  /** The event a token contract's log is stored as. */
  function EventOf(c: Contracts, m: Emitted, log: I.Log): I.Event
    requires IsTokenEvent(c, m)
  {
    var uzd := m.contract == c.uzd;
    var bare := I.Event(log.tx, log.index, "", m.contract, log.block, None, None, Some(m.amount), None);
    if m.topics[0] == MINTED then bare.(eventType := if uzd then "uzd_minted" else "oltin_minted", target := Some(m.topics[1]))
    else if m.topics[0] == ADMIN_BURNED then bare.(eventType := "uzd_admin_burned", source := Some(m.topics[1]))
    else bare.(eventType := if uzd then "uzd_transfer" else "oltin_transfer",
               source := Some(m.topics[1]), target := Some(m.topics[2]))
  }

  lemma TokenLogDescribed(c: Contracts, m: Emitted, log: I.Log, w: I.Watch)
    requires AreDistinct(c) && IsTokenEvent(c, m) && Carries(log, m)
    requires w == if m.contract == c.uzd then UzdWatch(c) else OltinWatch(c)
    ensures I.Describes(w, log, EventOf(c, m, log))
  {
    var i := if m.topics[0] == MINTED then 0 else if m.topics[0] == ADMIN_BURNED then 1 else |w.monitors| - 1;
    var monitor := w.monitors[i];
    assert I.IsMonitorOf(w.monitors, log.topics[0], monitor);
    assert I.Says(EventOf(c, m, log), monitor, w.address, log);
  }

  lemma ShownIsItem(c: Contracts, m: Emitted, log: I.Log, wallet: Address)
    requires IsTokenEvent(c, m) && Carries(log, m)
    ensures var e := EventOf(c, m, log);
            Shown(c, m, wallet) == if Touches(e, wallet) then [ItemOf(e, wallet)] else []
  {
  }

  /** In a scan every emission of the ledger is stored as the event it is. */
  lemma EmissionIsStored(
      ledger: seq<H.Entry>, logs: seq<I.Log>, c: Contracts, chain: set<I.Log>, lo: int, hi: int, store: I.Store, i: nat)
    requires AreDistinct(c) && IsLedgerOf(ledger, logs, c, chain, lo, hi) && I.IsScan(store, chain, Watches(c), lo, hi)
    requires i < |logs| && IsTokenEvent(c, EmittedByAll(c, ledger)[i])
    ensures I.KeyOf(logs[i]) in store && store[I.KeyOf(logs[i])] == EventOf(c, EmittedByAll(c, ledger)[i], logs[i])
  {
    var m := EmittedByAll(c, ledger)[i];
    var w, k := WatchOf(c, m);
    TokenLogDescribed(c, m, logs[i], w);
    assert Watches(c)[k].address == logs[i].address && I.Describes(Watches(c)[k], logs[i], EventOf(c, m, logs[i]));
    assert I.Wanted(chain, Watches(c), lo, hi, logs[i], EventOf(c, m, logs[i]));
  }

  lemma DescribedIsWatched(w: I.Watch, log: I.Log, e: I.Event)
    requires I.Describes(w, log, e)
    ensures I.IsWatched(w, log)
  {
  }

  lemma AnswersTouchNobody(c: Contracts, log: I.Log, e: I.Event, wallet: Address)
    requires I.Describes(AttestorWatch(c), log, e)
    ensures !Touches(e, wallet)
  {
    var ms := AttestorWatch(c).monitors;
    var m :| I.IsMonitorOf(ms, log.topics[0], m) && I.IsWellFormed(m.kind, log) && I.Says(e, m, c.attestor, log);
    assert m == ms[0];
  }

  lemma TouchingIsOnToken(c: Contracts, j: nat, log: I.Log, e: I.Event, wallet: Address)
    requires j < |Watches(c)| && Watches(c)[j].address == log.address
    requires I.Describes(Watches(c)[j], log, e) && Touches(e, wallet)
    ensures OnToken(c, log)
  {
    if j == 2 {
      AnswersTouchNobody(c, log, e, wallet);
    } else {
      DescribedIsWatched(Watches(c)[j], log, e);
    }
  }

  /** And whatever is stored and touches a wallet is one of them: answers touch nobody. */
  lemma TouchingIsOfLedger(c: Contracts, chain: set<I.Log>, lo: int, hi: int, store: I.Store, k: I.Key, wallet: Address)
    returns (log: I.Log)
    requires I.IsScan(store, chain, Watches(c), lo, hi) && k in store && Touches(store[k], wallet)
    ensures I.KeyOf(log) == k && log in chain && lo <= log.block <= hi && OnToken(c, log)
  {
    log :| I.KeyOf(log) == k && I.Wanted(chain, Watches(c), lo, hi, log, store[k]);
    var j :| 0 <= j < |Watches(c)| && Watches(c)[j].address == log.address && I.Describes(Watches(c)[j], log, store[k]);
    TouchingIsOnToken(c, j, log, store[k], wallet);
  }

  // ---------------------------------------------------------------- the feed is that of the ledger

  /** Each emission is stored under its own key as the event it is, and nothing else touches the wallet. */
  ghost predicate Stores(store: I.Store, logs: seq<I.Log>, ms: seq<Emitted>, c: Contracts, wallet: Address) {
    && AllStored(store, logs, ms, c) && KeysDiffer(logs)
    && (forall k :: k in store && Touches(store[k], wallet) ==> exists i :: 0 <= i < |logs| && I.KeyOf(logs[i]) == k)
  }

  predicate KeysDiffer(logs: seq<I.Log>) {
    forall i, j :: 0 <= i < j < |logs| ==> I.KeyOf(logs[i]) != I.KeyOf(logs[j])
  }

  ghost predicate AllStored(store: I.Store, logs: seq<I.Log>, ms: seq<Emitted>, c: Contracts) {
    |logs| == |ms| && forall i :: 0 <= i < |ms| ==> StoredAs(store, logs[i], ms[i], c)
  }

  ghost predicate StoredAs(store: I.Store, log: I.Log, m: Emitted, c: Contracts) {
    && IsTokenEvent(c, m) && Carries(log, m)
    && I.KeyOf(log) in store && store[I.KeyOf(log)] == EventOf(c, m, log)
  }

  lemma ScanStores(
      ledger: seq<H.Entry>, logs: seq<I.Log>, c: Contracts, chain: set<I.Log>, lo: int, hi: int, store: I.Store, wallet: Address)
    requires AreDistinct(c) && IsLedgerOf(ledger, logs, c, chain, lo, hi) && I.IsScan(store, chain, Watches(c), lo, hi)
    ensures Stores(store, logs, EmittedByAll(c, ledger), c, wallet)
  {
    var ms := EmittedByAll(c, ledger);
    LedgerEmitsTokenEvents(c, ledger);
    forall i | 0 <= i < |ms| ensures StoredAs(store, logs[i], ms[i], c) {
      EmissionIsStored(ledger, logs, c, chain, lo, hi, store, i);
    }
    forall k | k in store && Touches(store[k], wallet) ensures exists i :: 0 <= i < |logs| && I.KeyOf(logs[i]) == k {
      var log := TouchingIsOfLedger(c, chain, lo, hi, store, k, wallet);
      assert log in logs;
    }
  }

  /** The keys of the logs that touch the wallet. */
  ghost function Picked(logs: seq<I.Log>, store: I.Store, wallet: Address): seq<I.Key> {
    if logs == [] then []
    else
      var k := I.KeyOf(logs[|logs| - 1]);
      Picked(logs[..|logs| - 1], store, wallet) + if k in store && Touches(store[k], wallet) then [k] else []
  }

  lemma {:induction false} PickedAre(logs: seq<I.Log>, store: I.Store, wallet: Address)
    requires KeysDiffer(logs)
    ensures forall k :: k in Picked(logs, store, wallet) <==>
              k in store && Touches(store[k], wallet) && exists i :: 0 <= i < |logs| && I.KeyOf(logs[i]) == k
    ensures AllDistinct(Picked(logs, store, wallet))
  {
    if logs != [] {
      PickedAre(logs[..|logs| - 1], store, wallet);
      assert I.KeyOf(logs[|logs| - 1]) !in Picked(logs[..|logs| - 1], store, wallet);
    }
  }

  lemma {:induction false} ItemsConcat(a: seq<I.Key>, b: seq<I.Key>, store: I.Store, wallet: Address)
    requires forall k :: k in a + b ==> k in store
    ensures Items(a + b, store, wallet) == Items(a, store, wallet) + Items(b, store, wallet)
  {
    if a == [] {
      assert a + b == b;
    } else {
      ItemsConcat(a[1..], b, store, wallet);
      assert (a + b)[0] == a[0] && (a + b)[1..] == a[1..] + b;
      Associates([ItemOf(store[a[0]], wallet)], Items(a[1..], store, wallet), Items(b, store, wallet));
    }
  }

  lemma StepShows(before: seq<I.Key>, ms: seq<Emitted>, m: Emitted, log: I.Log, c: Contracts, store: I.Store, wallet: Address)
    requires (forall k :: k in before ==> k in store) && AreTokenEvents(c, ms)
    requires Items(before, store, wallet) == AllShown(c, ms, wallet) && StoredAs(store, log, m, c)
    ensures var k := I.KeyOf(log);
            var keys := before + if Touches(store[k], wallet) then [k] else [];
            (forall k :: k in keys ==> k in store) && Items(keys, store, wallet) == AllShown(c, ms + [m], wallet)
  {
    var k := I.KeyOf(log);
    var last: seq<I.Key> := if Touches(store[k], wallet) then [k] else [];
    ItemsConcat(before, last, store, wallet);
    AllShownConcat(c, ms, [m], wallet);
    ShownOne(c, m, wallet);
    ShownIsItem(c, m, log, wallet);
  }

  lemma {:induction false} PickedShow(logs: seq<I.Log>, ms: seq<Emitted>, c: Contracts, store: I.Store, wallet: Address)
    requires AllStored(store, logs, ms, c)
    ensures AreTokenEvents(c, ms) && forall k :: k in Picked(logs, store, wallet) ==> k in store
    ensures Items(Picked(logs, store, wallet), store, wallet) == AllShown(c, ms, wallet)
  {
    if logs != [] {
      var n := |logs| - 1;
      PickedShow(logs[..n], ms[..n], c, store, wallet);
      StepShows(Picked(logs[..n], store, wallet), ms[..n], ms[n], logs[n], c, store, wallet);
      assert ms == ms[..n] + [ms[n]];
    }
  }

  ghost function Without(ks: seq<I.Key>, j: nat): seq<I.Key>
    requires j < |ks|
  {
    ks[..j] + ks[j + 1..]
  }

  lemma WithoutKey(ks: seq<I.Key>, j: nat)
    requires AllDistinct(ks) && j < |ks|
    ensures AllDistinct(Without(ks, j))
    ensures forall k :: k in Without(ks, j) <==> k in ks && k != ks[j]
  {
    var rest := Without(ks, j);
    forall k | k in ks && k != ks[j] ensures k in rest {
      var i :| 0 <= i < |ks| && ks[i] == k;
      assert rest[if i < j then i else i - 1] == k;
    }
  }

  lemma ItemsWithoutKey(ks: seq<I.Key>, j: nat, store: I.Store, wallet: Address)
    requires j < |ks| && forall k :: k in ks ==> k in store
    ensures forall k :: k in Without(ks, j) ==> k in store
    ensures multiset(Items(ks, store, wallet))
         == multiset{ItemOf(store[ks[j]], wallet)} + multiset(Items(Without(ks, j), store, wallet))
  {
    assert ks == ks[..j] + ks[j..] && ks[j..][1..] == ks[j + 1..];
    ItemsConcat(ks[..j], ks[j..], store, wallet);
    ItemsConcat(ks[..j], ks[j + 1..], store, wallet);
  }

  lemma HasOne(ks: seq<I.Key>)
    requires ks != []
    ensures exists k :: k in ks
  {
    assert ks[0] in ks;
  }

  /** The order of the query does not matter. */
  lemma {:induction false} ItemsPermute(a: seq<I.Key>, b: seq<I.Key>, store: I.Store, wallet: Address)
    requires AllDistinct(a) && AllDistinct(b) && (forall k :: k in a <==> k in b) && forall k :: k in a ==> k in store
    ensures forall k :: k in b ==> k in store
    ensures multiset(Items(a, store, wallet)) == multiset(Items(b, store, wallet))
    decreases |a|
  {
    if a == [] {
      if b != [] {
        HasOne(b);
        assert false;
      }
    } else {
      assert a[0] in b;
      var j :| 0 <= j < |b| && b[j] == a[0];
      WithoutKey(a, 0);
      WithoutKey(b, j);
      ItemsWithoutKey(a, 0, store, wallet);
      ItemsWithoutKey(b, j, store, wallet);
      ItemsPermute(Without(a, 0), Without(b, j), store, wallet);
    }
  }

  lemma KeysArePicked(
      store: I.Store, logs: seq<I.Log>, ms: seq<Emitted>, c: Contracts, keys: seq<I.Key>, feed: seq<H.Item>, wallet: Address)
    requires Stores(store, logs, ms, c, wallet) && IsFeed(feed, keys, store, wallet)
    ensures AllDistinct(Picked(logs, store, wallet))
    ensures forall k :: k in keys <==> k in Picked(logs, store, wallet)
  {
    PickedAre(logs, store, wallet);
  }

  lemma FeedIsWhatIsShown(
      store: I.Store, logs: seq<I.Log>, ms: seq<Emitted>, c: Contracts, keys: seq<I.Key>, feed: seq<H.Item>, wallet: Address)
    requires Stores(store, logs, ms, c, wallet) && IsFeed(feed, keys, store, wallet)
    ensures AreTokenEvents(c, ms) && multiset(feed) == multiset(AllShown(c, ms, wallet))
  {
    KeysArePicked(store, logs, ms, c, keys, feed, wallet);
    PickedShow(logs, ms, c, store, wallet);
    ItemsPermute(keys, Picked(logs, store, wallet), store, wallet);
  }

  /** A store that is a scan of the ledger's blocks shows every wallet exactly the feed of the ledger. */
  lemma FeedIsLedger(
      ledger: seq<H.Entry>, logs: seq<I.Log>, c: Contracts, chain: set<I.Log>, lo: int, hi: int,
      store: I.Store, keys: seq<I.Key>, feed: seq<H.Item>, wallet: Address)
    requires AreDistinct(c) && IsLedgerOf(ledger, logs, c, chain, lo, hi) && I.IsScan(store, chain, Watches(c), lo, hi)
    requires IsFeed(feed, keys, store, wallet)
    ensures multiset(feed) == multiset(H.FeedOf(ledger, wallet))
  {
    var ms := EmittedByAll(c, ledger);
    ScanStores(ledger, logs, c, chain, lo, hi, store, wallet);
    FeedIsShown(c, ledger, wallet);
    FeedIsWhatIsShown(store, logs, ms, c, keys, feed, wallet);
  }

  /** End to end: after any run of the poller without a jump, over blocks that hold a ledger, the history a
      wallet is shown is that ledger row by row, and adds up to the wallet's net change plus exactly the burns
      it hides. */
  lemma PolledHistoryIsTheLedger(
      stores: seq<I.Store>, polls: seq<I.Poll>, chain: set<I.Log>, c: Contracts, lookback: nat, i: nat,
      ledger: seq<H.Entry>, logs: seq<I.Log>, keys: seq<I.Key>, feed: seq<H.Item>, wallet: Address, token: H.Token)
    requires AreDistinct(c) && I.IsRun(stores, polls, chain, Watches(c), lookback) && I.NoJump(stores, polls, lookback)
    requires i <= |polls| && I.LastHead(polls, i).Some? && I.FirstHead(polls, i).Some?
    requires IsLedgerOf(ledger, logs, c, chain, I.ColdStart(I.FirstHead(polls, i).value, lookback), I.LastHead(polls, i).value)
    requires IsFeed(feed, keys, stores[i], wallet)
    requires wallet != H.ZERO && forall j :: 0 <= j < |ledger| ==> H.RealOp(ledger[j].op)
    ensures multiset(H.Prepared(feed, H.Collapsed(feed))) == multiset(H.RowsForAll(ledger, ledger, wallet))
    ensures H.ShownTotal(H.Prepared(feed, H.Collapsed(feed)), token)
         == H.Net(ledger, wallet, token) + H.Hidden(ledger, ledger, wallet, token)
  {
    I.StoreIsAScan(stores, polls, chain, Watches(c), lookback, i);
    FeedIsLedger(ledger, logs, c, chain, I.ColdStart(I.FirstHead(polls, i).value, lookback), I.LastHead(polls, i).value,
      stores[i], keys, feed, wallet);
    H.HistoryIsTheLedger(ledger, feed, wallet);
    H.HistoryAddsUp(ledger, feed, wallet, token);
  }
}
