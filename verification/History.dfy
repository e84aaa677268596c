/** The wallet history: mint and burn double records collapsed for display. What is shown is compared
    with what the ledger did to the wallet. */
module History {
  import opened Common

  type Address = nat
  type TxHash = string

  const ZERO: Address := 0

  datatype Token = UZD | OLTIN

  datatype EventType = UzdMinted | UzdAdminBurned | UzdTransfer | OltinMinted | OltinTransfer | ReserveAnswer

  datatype Direction = In | Out | Self

  datatype Item = Item(
    hash: TxHash, eventType: EventType, direction: Direction, source: Option<Address>, target: Option<Address>, amount: nat)

  datatype HistoryKind = Received | Sent | Minted | Burned | Own

  datatype Row = Row(hash: TxHash, symbol: Token, kind: HistoryKind, amount: nat)

  type Key = (TxHash, Token, nat)

  // ---------------------------------------------------------------- prepareHistory

  function SymbolOf(t: EventType): Option<Token> {
    match t
    case ReserveAnswer => None
    case OltinMinted => Some(OLTIN)
    case OltinTransfer => Some(OLTIN)
    case _ => Some(UZD)
  }

  predicate IsMintEvent(t: EventType) {
    t.UzdMinted? || t.OltinMinted?
  }

  predicate IsBurnEvent(t: EventType) {
    t.UzdAdminBurned?
  }

  predicate IsTransfer(t: EventType) {
    t.UzdTransfer? || t.OltinTransfer?
  }

  predicate IsZero(a: Option<Address>) {
    a == Some(ZERO)
  }

  function KindOf(i: Item): HistoryKind {
    if IsMintEvent(i.eventType) || (IsTransfer(i.eventType) && IsZero(i.source)) then Minted
    else if IsBurnEvent(i.eventType) || (IsTransfer(i.eventType) && IsZero(i.target)) then Burned
    else if i.direction.Self? then Own
    else if i.direction.In? then Received
    else Sent
  }

  predicate IsToken(i: Item) {
    SymbolOf(i.eventType).Some?
  }

  function KeyOf(i: Item): Key
    requires IsToken(i)
  {
    (i.hash, SymbolOf(i.eventType).value, i.amount)
  }

  /** The row is not the second record of a mint or burn whose own event is in the feed. */
  predicate Shows(i: Item, collapsed: set<Key>) {
    && IsToken(i)
    && (!IsTransfer(i.eventType) || (!IsZero(i.source) && !IsZero(i.target)) || KeyOf(i) !in collapsed)
  }

  function RowOf(i: Item): Row
    requires IsToken(i)
  {
    Row(i.hash, SymbolOf(i.eventType).value, KindOf(i), i.amount)
  }

  predicate IsPaired(i: Item) {
    IsMintEvent(i.eventType) || IsBurnEvent(i.eventType)
  }

  /** Keys of the minted and burned events in the feed. */
  function Collapsed(feed: seq<Item>): set<Key> {
    set i | 0 <= i < |feed| && IsPaired(feed[i]) :: KeyOf(feed[i])
  }

  function Rows(i: Item, collapsed: set<Key>): seq<Row> {
    if Shows(i, collapsed) then [RowOf(i)] else []
  }

  function Prepared(feed: seq<Item>, collapsed: set<Key>): seq<Row> {
    if feed == [] then [] else Rows(feed[0], collapsed) + Prepared(feed[1..], collapsed)
  }

  /** The two passes: collect the keys of the whole feed, then keep the rows that show, in order. */
  method PrepareHistory(txs: seq<Item>) returns (rows: seq<Row>)
    ensures rows == Prepared(txs, Collapsed(txs))
  {
    var collapsed: set<Key> := {};
    for i := 0 to |txs|
      invariant collapsed == Collapsed(txs[..i])
    {
      if IsPaired(txs[i]) {
        collapsed := collapsed + {KeyOf(txs[i])};
      }
      CollapsedNext(txs, i);
    }
    assert txs[..|txs|] == txs;
    rows := [];
    for i := 0 to |txs|
      invariant rows == Prepared(txs[..i], collapsed)
    {
      if Shows(txs[i], collapsed) {
        rows := rows + [RowOf(txs[i])];
      }
      assert txs[..i + 1] == txs[..i] + [txs[i]];
      PreparedConcat(txs[..i], [txs[i]], collapsed);
      PreparedOne(txs[i], collapsed);
    }
  }

  lemma {:induction false} PreparedConcat(a: seq<Item>, b: seq<Item>, collapsed: set<Key>)
    ensures Prepared(a + b, collapsed) == Prepared(a, collapsed) + Prepared(b, collapsed)
  {
    if a == [] {
      assert a + b == b;
    } else {
      PreparedConcat(a[1..], b, collapsed);
      assert (a + b)[0] == a[0] && (a + b)[1..] == a[1..] + b;
      Associates(Rows(a[0], collapsed), Prepared(a[1..], collapsed), Prepared(b, collapsed));
    }
  }

  lemma PreparedOne(i: Item, collapsed: set<Key>)
    ensures Prepared([i], collapsed) == Rows(i, collapsed)
  {
    assert [i][1..] == [];
  }

  lemma CollapsedNext(feed: seq<Item>, i: nat)
    requires i < |feed|
    ensures Collapsed(feed[..i + 1]) == Collapsed(feed[..i]) + if IsPaired(feed[i]) then {KeyOf(feed[i])} else {}
  {
    var a, b := feed[..i], feed[..i + 1];
    forall k | k in Collapsed(b) ensures k in Collapsed(a) || (IsPaired(feed[i]) && k == KeyOf(feed[i])) {
      var j :| 0 <= j < |b| && IsPaired(b[j]) && KeyOf(b[j]) == k;
      if j < i { assert a[j] == b[j]; }
    }
    forall k | k in Collapsed(a) ensures k in Collapsed(b) {
      var j :| 0 <= j < |a| && IsPaired(a[j]) && KeyOf(a[j]) == k;
      assert b[j] == a[j];
    }
    if IsPaired(feed[i]) { assert b[i] == feed[i]; }
  }

  lemma CollapsedHas(feed: seq<Item>, i: Item)
    requires i in feed && IsPaired(i)
    ensures KeyOf(i) in Collapsed(feed)
  {
    var j :| 0 <= j < |feed| && feed[j] == i;
  }

  // ---------------------------------------------------------------- what a history adds up to

  function Signed(r: Row): int {
    match r.kind
    case Received => r.amount
    case Minted => r.amount
    case Sent => 0 - r.amount
    case Burned => 0 - r.amount
    case Own => 0
  }

  /** The signed sum of the rows of one token. */
  function ShownTotal(rows: seq<Row>, token: Token): int {
    if rows == [] then 0
    else (if rows[0].symbol == token then Signed(rows[0]) else 0) + ShownTotal(rows[1..], token)
  }

  /** What one item of the feed adds to that sum. */
  function Part(i: Item, collapsed: set<Key>, token: Token): int {
    if Shows(i, collapsed) && SymbolOf(i.eventType).value == token then Signed(RowOf(i)) else 0
  }

  function Parts(feed: seq<Item>, collapsed: set<Key>, token: Token): int {
    if feed == [] then 0 else Part(feed[0], collapsed, token) + Parts(feed[1..], collapsed, token)
  }

  lemma {:induction false} ShownIsParts(feed: seq<Item>, collapsed: set<Key>, token: Token)
    ensures ShownTotal(Prepared(feed, collapsed), token) == Parts(feed, collapsed, token)
  {
    if feed != [] {
      ShownIsParts(feed[1..], collapsed, token);
      var rest := Prepared(feed[1..], collapsed);
      if Shows(feed[0], collapsed) {
        assert Prepared(feed, collapsed)[0] == RowOf(feed[0]) && Prepared(feed, collapsed)[1..] == rest;
      } else {
        assert Prepared(feed, collapsed) == rest;
      }
    }
  }

  lemma {:induction false} PartsConcat(a: seq<Item>, b: seq<Item>, collapsed: set<Key>, token: Token)
    ensures Parts(a + b, collapsed, token) == Parts(a, collapsed, token) + Parts(b, collapsed, token)
  {
    if a == [] {
      assert a + b == b;
    } else {
      PartsConcat(a[1..], b, collapsed, token);
      assert (a + b)[0] == a[0] && (a + b)[1..] == a[1..] + b;
    }
  }

  function Without(b: seq<Item>, j: nat): seq<Item>
    requires j < |b|
  {
    b[..j] + b[j + 1..]
  }

  lemma WithoutOne(b: seq<Item>, j: nat)
    requires j < |b|
    ensures |Without(b, j)| == |b| - 1 && multiset(Without(b, j)) == multiset(b) - multiset{b[j]}
  {
    assert b == b[..j] + ([b[j]] + b[j + 1..]);
    assert multiset(b) == multiset(b[..j]) + multiset([b[j]] + b[j + 1..]);
    assert multiset([b[j]] + b[j + 1..]) == multiset{b[j]} + multiset(b[j + 1..]);
  }

  lemma PartsWithoutOne(b: seq<Item>, j: nat, collapsed: set<Key>, token: Token)
    requires j < |b|
    ensures Parts(b, collapsed, token) == Part(b[j], collapsed, token) + Parts(Without(b, j), collapsed, token)
  {
    var front, back := b[..j], b[j + 1..];
    PartsConcat(front, back, collapsed, token);
    PartsConcat(front, b[j..], collapsed, token);
    assert b == front + b[j..] && b[j..][1..] == back;
  }

  lemma SameHead(a: seq<Item>, b: seq<Item>) returns (j: nat)
    requires a != [] && multiset(a) == multiset(b)
    ensures j < |b| && b[j] == a[0] && |Without(a, 0)| < |a| && multiset(Without(a, 0)) == multiset(Without(b, j))
  {
    assert a[0] in multiset(b);
    j :| 0 <= j < |b| && b[j] == a[0];
    WithoutOne(a, 0);
    WithoutOne(b, j);
  }

  /** The order of the feed does not matter. */
  lemma {:induction false} PartsPermute(a: seq<Item>, b: seq<Item>, collapsed: set<Key>, token: Token)
    requires multiset(a) == multiset(b)
    ensures Parts(a, collapsed, token) == Parts(b, collapsed, token)
    decreases |a|
  {
    if a == [] {
      assert |b| == |multiset(b)| == 0;
    } else {
      var j := SameHead(a, b);
      PartsWithoutOne(a, 0, collapsed, token);
      PartsWithoutOne(b, j, collapsed, token);
      PartsPermute(Without(a, 0), Without(b, j), collapsed, token);
    }
  }

  lemma CollapsedPermute(a: seq<Item>, b: seq<Item>)
    requires multiset(a) == multiset(b)
    ensures Collapsed(a) == Collapsed(b)
  {
    CollapsedWithin(a, b);
    CollapsedWithin(b, a);
  }

  lemma CollapsedWithin(a: seq<Item>, b: seq<Item>)
    requires multiset(a) == multiset(b)
    ensures Collapsed(a) <= Collapsed(b)
  {
    forall k | k in Collapsed(a) ensures k in Collapsed(b) {
      var j :| 0 <= j < |a| && IsPaired(a[j]) && KeyOf(a[j]) == k;
      assert a[j] in multiset(b);
      CollapsedHas(b, a[j]);
    }
  }

  // ---------------------------------------------------------------- the ledger

  /** What a transaction does to token balances. Only UZD has an admin burn. */
  datatype Op =
    | Mint(token: Token, to: Address, amount: nat)
    | AdminBurn(holder: Address, amount: nat)
    | PlainBurn(token: Token, holder: Address, amount: nat)
    | Move(token: Token, sender: Address, to: Address, amount: nat)

  datatype Entry = Entry(hash: TxHash, op: Op)

  predicate RealOp(op: Op) {
    match op
    case Mint(_, to, _) => to != ZERO
    case AdminBurn(holder, _) => holder != ZERO
    case PlainBurn(_, holder, _) => holder != ZERO
    case Move(_, sender, to, _) => sender != ZERO && to != ZERO
  }

  function DirectionOf(source: Option<Address>, target: Option<Address>, wallet: Address): Direction {
    if source == Some(wallet) && target == Some(wallet) then Self
    else if target == Some(wallet) then In
    else Out
  }

  function TransferType(t: Token): EventType {
    if t.UZD? then UzdTransfer else OltinTransfer
  }

  function MintType(t: Token): EventType {
    if t.UZD? then UzdMinted else OltinMinted
  }

  function Record(hash: TxHash, t: EventType, source: Option<Address>, target: Option<Address>, amount: nat, wallet: Address)
    : seq<Item>
  {
    if source == Some(wallet) || target == Some(wallet)
    then [Item(hash, t, DirectionOf(source, target, wallet), source, target, amount)]
    else []
  }

  /** The indexed events of an operation that touch the wallet: a mint and an admin burn leave two. */
  function ItemsOf(e: Entry, wallet: Address): seq<Item> {
    match e.op
    case Mint(t, to, a) =>
      Record(e.hash, MintType(t), None, Some(to), a, wallet) + Record(e.hash, TransferType(t), Some(ZERO), Some(to), a, wallet)
    case AdminBurn(holder, a) =>
      Record(e.hash, UzdAdminBurned, Some(holder), None, a, wallet) + Record(e.hash, UzdTransfer, Some(holder), Some(ZERO), a, wallet)
    case PlainBurn(t, holder, a) => Record(e.hash, TransferType(t), Some(holder), Some(ZERO), a, wallet)
    case Move(t, sender, to, a) => Record(e.hash, TransferType(t), Some(sender), Some(to), a, wallet)
  }

  function FeedOf(ledger: seq<Entry>, wallet: Address): seq<Item> {
    if ledger == [] then [] else ItemsOf(ledger[0], wallet) + FeedOf(ledger[1..], wallet)
  }

  /** The change of the wallet's balance of a token. */
  function Change(op: Op, wallet: Address, token: Token): int {
    match op
    case Mint(t, to, a) => if t == token && to == wallet then a else 0
    case AdminBurn(holder, a) => if token.UZD? && holder == wallet then 0 - a else 0
    case PlainBurn(t, holder, a) => if t == token && holder == wallet then 0 - a else 0
    case Move(t, sender, to, a) =>
      if t != token then 0 else (if to == wallet then a else 0) - (if sender == wallet then a else 0)
  }

  function Net(ledger: seq<Entry>, wallet: Address, token: Token): int {
    if ledger == [] then 0 else Change(ledger[0].op, wallet, token) + Net(ledger[1..], wallet, token)
  }

  /** A mint to the wallet or an admin burn of it, of this token and amount. */
  predicate PairedOn(op: Op, wallet: Address, token: Token, amount: nat) {
    || op == Mint(token, wallet, amount)
    || (token.UZD? && op == AdminBurn(wallet, amount))
  }

  /** A plain burn that shares transaction, token and amount with a mint or admin burn of the wallet. */
  predicate IsMixed(ledger: seq<Entry>, e: Entry, wallet: Address, token: Token) {
    && e.op.PlainBurn? && e.op.token == token && e.op.holder == wallet
    && exists i :: 0 <= i < |ledger| && ledger[i].hash == e.hash && PairedOn(ledger[i].op, wallet, token, e.op.amount)
  }

  /** The amounts of such burns among the given entries. */
  function Hidden(entries: seq<Entry>, ledger: seq<Entry>, wallet: Address, token: Token): nat {
    if entries == [] then 0
    else (if IsMixed(ledger, entries[0], wallet, token) then entries[0].op.amount else 0)
         + Hidden(entries[1..], ledger, wallet, token)
  }

  lemma {:induction false} FeedHas(ledger: seq<Entry>, wallet: Address, e: Entry, i: Item)
    requires e in ledger && i in ItemsOf(e, wallet)
    ensures i in FeedOf(ledger, wallet)
  {
    if ledger[0] != e {
      FeedHas(ledger[1..], wallet, e, i);
    }
  }

  lemma {:induction false} FeedFrom(ledger: seq<Entry>, wallet: Address, i: Item) returns (k: nat)
    requires i in FeedOf(ledger, wallet)
    ensures k < |ledger| && i in ItemsOf(ledger[k], wallet)
  {
    if i in ItemsOf(ledger[0], wallet) {
      k := 0;
    } else {
      var j := FeedFrom(ledger[1..], wallet, i);
      k := j + 1;
    }
  }

  lemma PairedItem(e: Entry, wallet: Address, i: Item)
    requires RealOp(e.op) && wallet != ZERO && i in ItemsOf(e, wallet) && IsPaired(i)
    ensures KeyOf(i).0 == e.hash && PairedOn(e.op, wallet, KeyOf(i).1, KeyOf(i).2)
  {
  }

  lemma PairedHasItem(e: Entry, wallet: Address, token: Token, amount: nat) returns (i: Item)
    requires PairedOn(e.op, wallet, token, amount)
    ensures i in ItemsOf(e, wallet) && IsPaired(i) && KeyOf(i) == (e.hash, token, amount)
  {
    i := ItemsOf(e, wallet)[0];
  }

  /** A key is collapsed exactly when the ledger holds a mint or admin burn of the wallet with it. */
  lemma CollapsedMeans(ledger: seq<Entry>, wallet: Address, hash: TxHash, token: Token, amount: nat)
    requires wallet != ZERO && forall k :: 0 <= k < |ledger| ==> RealOp(ledger[k].op)
    ensures (hash, token, amount) in Collapsed(FeedOf(ledger, wallet))
       <==> exists i :: 0 <= i < |ledger| && ledger[i].hash == hash && PairedOn(ledger[i].op, wallet, token, amount)
  {
    var feed := FeedOf(ledger, wallet);
    if (hash, token, amount) in Collapsed(feed) {
      var j :| 0 <= j < |feed| && IsPaired(feed[j]) && KeyOf(feed[j]) == (hash, token, amount);
      var k := FeedFrom(ledger, wallet, feed[j]);
      PairedItem(ledger[k], wallet, feed[j]);
    }
    if i :| 0 <= i < |ledger| && ledger[i].hash == hash && PairedOn(ledger[i].op, wallet, token, amount) {
      var item := PairedHasItem(ledger[i], wallet, token, amount);
      FeedHas(ledger, wallet, ledger[i], item);
      CollapsedHas(feed, item);
    }
  }

  lemma PartsOne(i: Item, collapsed: set<Key>, token: Token)
    ensures Parts([i], collapsed, token) == Part(i, collapsed, token)
  {
    assert [i][1..] == [];
  }

  lemma PartsTwo(i: Item, j: Item, collapsed: set<Key>, token: Token)
    ensures Parts([i] + [j], collapsed, token) == Part(i, collapsed, token) + Part(j, collapsed, token)
  {
    PartsConcat([i], [j], collapsed, token);
    PartsOne(i, collapsed, token);
    PartsOne(j, collapsed, token);
  }

  lemma MintShows(e: Entry, collapsed: set<Key>, wallet: Address, token: Token)
    requires wallet != ZERO && e.op.Mint? && (e.op.to == wallet ==> (e.hash, e.op.token, e.op.amount) in collapsed)
    ensures Parts(ItemsOf(e, wallet), collapsed, token) == Change(e.op, wallet, token)
  {
    var t, to, a := e.op.token, e.op.to, e.op.amount;
    if to == wallet {
      PartsTwo(Item(e.hash, MintType(t), In, None, Some(to), a),
               Item(e.hash, TransferType(t), In, Some(ZERO), Some(to), a), collapsed, token);
    }
  }

  lemma AdminBurnShows(e: Entry, collapsed: set<Key>, wallet: Address, token: Token)
    requires wallet != ZERO && e.op.AdminBurn? && (e.op.holder == wallet ==> (e.hash, UZD, e.op.amount) in collapsed)
    ensures Parts(ItemsOf(e, wallet), collapsed, token) == Change(e.op, wallet, token)
  {
    var holder, a := e.op.holder, e.op.amount;
    if holder == wallet {
      PartsTwo(Item(e.hash, UzdAdminBurned, Out, Some(holder), None, a),
               Item(e.hash, UzdTransfer, Out, Some(holder), Some(ZERO), a), collapsed, token);
    }
  }

  lemma PlainBurnShows(e: Entry, collapsed: set<Key>, wallet: Address, token: Token)
    requires wallet != ZERO && RealOp(e.op) && e.op.PlainBurn?
    ensures Parts(ItemsOf(e, wallet), collapsed, token)
         == if (e.hash, e.op.token, e.op.amount) in collapsed then 0 else Change(e.op, wallet, token)
  {
    var t, holder, a := e.op.token, e.op.holder, e.op.amount;
    if holder == wallet {
      PartsOne(Item(e.hash, TransferType(t), Out, Some(holder), Some(ZERO), a), collapsed, token);
    }
  }

  lemma MoveShows(e: Entry, collapsed: set<Key>, wallet: Address, token: Token)
    requires wallet != ZERO && RealOp(e.op) && e.op.Move?
    ensures Parts(ItemsOf(e, wallet), collapsed, token) == Change(e.op, wallet, token)
  {
    var t, sender, to, a := e.op.token, e.op.sender, e.op.to, e.op.amount;
    var direction := DirectionOf(Some(sender), Some(to), wallet);
    PartsOne(Item(e.hash, TransferType(t), direction, Some(sender), Some(to), a), collapsed, token);
  }

  /** One operation shows its own change, unless it is a mixed burn, which shows nothing. */
  lemma EntryShows(ledger: seq<Entry>, k: nat, wallet: Address, token: Token)
    requires wallet != ZERO && k < |ledger| && forall j :: 0 <= j < |ledger| ==> RealOp(ledger[j].op)
    ensures Parts(ItemsOf(ledger[k], wallet), Collapsed(FeedOf(ledger, wallet)), token)
         == Change(ledger[k].op, wallet, token) + if IsMixed(ledger, ledger[k], wallet, token) then ledger[k].op.amount else 0
  {
    var e := ledger[k];
    var collapsed := Collapsed(FeedOf(ledger, wallet));
    match e.op
    case Mint(t, to, a) =>
      CollapsedMeans(ledger, wallet, e.hash, t, a);
      MintShows(e, collapsed, wallet, token);
    case AdminBurn(holder, a) =>
      CollapsedMeans(ledger, wallet, e.hash, UZD, a);
      AdminBurnShows(e, collapsed, wallet, token);
    case PlainBurn(t, holder, a) =>
      CollapsedMeans(ledger, wallet, e.hash, t, a);
      PlainBurnShows(e, collapsed, wallet, token);
    case Move(t, sender, to, a) =>
      MoveShows(e, collapsed, wallet, token);
  }

  lemma {:induction false} LedgerShows(ledger: seq<Entry>, k: nat, wallet: Address, token: Token)
    requires wallet != ZERO && k <= |ledger| && forall j :: 0 <= j < |ledger| ==> RealOp(ledger[j].op)
    ensures Parts(FeedOf(ledger[k..], wallet), Collapsed(FeedOf(ledger, wallet)), token)
         == Net(ledger[k..], wallet, token) + Hidden(ledger[k..], ledger, wallet, token)
    decreases |ledger| - k
  {
    if k < |ledger| {
      LedgerShows(ledger, k + 1, wallet, token);
      EntryShows(ledger, k, wallet, token);
      assert ledger[k..][0] == ledger[k] && ledger[k..][1..] == ledger[k + 1..];
      PartsConcat(ItemsOf(ledger[k], wallet), FeedOf(ledger[k + 1..], wallet), Collapsed(FeedOf(ledger, wallet)), token);
    }
  }

  /** The history of a wallet, its feed in any order, adds up to the wallet's net change plus exactly the
      burns it hides. */
  lemma HistoryAddsUp(ledger: seq<Entry>, feed: seq<Item>, wallet: Address, token: Token)
    requires wallet != ZERO && forall j :: 0 <= j < |ledger| ==> RealOp(ledger[j].op)
    requires multiset(feed) == multiset(FeedOf(ledger, wallet))
    ensures ShownTotal(Prepared(feed, Collapsed(feed)), token)
         == Net(ledger, wallet, token) + Hidden(ledger, ledger, wallet, token)
  {
    CollapsedPermute(feed, FeedOf(ledger, wallet));
    ShownIsParts(feed, Collapsed(feed), token);
    PartsPermute(feed, FeedOf(ledger, wallet), Collapsed(feed), token);
    LedgerShows(ledger, 0, wallet, token);
    assert ledger[0..] == ledger;
  }

  /** No plain burn among the entries is mixed, unless it burns nothing. */
  ghost predicate NoneMixed(entries: seq<Entry>, ledger: seq<Entry>, wallet: Address, token: Token) {
    forall k :: 0 <= k < |entries| && IsMixed(ledger, entries[k], wallet, token) ==> entries[k].op.amount == 0
  }

  lemma NoneMixedStep(entries: seq<Entry>, ledger: seq<Entry>, wallet: Address, token: Token)
    requires entries != []
    ensures NoneMixed(entries, ledger, wallet, token) <==>
            && (IsMixed(ledger, entries[0], wallet, token) ==> entries[0].op.amount == 0)
            && NoneMixed(entries[1..], ledger, wallet, token)
  {
    assert forall k :: 0 <= k < |entries[1..]| ==> entries[1..][k] == entries[k + 1];
    assert forall k :: 0 < k < |entries| ==> entries[k] == entries[1..][k - 1];
  }

  lemma {:induction false} HiddenIsZero(entries: seq<Entry>, ledger: seq<Entry>, wallet: Address, token: Token)
    ensures Hidden(entries, ledger, wallet, token) == 0 <==> NoneMixed(entries, ledger, wallet, token)
  {
    if entries != [] {
      HiddenIsZero(entries[1..], ledger, wallet, token);
      NoneMixedStep(entries, ledger, wallet, token);
    }
  }

  /** So what is shown equals the wallet's net change exactly when no transaction mixes a mint or admin
      burn of the wallet with a plain burn of the same token and positive amount. */
  lemma HistoryIsExact(ledger: seq<Entry>, feed: seq<Item>, wallet: Address, token: Token)
    requires wallet != ZERO && forall j :: 0 <= j < |ledger| ==> RealOp(ledger[j].op)
    requires multiset(feed) == multiset(FeedOf(ledger, wallet))
    ensures ShownTotal(Prepared(feed, Collapsed(feed)), token) == Net(ledger, wallet, token)
       <==> NoneMixed(ledger, ledger, wallet, token)
  {
    HistoryAddsUp(ledger, feed, wallet, token);
    HiddenIsZero(ledger, ledger, wallet, token);
  }

  lemma NetConcat(a: seq<Entry>, e: Entry, wallet: Address, token: Token)
    requires |a| == 1
    ensures Net(a + [e], wallet, token) == Change(a[0].op, wallet, token) + Change(e.op, wallet, token)
  {
    var both := a + [e];
    assert both[1..] == [e] && [e][1..] == [];
    assert Net([e], wallet, token) == Change(e.op, wallet, token) + Net([e][1..], wallet, token);
  }

  lemma HiddenLast(a: seq<Entry>, e: Entry, ledger: seq<Entry>, wallet: Address, token: Token)
    requires |a| == 1 && a[0].op.Mint? && IsMixed(ledger, e, wallet, token)
    ensures Hidden(a + [e], ledger, wallet, token) == e.op.amount
  {
    var both := a + [e];
    assert both[1..] == [e] && [e][1..] == [];
    assert Hidden([e], ledger, wallet, token) == e.op.amount + Hidden([e][1..], ledger, wallet, token);
  }

  /** A transaction that mints tokens to the wallet and burns as many again, as a contract wallet's buy
      and full sale do, shows a history of plus that amount although the balance did not change. */
  lemma MixedBurnIsHidden(hash: TxHash, wallet: Address, token: Token, amount: nat)
    requires wallet != ZERO
    ensures var ledger := [Entry(hash, Mint(token, wallet, amount)), Entry(hash, PlainBurn(token, wallet, amount))];
            var feed := FeedOf(ledger, wallet);
            Net(ledger, wallet, token) == 0 && ShownTotal(Prepared(feed, Collapsed(feed)), token) == amount
  {
    var ledger := [Entry(hash, Mint(token, wallet, amount)), Entry(hash, PlainBurn(token, wallet, amount))];
    HistoryAddsUp(ledger, FeedOf(ledger, wallet), wallet, token);
    assert IsMixed(ledger, ledger[1], wallet, token) by {
      assert PairedOn(ledger[0].op, wallet, token, amount);
    }
    assert ledger == [ledger[0]] + [ledger[1]];
    NetConcat([ledger[0]], ledger[1], wallet, token);
    HiddenLast([ledger[0]], ledger[1], ledger, wallet, token);
  }

  // ---------------------------------------------------------------- the rows, operation by operation

  /** How an operation reads to a wallet it touches. */
  function RowsFor(e: Entry, wallet: Address): seq<Row> {
    match e.op
    case Mint(t, to, a) => if to == wallet then [Row(e.hash, t, Minted, a)] else []
    case AdminBurn(holder, a) => if holder == wallet then [Row(e.hash, UZD, Burned, a)] else []
    case PlainBurn(t, holder, a) => if holder == wallet then [Row(e.hash, t, Burned, a)] else []
    case Move(t, sender, to, a) =>
      if sender == wallet && to == wallet then [Row(e.hash, t, Own, a)]
      else if to == wallet then [Row(e.hash, t, Received, a)]
      else if sender == wallet then [Row(e.hash, t, Sent, a)]
      else []
  }

  predicate IsHidden(ledger: seq<Entry>, e: Entry, wallet: Address) {
    e.op.PlainBurn? && IsMixed(ledger, e, wallet, e.op.token)
  }

  /** One row for each operation of the entries that touches the wallet, without the hidden burns. */
  function RowsForAll(entries: seq<Entry>, ledger: seq<Entry>, wallet: Address): seq<Row> {
    if entries == [] then []
    else
      (if IsHidden(ledger, entries[0], wallet) then [] else RowsFor(entries[0], wallet))
      + RowsForAll(entries[1..], ledger, wallet)
  }

  lemma PreparedTwo(i: Item, j: Item, collapsed: set<Key>)
    ensures Prepared([i] + [j], collapsed)
         == Rows(i, collapsed) + Rows(j, collapsed)
  {
    PreparedConcat([i], [j], collapsed);
    PreparedOne(i, collapsed);
    PreparedOne(j, collapsed);
  }

  lemma PairRows(e: Entry, collapsed: set<Key>, wallet: Address)
    requires wallet != ZERO && (e.op.Mint? || e.op.AdminBurn?)
    requires e.op.Mint? && e.op.to == wallet ==> (e.hash, e.op.token, e.op.amount) in collapsed
    requires e.op.AdminBurn? && e.op.holder == wallet ==> (e.hash, UZD, e.op.amount) in collapsed
    ensures Prepared(ItemsOf(e, wallet), collapsed) == RowsFor(e, wallet)
  {
    var a := e.op.amount;
    match e.op
    case Mint(t, to, _) =>
      if to == wallet {
        PreparedTwo(Item(e.hash, MintType(t), In, None, Some(to), a),
                    Item(e.hash, TransferType(t), In, Some(ZERO), Some(to), a), collapsed);
      }
    case AdminBurn(holder, _) =>
      if holder == wallet {
        PreparedTwo(Item(e.hash, UzdAdminBurned, Out, Some(holder), None, a),
                    Item(e.hash, UzdTransfer, Out, Some(holder), Some(ZERO), a), collapsed);
      }
  }

  lemma SingleRows(e: Entry, collapsed: set<Key>, wallet: Address)
    requires wallet != ZERO && RealOp(e.op) && (e.op.PlainBurn? || e.op.Move?)
    ensures Prepared(ItemsOf(e, wallet), collapsed)
         == if e.op.PlainBurn? && (e.hash, e.op.token, e.op.amount) in collapsed then [] else RowsFor(e, wallet)
  {
    var t, a := e.op.token, e.op.amount;
    var source := if e.op.PlainBurn? then e.op.holder else e.op.sender;
    var target := if e.op.PlainBurn? then ZERO else e.op.to;
    var direction := DirectionOf(Some(source), Some(target), wallet);
    PreparedOne(Item(e.hash, TransferType(t), direction, Some(source), Some(target), a), collapsed);
  }

  lemma EntryRows(ledger: seq<Entry>, k: nat, wallet: Address)
    requires wallet != ZERO && k < |ledger| && forall j :: 0 <= j < |ledger| ==> RealOp(ledger[j].op)
    ensures Prepared(ItemsOf(ledger[k], wallet), Collapsed(FeedOf(ledger, wallet)))
         == if IsHidden(ledger, ledger[k], wallet) then [] else RowsFor(ledger[k], wallet)
  {
    var e := ledger[k];
    var collapsed := Collapsed(FeedOf(ledger, wallet));
    CollapsedMeans(ledger, wallet, e.hash, if e.op.AdminBurn? then UZD else e.op.token, e.op.amount);
    if e.op.Mint? || e.op.AdminBurn? {
      PairRows(e, collapsed, wallet);
    } else {
      SingleRows(e, collapsed, wallet);
    }
  }

  lemma {:induction false} LedgerRows(ledger: seq<Entry>, k: nat, wallet: Address)
    requires wallet != ZERO && k <= |ledger| && forall j :: 0 <= j < |ledger| ==> RealOp(ledger[j].op)
    ensures Prepared(FeedOf(ledger[k..], wallet), Collapsed(FeedOf(ledger, wallet))) == RowsForAll(ledger[k..], ledger, wallet)
    decreases |ledger| - k
  {
    if k < |ledger| {
      LedgerRows(ledger, k + 1, wallet);
      EntryRows(ledger, k, wallet);
      assert ledger[k..][0] == ledger[k] && ledger[k..][1..] == ledger[k + 1..];
      PreparedConcat(ItemsOf(ledger[k], wallet), FeedOf(ledger[k + 1..], wallet), Collapsed(FeedOf(ledger, wallet)));
    }
  }

  lemma PreparedWithoutOne(b: seq<Item>, j: nat, collapsed: set<Key>)
    requires j < |b|
    ensures multiset(Prepared(b, collapsed)) == multiset(Prepared(Without(b, j), collapsed)) + multiset(Rows(b[j], collapsed))
  {
    var front, back := b[..j], b[j + 1..];
    PreparedConcat(front, back, collapsed);
    PreparedConcat(front, b[j..], collapsed);
    assert b == front + b[j..] && b[j..][1..] == back && b[j..][0] == b[j];
    MovedToTheEnd(Prepared(front, collapsed), Rows(b[j], collapsed), Prepared(back, collapsed));
  }

  lemma MovedToTheEnd(a: seq<Row>, b: seq<Row>, c: seq<Row>)
    ensures multiset(a + (b + c)) == multiset(a + c) + multiset(b)
  {
  }

  lemma {:induction false} PreparedPermute(a: seq<Item>, b: seq<Item>, collapsed: set<Key>)
    requires multiset(a) == multiset(b)
    ensures multiset(Prepared(a, collapsed)) == multiset(Prepared(b, collapsed))
    decreases |a|
  {
    if a == [] {
      assert |b| == |multiset(b)| == 0;
    } else {
      var j := SameHead(a, b);
      PreparedWithoutOne(a, 0, collapsed);
      PreparedWithoutOne(b, j, collapsed);
      PreparedPermute(Without(a, 0), Without(b, j), collapsed);
    }
  }

  /** The history of a wallet is its ledger, read row by row: for its feed in any order, one row for each mint,
      burn, receipt, sending and own transfer of the wallet, of that kind, token and amount, in the order of the
      feed, and no others; only the mixed burns are missing. */
  lemma HistoryIsTheLedger(ledger: seq<Entry>, feed: seq<Item>, wallet: Address)
    requires wallet != ZERO && forall j :: 0 <= j < |ledger| ==> RealOp(ledger[j].op)
    requires multiset(feed) == multiset(FeedOf(ledger, wallet))
    ensures multiset(Prepared(feed, Collapsed(feed))) == multiset(RowsForAll(ledger, ledger, wallet))
    ensures feed == FeedOf(ledger, wallet) ==> Prepared(feed, Collapsed(feed)) == RowsForAll(ledger, ledger, wallet)
  {
    CollapsedPermute(feed, FeedOf(ledger, wallet));
    PreparedPermute(feed, FeedOf(ledger, wallet), Collapsed(feed));
    LedgerRows(ledger, 0, wallet);
    assert ledger[0..] == ledger;
  }
}
