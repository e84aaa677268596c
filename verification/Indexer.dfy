/** The chain indexer: a last-N poller whose cursor is the highest stored block. Its store is compared
    with a plain scan of the chain. */
module Indexer {
  import opened Common

  type Address = nat
  type Topic = nat
  type Key = (string, nat)  // transaction hash and log index, the table's unique key

  datatype Kind = Mint | Burn | Transfer | Answer

  datatype Monitor = Monitor(eventType: string, topic0: Topic, kind: Kind)

  /** One watched contract and the events decoded on it. */
  datatype Watch = Watch(address: Address, monitors: seq<Monitor>)

  /** A log; an indexed topic stands for the address packed in it, word for the first data word, None
      when it is not a hexadecimal number. */
  datatype Log = Log(tx: string, index: nat, block: nat, address: Address, topics: seq<Topic>, word: Option<Word>)

  datatype Event = Event(
    tx: string, index: nat, eventType: string, contract: Address, block: nat,
    source: Option<Address>, target: Option<Address>, amount: Option<nat>, answer: Option<int>)

  type Store = map<Key, Event>

  const TWO_255: nat := 0x8000_0000_0000_0000_0000_0000_0000_0000_0000_0000_0000_0000_0000_0000_0000_0000
  const TWO_256: nat := 2 * TWO_255

  /** 64 hexadecimal digits. */
  type Word = w: nat | w < TWO_256

  function KeyOf(log: Log): Key {
    (log.tx, log.index)
  }

  function DecodeInt256(word: Word): int {
    if word >= TWO_255 then word - TWO_256 else word
  }

  /** by_topic: of two monitors with one topic the later wins. */
  function MonitorFor(monitors: seq<Monitor>, topic: Topic): Option<Monitor> {
    if monitors == [] then None
    else if monitors[|monitors| - 1].topic0 == topic then Some(monitors[|monitors| - 1])
    else MonitorFor(monitors[..|monitors| - 1], topic)
  }

  /** None when a topic or the data word is missing: the log is skipped as malformed. */
  function Decode(contract: Address, m: Monitor, log: Log): Option<Event> {
    if log.word.None? then None
    else
      var bare := Event(log.tx, log.index, m.eventType, contract, log.block, None, None, None, None);
      match m.kind
      case Mint =>
        if |log.topics| < 2 then None else Some(bare.(target := Some(log.topics[1]), amount := Some(log.word.value)))
      case Burn =>
        if |log.topics| < 2 then None else Some(bare.(source := Some(log.topics[1]), amount := Some(log.word.value)))
      case Transfer =>
        if |log.topics| < 3 then None
        else Some(bare.(source := Some(log.topics[1]), target := Some(log.topics[2]), amount := Some(log.word.value)))
      case Answer => Some(bare.(answer := Some(DecodeInt256(log.word.value))))
  }

  /** What a log of a watched contract is stored as, if at all. */
  function EventOn(w: Watch, log: Log): Option<Event> {
    if log.topics == [] then None
    else
      var m := MonitorFor(w.monitors, log.topics[0]);
      if m.None? then None else Decode(w.address, m.value, log)
  }

  lemma EventKeepsKey(w: Watch, log: Log)
    requires EventOn(w, log).Some?
    ensures var e := EventOn(w, log).value; (e.tx, e.index) == KeyOf(log) && e.block == log.block
  {
  }

  // ---------------------------------------------------------------- what a stored event says

  /** by_topic's entry: the last monitor with this topic. */
  predicate IsMonitorOf(monitors: seq<Monitor>, topic: Topic, m: Monitor) {
    exists i :: 0 <= i < |monitors| && monitors[i] == m && m.topic0 == topic
      && forall j :: i < j < |monitors| ==> monitors[j].topic0 != topic
  }

  predicate IsWellFormed(kind: Kind, log: Log) {
    log.word.Some? && |log.topics| >= (match kind case Transfer => 3 case Answer => 1 case _ => 2)
  }

  /** The event says what the log says: a mint goes to its first topic, a burn comes from it, a transfer goes
      from the first to the second, each with the word as amount; an answer is the word read as a signed
      256-bit number, the only one in its range that is congruent to it. */
  predicate Says(e: Event, m: Monitor, contract: Address, log: Log)
    requires IsWellFormed(m.kind, log)
  {
    && e.tx == log.tx && e.index == log.index && e.block == log.block
    && e.contract == contract && e.eventType == m.eventType
    && match m.kind
       case Mint => e.source == None && e.target == Some(log.topics[1]) && e.amount == Some(log.word.value) && e.answer == None
       case Burn => e.source == Some(log.topics[1]) && e.target == None && e.amount == Some(log.word.value) && e.answer == None
       case Transfer =>
         && e.source == Some(log.topics[1]) && e.target == Some(log.topics[2])
         && e.amount == Some(log.word.value) && e.answer == None
       case Answer =>
         && e.source == None && e.target == None && e.amount == None
         && e.answer.Some? && 0 - TWO_255 <= e.answer.value < TWO_255 && (log.word.value - e.answer.value) % TWO_256 == 0
  }

  /** The watched contract has a monitor for the log's first topic, the log is well-formed for it, and e is
      what it says. */
  ghost predicate Describes(w: Watch, log: Log, e: Event) {
    && log.topics != []
    && exists m :: IsMonitorOf(w.monitors, log.topics[0], m) && IsWellFormed(m.kind, log) && Says(e, m, w.address, log)
  }

  /** The log has a monitor on this contract and is well-formed for it. */
  ghost predicate IsWatched(w: Watch, log: Log) {
    log.topics != [] && exists m :: IsMonitorOf(w.monitors, log.topics[0], m) && IsWellFormed(m.kind, log)
  }

  lemma {:induction false} MonitorIsLast(monitors: seq<Monitor>, topic: Topic, m: Monitor)
    ensures MonitorFor(monitors, topic) == Some(m) <==> IsMonitorOf(monitors, topic, m)
  {
    if monitors != [] {
      var last := |monitors| - 1;
      var front := monitors[..last];
      MonitorIsLast(front, topic, m);
      if monitors[last].topic0 != topic {
        if IsMonitorOf(monitors, topic, m) {
          var i :| 0 <= i < |monitors| && monitors[i] == m && m.topic0 == topic
            && forall j :: i < j < |monitors| ==> monitors[j].topic0 != topic;
          assert front[i] == m;
        }
        if IsMonitorOf(front, topic, m) {
          var i :| 0 <= i < |front| && front[i] == m && m.topic0 == topic
            && forall j :: i < j < |front| ==> front[j].topic0 != topic;
          assert monitors[i] == m && forall j :: i < j < |monitors| ==> j == last || monitors[j] == front[j];
        }
      }
    }
  }

  lemma SignedWord(word: Word, answer: int)
    ensures answer == DecodeInt256(word) <==> 0 - TWO_255 <= answer < TWO_255 && (word - answer) % TWO_256 == 0
  {
  }

  lemma DecodeSays(m: Monitor, contract: Address, log: Log, e: Event)
    requires log.topics != []
    ensures Decode(contract, m, log) == Some(e) <==> IsWellFormed(m.kind, log) && Says(e, m, contract, log)
  {
    if log.word.Some? && m.kind.Answer? && e.answer.Some? { SignedWord(log.word.value, e.answer.value); }
  }

  /** What is stored of a log, if anything, is exactly what describes it. */
  lemma EventDescribes(w: Watch, log: Log, e: Event)
    ensures EventOn(w, log) == Some(e) <==> Describes(w, log, e)
  {
    if log.topics != [] {
      var found := MonitorFor(w.monitors, log.topics[0]);
      if found.Some? {
        MonitorIsLast(w.monitors, log.topics[0], found.value);
        DecodeSays(found.value, w.address, log, e);
      }
      if m :| IsMonitorOf(w.monitors, log.topics[0], m) && IsWellFormed(m.kind, log) && Says(e, m, w.address, log) {
        MonitorIsLast(w.monitors, log.topics[0], m);
      }
    }
  }

  lemma StoredIfWatched(w: Watch, log: Log)
    ensures EventOn(w, log).Some? <==> IsWatched(w, log)
  {
    if EventOn(w, log).Some? { EventDescribes(w, log, EventOn(w, log).value); }
    if IsWatched(w, log) {
      var m :| IsMonitorOf(w.monitors, log.topics[0], m) && IsWellFormed(m.kind, log);
      MonitorIsLast(w.monitors, log.topics[0], m);
    }
  }

  lemma DescribesOne(w: Watch, log: Log, e: Event, f: Event)
    requires Describes(w, log, e) && Describes(w, log, f)
    ensures e == f
  {
    EventDescribes(w, log, e);
    EventDescribes(w, log, f);
  }

  // ---------------------------------------------------------------- the poll, step by step

  class EventTable {
    var events: Store

    constructor ()
      ensures events == map[]
    {
      events := map[];
    }

    /** Inserts under the unique key; a log seen before is a no-op. */
    method RecordEvent(e: Event) returns (isNew: bool)
      modifies this`events
      ensures isNew <==> (e.tx, e.index) !in old(events)
      ensures events == if isNew then old(events)[(e.tx, e.index) := e] else old(events)
    {
      isNew := (e.tx, e.index) !in events;
      if isNew {
        events := events[(e.tx, e.index) := e];
      }
    }

    /** SELECT max(block_number). */
    method MaxBlock() returns (block: Option<nat>)
      ensures IsMaxBlock(events, block)
    {
      block := None;
      var keys := events.Keys;
      ghost var done: set<Key> := {};
      while keys != {}
        invariant done + keys == events.Keys
        invariant block.None? <==> done == {}
        invariant forall k :: k in done ==> block.Some? && events[k].block <= block.value
        invariant block.Some? ==> exists k :: k in done && events[k].block == block.value
        decreases |keys|
      {
        var k :| k in keys;
        if block.None? || block.value < events[k].block {
          block := Some(events[k].block);
        }
        done := done + {k};
        keys := keys - {k};
      }
    }

    /** Records one log as the event that describes it, or skips it when it is malformed or foreign. */
    method RecordLog(w: Watch, log: Log) returns (isNew: bool)
      modifies this`events
      ensures isNew <==> IsWatched(w, log) && KeyOf(log) !in old(events)
      ensures isNew ==> KeyOf(log) in events && Describes(w, log, events[KeyOf(log)])
      ensures events == if isNew then old(events)[KeyOf(log) := events[KeyOf(log)]] else old(events)
    {
      isNew := false;
      StoredIfWatched(w, log);
      var e := EventOn(w, log);
      if e.Some? {
        EventKeepsKey(w, log);
        EventDescribes(w, log, e.value);
        isNew := RecordEvent(e.value);
      }
    }

    /** Records one reply of the node; malformed and foreign logs are skipped. */
    method RecordLogs(w: Watch, logs: seq<Log>) returns (count: nat)
      modifies this`events
      ensures Recorded(old(events), events, [w], [logs])
      ensures count == |events| - |old(events)|
    {
      count := 0;
      for i := 0 to |logs|
        invariant Recorded(old(events), events, [w], [logs[..i]])
        invariant count == |events| - |old(events)|
      {
        ghost var before := events;
        var isNew := RecordLog(w, logs[i]);
        if isNew { count := count + 1; }
        StoredIfWatched(w, logs[i]);
        if isNew { EventDescribes(w, logs[i], events[KeyOf(logs[i])]); }
        RecordedLog(old(events), before, events, w, logs, i);
      }
      assert logs[..|logs|] == logs;
    }

    /** One poll of all watched contracts: from the block after the last stored one, or the lookback on
        a cold start, to the head. The caller commits. */
    method PollOnce(watches: seq<Watch>, lookback: nat, head: nat, replies: seq<seq<Log>>) returns (count: nat)
      requires |replies| == |watches|
      modifies this`events
      ensures IsPoll(old(events), events, watches, lookback, head, replies)
      ensures count == |events| - |old(events)|
    {
      var highest := MaxBlock();
      var fromBlock := if highest.None? then (if head > lookback then head - lookback else 0) else highest.value + 1;
      assert IsFromBlock(events, lookback, head, fromBlock) by {
        if highest.Some? { assert IsMaxBlock(events, Some(highest.value)) && fromBlock == highest.value + 1; }
      }
      count := 0;
      if fromBlock > head {
        return;
      }
      for i := 0 to |watches|
        invariant Recorded(old(events), events, watches[..i], replies[..i])
        invariant count == |events| - |old(events)|
      {
        ghost var before := events;
        var n := RecordLogs(watches[i], replies[i]);
        count := count + n;
        RecordedWatch(old(events), before, events, watches, replies, i);
      }
      assert watches[..|watches|] == watches && replies[..|replies|] == replies;
    }
  }

  ghost predicate IsMaxBlock(events: Store, block: Option<nat>) {
    && (block.None? <==> events == map[])
    && (block.Some? ==>
          && (forall k :: k in events ==> events[k].block <= block.value)
          && (exists k :: k in events && events[k].block == block.value))
  }

  /** Some log of the replies is stored as e under k. */
  ghost predicate Yields(watches: seq<Watch>, replies: seq<seq<Log>>, k: Key, e: Event) {
    exists i, j :: 0 <= i < |watches| && i < |replies| && 0 <= j < |replies[i]|
      && KeyOf(replies[i][j]) == k && EventOn(watches[i], replies[i][j]) == Some(e)
  }

  /** events' is events with every decodable log of the replies added under its key, once, and nothing
      else; rows that were there stay. */
  ghost predicate Recorded(events: Store, events': Store, watches: seq<Watch>, replies: seq<seq<Log>>) {
    && (forall k :: k in events ==> k in events' && events'[k] == events[k])
    && (forall k, e :: Yields(watches, replies, k, e) ==> k in events')
    && (forall k :: k in events' && k !in events ==> Yields(watches, replies, k, events'[k]))
  }

  lemma RecordedLog(old0: Store, before: Store, after: Store, w: Watch, logs: seq<Log>, i: nat)
    requires i < |logs| && Recorded(old0, before, [w], [logs[..i]])
    requires var e := EventOn(w, logs[i]);
             after == if e.Some? && KeyOf(logs[i]) !in before then before[KeyOf(logs[i]) := e.value] else before
    ensures Recorded(old0, after, [w], [logs[..i + 1]])
  {
    var ws, rs, rs' := [w], [logs[..i]], [logs[..i + 1]];
    forall k, e | Yields(ws, rs', k, e) ensures k in after {
      var a, j :| 0 <= a < 1 && 0 <= j < |rs'[a]| && KeyOf(rs'[a][j]) == k && EventOn(ws[a], rs'[a][j]) == Some(e);
      if j < i {
        assert KeyOf(rs[a][j]) == k && EventOn(ws[a], rs[a][j]) == Some(e);
        assert Yields(ws, rs, k, e);
      }
    }
    forall k | k in after && k !in old0 ensures Yields(ws, rs', k, after[k]) {
      if k in before {
        assert Yields(ws, rs, k, before[k]);
        var a, j :| 0 <= a < 1 && 0 <= j < |rs[a]| && KeyOf(rs[a][j]) == k && EventOn(ws[a], rs[a][j]) == Some(before[k]);
        assert KeyOf(rs'[a][j]) == k && EventOn(ws[a], rs'[a][j]) == Some(after[k]);
      } else {
        assert KeyOf(rs'[0][i]) == k && EventOn(ws[0], rs'[0][i]) == Some(after[k]);
      }
    }
  }

  /** What the first i + 1 replies yield, the first i or the last yields, and the other way round. */
  lemma YieldsSplit(watches: seq<Watch>, replies: seq<seq<Log>>, i: nat, k: Key, e: Event)
    requires i < |watches| == |replies|
    ensures Yields(watches[..i + 1], replies[..i + 1], k, e)
       <==> Yields(watches[..i], replies[..i], k, e) || Yields([watches[i]], [replies[i]], k, e)
  {
    var ws, rs := watches[..i + 1], replies[..i + 1];
    if Yields(ws, rs, k, e) {
      var a, j :| 0 <= a < |ws| && a < |rs| && 0 <= j < |rs[a]| && KeyOf(rs[a][j]) == k && EventOn(ws[a], rs[a][j]) == Some(e);
      if a < i {
        assert KeyOf(replies[..i][a][j]) == k && EventOn(watches[..i][a], replies[..i][a][j]) == Some(e);
      } else {
        assert KeyOf([replies[i]][0][j]) == k && EventOn([watches[i]][0], [replies[i]][0][j]) == Some(e);
      }
    }
    if Yields(watches[..i], replies[..i], k, e) {
      var a, j :| 0 <= a < i && 0 <= j < |replies[..i][a]| && KeyOf(replies[..i][a][j]) == k
        && EventOn(watches[..i][a], replies[..i][a][j]) == Some(e);
      assert KeyOf(rs[a][j]) == k && EventOn(ws[a], rs[a][j]) == Some(e);
    }
    if Yields([watches[i]], [replies[i]], k, e) {
      var a, j :| 0 <= a < 1 && 0 <= j < |replies[i]| && KeyOf([replies[i]][a][j]) == k
        && EventOn([watches[i]][a], [replies[i]][a][j]) == Some(e);
      assert KeyOf(rs[i][j]) == k && EventOn(ws[i], rs[i][j]) == Some(e);
    }
  }

  lemma RecordedWatch(old0: Store, before: Store, after: Store, watches: seq<Watch>, replies: seq<seq<Log>>, i: nat)
    requires i < |watches| == |replies|
    requires Recorded(old0, before, watches[..i], replies[..i]) && Recorded(before, after, [watches[i]], [replies[i]])
    ensures Recorded(old0, after, watches[..i + 1], replies[..i + 1])
  {
    var ws, rs := watches[..i + 1], replies[..i + 1];
    forall k, e | Yields(ws, rs, k, e) ensures k in after {
      YieldsSplit(watches, replies, i, k, e);
    }
    forall k | k in after && k !in old0 ensures Yields(ws, rs, k, after[k]) {
      YieldsSplit(watches, replies, i, k, after[k]);
    }
  }

  /** The first block of a poll. */
  ghost predicate IsFromBlock(events: Store, lookback: nat, head: nat, fromBlock: nat) {
    if events == map[] then fromBlock == (if head > lookback then head - lookback else 0)
    else exists top: nat :: IsMaxBlock(events, Some(top)) && fromBlock == top + 1
  }

  ghost predicate IsPoll(events: Store, events': Store, watches: seq<Watch>, lookback: nat, head: nat, replies: seq<seq<Log>>) {
    exists fromBlock: nat ::
      && IsFromBlock(events, lookback, head, fromBlock)
      && if fromBlock > head then events' == events else Recorded(events, events', watches, replies)
  }

  // ---------------------------------------------------------------- the chain and a plain scan of it

  /** No reorg: the logs of a block never change, and a (transaction, index) names one log. */
  ghost predicate IsChain(chain: set<Log>) {
    forall a, b :: a in chain && b in chain && KeyOf(a) == KeyOf(b) ==> a == b
  }

  /** The contract's watched, well-formed logs are what is to be stored. */
  ghost predicate Wanted(chain: set<Log>, watches: seq<Watch>, lo: int, hi: int, log: Log, e: Event) {
    && log in chain && lo <= log.block <= hi
    && exists i :: 0 <= i < |watches| && watches[i].address == log.address && Describes(watches[i], log, e)
  }

  /** The store is exactly the scan of blocks lo..hi: every wanted log under its key, nothing else. */
  ghost predicate IsScan(events: Store, chain: set<Log>, watches: seq<Watch>, lo: int, hi: int) {
    && (forall log, e :: Wanted(chain, watches, lo, hi, log, e) ==> KeyOf(log) in events && events[KeyOf(log)] == e)
    && (forall k :: k in events ==> exists log :: KeyOf(log) == k && Wanted(chain, watches, lo, hi, log, events[k]))
  }

  /** Complete replies: each holds all watched logs of its contract in the range, in any order and any
      number of times; anything else in it is not decodable. */
  ghost predicate Complete(chain: set<Log>, watches: seq<Watch>, replies: seq<seq<Log>>, lo: int, hi: int) {
    && |replies| == |watches|
    && (forall i, log ::
          (0 <= i < |watches| && log in chain && log.address == watches[i].address && lo <= log.block <= hi
           && IsWatched(watches[i], log)) ==> log in replies[i])
    && (forall i, j :: 0 <= i < |watches| && 0 <= j < |replies[i]| && IsWatched(watches[i], replies[i][j]) ==>
          replies[i][j] in chain && replies[i][j].address == watches[i].address && lo <= replies[i][j].block <= hi)
  }

  /** Each contract is watched once. */
  ghost predicate Distinct(watches: seq<Watch>) {
    forall i, j :: 0 <= i < j < |watches| ==> watches[i].address != watches[j].address
  }

  lemma YieldsIsWanted(chain: set<Log>, watches: seq<Watch>, replies: seq<seq<Log>>, lo: int, hi: int, k: Key, e: Event)
    requires Complete(chain, watches, replies, lo, hi)
    ensures Yields(watches, replies, k, e) <==> exists log :: KeyOf(log) == k && Wanted(chain, watches, lo, hi, log, e)
  {
    if Yields(watches, replies, k, e) {
      var i, j :| 0 <= i < |watches| && i < |replies| && 0 <= j < |replies[i]|
        && KeyOf(replies[i][j]) == k && EventOn(watches[i], replies[i][j]) == Some(e);
      EventDescribes(watches[i], replies[i][j], e);
      StoredIfWatched(watches[i], replies[i][j]);
      assert Wanted(chain, watches, lo, hi, replies[i][j], e);
    }
    if log :| KeyOf(log) == k && Wanted(chain, watches, lo, hi, log, e) {
      var i :| 0 <= i < |watches| && watches[i].address == log.address && Describes(watches[i], log, e);
      EventDescribes(watches[i], log, e);
      StoredIfWatched(watches[i], log);
      assert log in replies[i];
      var j :| 0 <= j < |replies[i]| && replies[i][j] == log;
      assert KeyOf(replies[i][j]) == k && EventOn(watches[i], replies[i][j]) == Some(e);
    }
  }

  /** One log is stored as one event. */
  lemma WantedOnce(chain: set<Log>, watches: seq<Watch>, lo: int, hi: int, lo': int, hi': int, a: Log, b: Log, e: Event, f: Event)
    requires IsChain(chain) && Distinct(watches) && KeyOf(a) == KeyOf(b)
    requires Wanted(chain, watches, lo, hi, a, e) && Wanted(chain, watches, lo', hi', b, f)
    ensures a == b && e == f
  {
    var i :| 0 <= i < |watches| && watches[i].address == a.address && Describes(watches[i], a, e);
    var j :| 0 <= j < |watches| && watches[j].address == b.address && Describes(watches[j], b, f);
    assert i == j;
    DescribesOne(watches[i], a, e, f);
  }

  /** Two ranges that leave no gap make one scan. */
  lemma ScansJoin(
      events: Store, events': Store, chain: set<Log>, watches: seq<Watch>, replies: seq<seq<Log>>,
      b0: int, last: int, lo: int, hi: int)
    requires IsChain(chain) && Distinct(watches) && IsScan(events, chain, watches, b0, last)
    requires Complete(chain, watches, replies, lo, hi) && Recorded(events, events', watches, replies)
    requires b0 <= lo <= last + 1 && last <= hi
    ensures IsScan(events', chain, watches, b0, hi)
  {
    forall log, e | Wanted(chain, watches, b0, hi, log, e) ensures KeyOf(log) in events' && events'[KeyOf(log)] == e {
      var k := KeyOf(log);
      if log.block <= last {
        assert Wanted(chain, watches, b0, last, log, e);
      } else {
        assert Wanted(chain, watches, lo, hi, log, e);
        YieldsIsWanted(chain, watches, replies, lo, hi, k, e);
        StoredIs(events, events', chain, watches, replies, b0, last, lo, hi, k);
        var other :| KeyOf(other) == k && Wanted(chain, watches, b0, hi, other, events'[k]);
        WantedOnce(chain, watches, b0, hi, b0, hi, log, other, e, events'[k]);
      }
    }
    forall k | k in events' ensures exists log :: KeyOf(log) == k && Wanted(chain, watches, b0, hi, log, events'[k]) {
      StoredIs(events, events', chain, watches, replies, b0, last, lo, hi, k);
    }
  }

  lemma StoredIs(
      events: Store, events': Store, chain: set<Log>, watches: seq<Watch>, replies: seq<seq<Log>>,
      b0: int, last: int, lo: int, hi: int, k: Key)
    requires IsScan(events, chain, watches, b0, last) && k in events'
    requires Complete(chain, watches, replies, lo, hi) && Recorded(events, events', watches, replies)
    requires b0 <= lo && last <= hi
    ensures exists log :: KeyOf(log) == k && Wanted(chain, watches, b0, hi, log, events'[k])
  {
    if k in events {
      var log :| KeyOf(log) == k && Wanted(chain, watches, b0, last, log, events[k]);
      assert Wanted(chain, watches, b0, hi, log, events'[k]);
    } else {
      YieldsIsWanted(chain, watches, replies, lo, hi, k, events'[k]);
      var log :| KeyOf(log) == k && Wanted(chain, watches, lo, hi, log, events'[k]);
      assert Wanted(chain, watches, b0, hi, log, events'[k]);
    }
  }

  // ---------------------------------------------------------------- runs

  /** One iteration of the poll loop; a failed one is rolled back. */
  datatype Poll = Poll(head: nat, committed: bool, replies: seq<seq<Log>>)

  ghost predicate IsStep(events: Store, events': Store, chain: set<Log>, watches: seq<Watch>, lookback: nat, p: Poll) {
    if !p.committed then events' == events
    else
      && IsPoll(events, events', watches, lookback, p.head, p.replies)
      && forall fromBlock: nat :: IsFromBlock(events, lookback, p.head, fromBlock) ==>
           Complete(chain, watches, p.replies, fromBlock, p.head)
  }

  /** Heads never go back; failed polls may happen anywhere. */
  ghost predicate IsRun(stores: seq<Store>, polls: seq<Poll>, chain: set<Log>, watches: seq<Watch>, lookback: nat) {
    && IsChain(chain) && Distinct(watches)
    && |stores| == |polls| + 1 && stores[0] == map[]
    && (forall i, j :: 0 <= i < j < |polls| ==> polls[i].head <= polls[j].head)
    && forall i :: 0 <= i < |polls| ==> IsStep(stores[i], stores[i + 1], chain, watches, lookback, polls[i])
  }

  /** The last committed head among the first i polls. */
  function LastHead(polls: seq<Poll>, i: nat): Option<nat>
    requires i <= |polls|
  {
    if i == 0 then None
    else if polls[i - 1].committed then Some(polls[i - 1].head)
    else LastHead(polls, i - 1)
  }

  /** The first committed head among the first i polls. */
  function FirstHead(polls: seq<Poll>, i: nat): Option<nat>
    requires i <= |polls|
  {
    if i == 0 then None
    else if FirstHead(polls, i - 1).Some? then FirstHead(polls, i - 1)
    else if polls[i - 1].committed then Some(polls[i - 1].head)
    else None
  }

  function ColdStart(head: nat, lookback: nat): nat {
    if head > lookback then head - lookback else 0
  }

  /** While nothing is stored yet, the head grows by at most lookback + 1 between committed polls. */
  ghost predicate NoJump(stores: seq<Store>, polls: seq<Poll>, lookback: nat)
    requires |stores| == |polls| + 1
  {
    forall i :: 0 <= i < |polls| && polls[i].committed && stores[i] == map[] && LastHead(polls, i).Some? ==>
      polls[i].head <= LastHead(polls, i).value + lookback + 1
  }

  lemma {:induction false} Heads(polls: seq<Poll>, i: nat)
    requires i <= |polls| && forall a, b :: 0 <= a < b < |polls| ==> polls[a].head <= polls[b].head
    ensures FirstHead(polls, i).Some? <==> LastHead(polls, i).Some?
    ensures FirstHead(polls, i).Some? ==> FirstHead(polls, i).value <= LastHead(polls, i).value
    ensures LastHead(polls, i).Some? ==> exists j :: 0 <= j < i && polls[j].head == LastHead(polls, i).value
  {
    if i > 0 {
      Heads(polls, i - 1);
      if LastHead(polls, i - 1).Some? {
        var j :| 0 <= j < i - 1 && polls[j].head == LastHead(polls, i - 1).value;
        assert polls[j].head <= polls[i - 1].head;
      }
      if polls[i - 1].committed {
        assert 0 <= i - 1 < i && polls[i - 1].head == LastHead(polls, i).value;
      }
    }
  }

  /** Where a committed poll starts, given what is stored. */
  lemma FromBlockFits(
      events: Store, chain: set<Log>, watches: seq<Watch>, lookback: nat, b0: nat, last: nat, head: nat, lo: nat)
    requires IsScan(events, chain, watches, b0, last) && IsFromBlock(events, lookback, head, lo)
    requires last <= head && b0 <= ColdStart(head, lookback)
    requires events == map[] ==> head <= last + lookback + 1
    ensures b0 <= lo <= last + 1
  {
    if events != map[] {
      var top: nat :| IsMaxBlock(events, Some(top)) && lo == top + 1;
      var k :| k in events && events[k].block == top;
      var log :| KeyOf(log) == k && Wanted(chain, watches, b0, last, log, events[k]);
    }
  }

  lemma PollFrom(events: Store, events': Store, chain: set<Log>, watches: seq<Watch>, lookback: nat, p: Poll) returns (lo: nat)
    requires p.committed && IsStep(events, events', chain, watches, lookback, p)
    ensures IsFromBlock(events, lookback, p.head, lo) && Complete(chain, watches, p.replies, lo, p.head)
    ensures if lo > p.head then events' == events else Recorded(events, events', watches, p.replies)
  {
    lo :| IsFromBlock(events, lookback, p.head, lo)
      && if lo > p.head then events' == events else Recorded(events, events', watches, p.replies);
  }

  lemma ScanGrows(
      events: Store, events': Store, chain: set<Log>, watches: seq<Watch>, replies: seq<seq<Log>>,
      b0: int, last: int, lo: int, hi: int)
    requires IsChain(chain) && Distinct(watches) && IsScan(events, chain, watches, b0, last)
    requires Complete(chain, watches, replies, lo, hi) && b0 <= lo <= last + 1 && last <= hi
    requires if lo > hi then events' == events else Recorded(events, events', watches, replies)
    ensures IsScan(events', chain, watches, b0, hi)
  {
    if lo <= hi {
      ScansJoin(events, events', chain, watches, replies, b0, last, lo, hi);
    } else {
      assert last == hi;
    }
  }

  /** One committed poll extends the scan to its head. */
  lemma PollExtends(
      events: Store, events': Store, chain: set<Log>, watches: seq<Watch>, lookback: nat, p: Poll, b0: nat, last: nat)
    requires IsChain(chain) && Distinct(watches) && IsScan(events, chain, watches, b0, last)
    requires p.committed && IsStep(events, events', chain, watches, lookback, p)
    requires last <= p.head && b0 <= ColdStart(p.head, lookback)
    requires events == map[] ==> p.head <= last + lookback + 1
    ensures IsScan(events', chain, watches, b0, p.head)
  {
    var lo := PollFrom(events, events', chain, watches, lookback, p);
    FromBlockFits(events, chain, watches, lookback, b0, last, p.head, lo);
    ScanGrows(events, events', chain, watches, p.replies, b0, last, lo, p.head);
  }

  lemma EmptyScan(chain: set<Log>, watches: seq<Watch>, b0: int)
    ensures IsScan(map[], chain, watches, b0, b0 - 1)
  {
  }

  /** The first committed poll scans its lookback. */
  lemma FirstPoll(events': Store, chain: set<Log>, watches: seq<Watch>, lookback: nat, p: Poll)
    requires IsChain(chain) && Distinct(watches) && p.committed && IsStep(map[], events', chain, watches, lookback, p)
    ensures IsScan(events', chain, watches, ColdStart(p.head, lookback), p.head)
  {
    var b0 := ColdStart(p.head, lookback);
    var lo := PollFrom(map[], events', chain, watches, lookback, p);
    assert lo == b0 <= p.head;
    EmptyScan(chain, watches, b0);
    ScansJoin(map[], events', chain, watches, p.replies, b0, b0 - 1, b0, p.head);
  }

  lemma {:induction false} NothingBeforeFirst(
      stores: seq<Store>, polls: seq<Poll>, chain: set<Log>, watches: seq<Watch>, lookback: nat, i: nat)
    requires IsRun(stores, polls, chain, watches, lookback) && i <= |polls| && FirstHead(polls, i).None?
    ensures stores[i] == map[]
  {
    if i > 0 {
      NothingBeforeFirst(stores, polls, chain, watches, lookback, i - 1);
      assert IsStep(stores[i - 1], stores[i - 1 + 1], chain, watches, lookback, polls[i - 1]);
    }
  }

  /** The store always equals a plain scan of the blocks from the first poll's lower bound to the last
      committed head, each well-formed watched log once, with rollbacks anywhere in between. */
  lemma {:induction false} StoreIsAScan(
      stores: seq<Store>, polls: seq<Poll>, chain: set<Log>, watches: seq<Watch>, lookback: nat, i: nat)
    requires IsRun(stores, polls, chain, watches, lookback) && NoJump(stores, polls, lookback)
    requires i <= |polls| && LastHead(polls, i).Some?
    ensures FirstHead(polls, i).Some?
    ensures IsScan(stores[i], chain, watches, ColdStart(FirstHead(polls, i).value, lookback), LastHead(polls, i).value)
  {
    Heads(polls, i);
    var p := polls[i - 1];
    assert IsStep(stores[i - 1], stores[i - 1 + 1], chain, watches, lookback, p);
    Heads(polls, i - 1);
    if FirstHead(polls, i - 1).None? {
      NothingBeforeFirst(stores, polls, chain, watches, lookback, i - 1);
      FirstPoll(stores[i], chain, watches, lookback, p);
    } else {
      StoreIsAScan(stores, polls, chain, watches, lookback, i - 1);
      if p.committed {
        var last := LastHead(polls, i - 1).value;
        var j :| 0 <= j < i - 1 && polls[j].head == last;
        assert polls[j].head <= p.head;
        PollExtends(stores[i - 1], stores[i], chain, watches, lookback, p,
          ColdStart(FirstHead(polls, i - 1).value, lookback), last);
      }
    }
  }

  // ---------------------------------------------------------------- the condition is needed

  /** A head that jumps further while nothing is stored loses an event for good: here the two polls
      succeed and the one event between them is in no store. */
  lemma JumpLosesAnEvent(lookback: nat, last: nat, head: nat, w: Watch, log: Log, e: Event)
    requires head > last + lookback + 1
    requires log.block == last + 1 && log.address == w.address && Describes(w, log, e)
    ensures var polls := [Poll(last, true, [[]]), Poll(head, true, [[]])];
            && IsRun([map[], map[], map[]], polls, {log}, [w], lookback)
            && Wanted({log}, [w], ColdStart(last, lookback), head, log, e)
            && !IsScan(map[], {log}, [w], ColdStart(last, lookback), head)
  {
    var polls := [Poll(last, true, [[]]), Poll(head, true, [[]])];
    EmptyPoll({log}, [w], lookback, polls[0]);
    EmptyPoll({log}, [w], lookback, polls[1]);
    assert [w][0].address == log.address;
    assert Wanted({log}, [w], ColdStart(last, lookback), head, log, e);
  }

  lemma EmptyPoll(chain: set<Log>, watches: seq<Watch>, lookback: nat, p: Poll)
    requires p.committed && |watches| == 1 && p.replies == [[]]
    requires forall log :: log in chain ==> !(ColdStart(p.head, lookback) <= log.block <= p.head)
    ensures IsStep(map[], map[], chain, watches, lookback, p)
  {
    var lo := ColdStart(p.head, lookback);
    assert IsFromBlock(map[], lookback, p.head, lo);
    assert Recorded(map[], map[], watches, p.replies);
  }

  // ---------------------------------------------------------------- lost for good

  /** Every later poll starts at from or above: the store already holds an event at from - 1 or above, or
      it is empty and the head is far enough. */
  ghost predicate StartsAbove(events: Store, lookback: nat, head: nat, from: nat) {
    if events == map[] then ColdStart(head, lookback) >= from
    else exists k :: k in events && events[k].block + 1 >= from
  }

  lemma StartIsAbove(events: Store, lookback: nat, head: nat, from: nat, head': nat, lo: nat)
    requires StartsAbove(events, lookback, head, from) && head <= head' && IsFromBlock(events, lookback, head', lo)
    ensures lo >= from
  {
    if events != map[] {
      var top: nat :| IsMaxBlock(events, Some(top)) && lo == top + 1;
      var k :| k in events && events[k].block + 1 >= from;
      assert events[k].block <= top;
    }
  }

  lemma NowStartsAbove(events: Store, lookback: nat, head: nat, from: nat)
    requires IsFromBlock(events, lookback, head, from)
    ensures StartsAbove(events, lookback, head, from)
  {
    if events != map[] {
      var top: nat :| IsMaxBlock(events, Some(top)) && from == top + 1;
    }
  }

  /** What a poll stores new lies at its first block or above. */
  lemma StoredIsAbove(
      events: Store, events': Store, chain: set<Log>, watches: seq<Watch>, replies: seq<seq<Log>>, lo: nat, hi: nat, k: Key)
    requires Recorded(events, events', watches, replies) && Complete(chain, watches, replies, lo, hi)
    requires k in events' && k !in events
    ensures events'[k].block >= lo
    ensures exists log :: log in chain && KeyOf(log) == k && log.block >= lo
  {
    YieldsIsWanted(chain, watches, replies, lo, hi, k, events'[k]);
    var log :| KeyOf(log) == k && Wanted(chain, watches, lo, hi, log, events'[k]);
  }

  /** One poll from there on neither stores the log nor starts lower afterwards. */
  lemma StaysLost(
      events: Store, events': Store, chain: set<Log>, watches: seq<Watch>, lookback: nat, p: Poll, head: nat, from: nat, log: Log)
    requires IsChain(chain) && log in chain && log.block < from && KeyOf(log) !in events
    requires StartsAbove(events, lookback, head, from) && head <= p.head
    requires IsStep(events, events', chain, watches, lookback, p)
    ensures KeyOf(log) !in events' && StartsAbove(events', lookback, p.head, from)
  {
    if p.committed {
      var lo := PollFrom(events, events', chain, watches, lookback, p);
      StartIsAbove(events, lookback, head, from, p.head, lo);
      if lo <= p.head {
        RecordedIsAbove(events, events', chain, watches, lookback, p, head, from, lo, log);
      }
    }
  }

  lemma RecordedIsAbove(
      events: Store, events': Store, chain: set<Log>, watches: seq<Watch>, lookback: nat, p: Poll, head: nat, from: nat, lo: nat,
      log: Log)
    requires IsChain(chain) && log in chain && log.block < from <= lo && KeyOf(log) !in events
    requires StartsAbove(events, lookback, head, from) && head <= p.head
    requires Recorded(events, events', watches, p.replies) && Complete(chain, watches, p.replies, lo, p.head)
    ensures KeyOf(log) !in events' && StartsAbove(events', lookback, p.head, from)
  {
    if KeyOf(log) in events' {
      StoredIsAbove(events, events', chain, watches, p.replies, lo, p.head, KeyOf(log));
    }
    if events != map[] {
      var k :| k in events && events[k].block + 1 >= from;
      assert k in events' && events'[k].block + 1 >= from;
    } else if events' != map[] {
      var k :| k in events';
      StoredIsAbove(events, events', chain, watches, p.replies, lo, p.head, k);
    }
  }

  ghost predicate IsLost(events: Store, lookback: nat, head: nat, from: nat, log: Log) {
    KeyOf(log) !in events && StartsAbove(events, lookback, head, from)
  }

  ghost predicate PassesOn(events: Store, events': Store, lookback: nat, head': nat, from: nat, log: Log) {
    forall head: nat :: head <= head' && IsLost(events, lookback, head, from, log) ==> IsLost(events', lookback, head', from, log)
  }

  lemma LostNext(
      stores: seq<Store>, polls: seq<Poll>, chain: set<Log>, watches: seq<Watch>, lookback: nat, i: nat, from: nat, log: Log)
    requires IsRun(stores, polls, chain, watches, lookback) && i < |polls| && log in chain && log.block < from
    ensures PassesOn(stores[i], stores[i + 1], lookback, polls[i].head, from, log)
  {
    assert IsStep(stores[i], stores[i + 1], chain, watches, lookback, polls[i]);
    forall head: nat | head <= polls[i].head && IsLost(stores[i], lookback, head, from, log)
      ensures IsLost(stores[i + 1], lookback, polls[i].head, from, log)
    {
      StaysLost(stores[i], stores[i + 1], chain, watches, lookback, polls[i], head, from, log);
    }
  }

  lemma {:induction false} LostAlong(stores: seq<Store>, heads: seq<nat>, lookback: nat, i: nat, j: nat, from: nat, log: Log)
    requires |stores| == |heads| + 1 && i < j <= |heads|
    requires forall m :: 0 < m < |heads| ==> heads[m - 1] <= heads[m]
    requires forall m :: 0 <= m < |heads| ==> PassesOn(stores[m], stores[m + 1], lookback, heads[m], from, log)
    requires IsLost(stores[i], lookback, heads[i], from, log)
    ensures IsLost(stores[j], lookback, heads[j - 1], from, log)
    decreases j
  {
    assert PassesOn(stores[j - 1], stores[j - 1 + 1], lookback, heads[j - 1], from, log);
    if i + 1 < j {
      LostAlong(stores, heads, lookback, i, j - 1, from, log);
      assert heads[(j - 1) - 1] <= heads[j - 1];
    }
  }

  lemma LostRun(
      stores: seq<Store>, polls: seq<Poll>, chain: set<Log>, watches: seq<Watch>, lookback: nat, i: nat, j: nat, from: nat, log: Log)
    requires IsRun(stores, polls, chain, watches, lookback) && i < j <= |polls| && log in chain && log.block < from
    requires IsLost(stores[i], lookback, polls[i].head, from, log)
    ensures IsLost(stores[j], lookback, polls[j - 1].head, from, log)
  {
    var heads := seq(|polls|, m requires 0 <= m < |polls| => polls[m].head);
    forall m | 0 <= m < |heads| ensures PassesOn(stores[m], stores[m + 1], lookback, heads[m], from, log) {
      LostNext(stores, polls, chain, watches, lookback, m, from, log);
    }
    LostAlong(stores, heads, lookback, i, j, from, log);
  }

  /** In every run a log that a poll starts above, and that is not stored by then, is in no later store:
      the first block of a poll never falls again. */
  lemma LostForGood(
      stores: seq<Store>, polls: seq<Poll>, chain: set<Log>, watches: seq<Watch>, lookback: nat, i: nat, j: nat, from: nat, log: Log)
    requires IsRun(stores, polls, chain, watches, lookback) && i < |polls| && i <= j <= |polls| && log in chain
    requires IsFromBlock(stores[i], lookback, polls[i].head, from) && log.block < from && KeyOf(log) !in stores[i]
    ensures KeyOf(log) !in stores[j]
  {
    if i < j {
      NowStartsAbove(stores[i], lookback, polls[i].head, from);
      LostRun(stores, polls, chain, watches, lookback, i, j, from, log);
    }
  }
}
