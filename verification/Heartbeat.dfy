/** The heartbeat keeper: one timer re-posts the last answer of each feed so that none goes stale.
    Times are chain timestamps in seconds. */
module Heartbeat {

  datatype FeedConfig = FeedConfig(name: string, maxAge: int, heartbeat: int)

  const XAU := FeedConfig("XAU", 3600, 1500)
  const RESERVE := FeedConfig("RESERVE", 3600, 1500)
  const UZS := FeedConfig("UZS", 259200, 64800)
  const FEEDS: seq<FeedConfig> := [XAU, RESERVE, UZS]

  /** The timer starts a run this long after the one before, and may be late by its accuracy. */
  const TIMER_PERIOD: int := 1800
  const TIMER_ACCURACY: int := 60

  predicate Due(age: int, heartbeat: int) {
    age >= heartbeat
  }

  // ---------------------------------------------------------------- one run over all feeds

  datatype Reading = Unreadable | Round(answer: int, updatedAt: int)

  /** What one run does with one feed. */
  datatype Row = ReadFailed | NonPositive | Fresh | DryRun(answer: int) | Posted(answer: int) | PostFailed

  function Handle(feed: FeedConfig, reading: Reading, now: int, dryRun: bool, postOk: bool): Row {
    match reading
    case Unreadable => ReadFailed
    case Round(answer, updatedAt) =>
      if answer <= 0 then NonPositive
      else if !Due(now - updatedAt, feed.heartbeat) then Fresh
      else if dryRun then DryRun(answer)
      else if postOk then Posted(answer)
      else PostFailed
  }

  predicate Failed(row: Row) {
    row.ReadFailed? || row.NonPositive? || row.PostFailed?
  }

  /** A positive answer that has reached its heartbeat. */
  predicate NeedsPost(feed: FeedConfig, reading: Reading, now: int) {
    reading.Round? && reading.answer > 0 && now - reading.updatedAt >= feed.heartbeat
  }

  /** What a row says of its feed. A post is tried exactly when one is needed and the run is no dry run, and
      with the answer that is there; a dry run says which answer it would have posted. */
  predicate IsRowOf(row: Row, feed: FeedConfig, reading: Reading, now: int, dryRun: bool, postOk: bool) {
    var tried := NeedsPost(feed, reading, now) && !dryRun;
    && (row.Posted? <==> tried && postOk)
    && (row.PostFailed? <==> tried && !postOk)
    && (row.DryRun? <==> NeedsPost(feed, reading, now) && dryRun)
    && (row.Posted? || row.DryRun? ==> row.answer == reading.answer)
    && (row.ReadFailed? <==> reading.Unreadable?)
    && (row.NonPositive? <==> reading.Round? && reading.answer <= 0)
    && (row.Fresh? <==> reading.Round? && reading.answer > 0 && now - reading.updatedAt < feed.heartbeat)
  }

  /** Goes over every feed whatever happened to the ones before, and reports failure exactly when some
      feed failed. */
  method Run(feeds: seq<FeedConfig>, readings: seq<Reading>, now: int, dryRun: bool, postOk: seq<bool>)
    returns (rows: seq<Row>, exitCode: int)
    requires |feeds| == |readings| == |postOk|
    ensures |rows| == |feeds|
    ensures forall i :: 0 <= i < |feeds| ==> rows[i] == Handle(feeds[i], readings[i], now, dryRun, postOk[i])
    ensures forall i :: 0 <= i < |feeds| ==> IsRowOf(rows[i], feeds[i], readings[i], now, dryRun, postOk[i])
    ensures exitCode == if exists i :: 0 <= i < |rows| && Failed(rows[i]) then 1 else 0
  {
    rows := [];
    var failures := 0;
    for k := 0 to |feeds|
      invariant |rows| == k
      invariant forall i :: 0 <= i < k ==> rows[i] == Handle(feeds[i], readings[i], now, dryRun, postOk[i])
      invariant failures >= 0
      invariant failures > 0 <==> exists i :: 0 <= i < k && Failed(rows[i])
    {
      ghost var before := rows;
      var row;
      match readings[k] {
        case Unreadable =>
          failures := failures + 1;
          row := ReadFailed;
        case Round(answer, updatedAt) =>
          var age := now - updatedAt;
          if answer <= 0 {
            failures := failures + 1;
            row := NonPositive;
          } else if !Due(age, feeds[k].heartbeat) {
            row := Fresh;
          } else if dryRun {
            row := DryRun(answer);
          } else if postOk[k] {
            row := Posted(answer);
          } else {
            failures := failures + 1;
            row := PostFailed;
          }
      }
      rows := rows + [row];
      assert forall i :: 0 <= i < k ==> rows[i] == before[i];
      assert rows[k] == row;
    }
    exitCode := if failures > 0 then 1 else 0;
  }

  // ---------------------------------------------------------------- freshness over all runs

  datatype Feed = Feed(answer: int, updatedAt: int)

  /** A run starts at one time; its post, if it makes one, lands at another. */
  datatype Tick = Tick(start: int, land: int)

  /** Runs at most period apart that do not overlap, every post landing within delay of its start; the
      feed was updated before the first run, less than heartbeat + period ago. */
  ghost predicate IsSchedule(feed: Feed, ticks: seq<Tick>, heartbeat: int, period: int, delay: int) {
    && |ticks| > 0
    && (forall i :: 0 <= i < |ticks| ==> ticks[i].start <= ticks[i].land <= ticks[i].start + delay)
    && (forall i :: 0 < i < |ticks| ==> ticks[i - 1].land <= ticks[i].start <= ticks[i - 1].start + period)
    && feed.answer > 0
    && feed.updatedAt <= ticks[0].start < feed.updatedAt + heartbeat + period
  }

  /** The feed a run reads, and the one it leaves: Handle's Posted row, landed. */
  ghost function FeedAt(feed: Feed, ticks: seq<Tick>, heartbeat: int, i: nat): Feed
    requires i <= |ticks|
  {
    if i == 0 then feed
    else
      var before := FeedAt(feed, ticks, heartbeat, i - 1);
      var tick := ticks[i - 1];
      var row := Handle(FeedConfig("", 0, heartbeat), Round(before.answer, before.updatedAt), tick.start, false, true);
      if row.Posted? then Feed(row.answer, tick.land) else before
  }

  /** How far run i is the latest: to the next start, or when the schedule ends to the later of its own
      landing and the next start at the latest. */
  function Horizon(ticks: seq<Tick>, period: int, i: nat): int
    requires i < |ticks|
  {
    if i + 1 < |ticks| then ticks[i + 1].start
    else if ticks[i].land > ticks[i].start + period then ticks[i].land
    else ticks[i].start + period
  }

  /** Run i has started and run i + 1 has not: the feed seen at time t is the one run i read until its
      post lands, and the one it left from then on (at that second either). */
  ghost predicate SeenAt(seen: Feed, feed: Feed, ticks: seq<Tick>, heartbeat: int, period: int, i: nat, t: int)
    requires i < |ticks|
  {
    && ticks[i].start <= t <= Horizon(ticks, period, i)
    && (|| (seen == FeedAt(feed, ticks, heartbeat, i) && (FeedAt(feed, ticks, heartbeat, i + 1) == seen || t <= ticks[i].land))
        || (seen == FeedAt(feed, ticks, heartbeat, i + 1) && t >= ticks[i].land))
  }

  lemma {:induction false} AgeAtStart(feed: Feed, ticks: seq<Tick>, heartbeat: int, period: int, delay: int, i: nat)
    requires IsSchedule(feed, ticks, heartbeat, period, delay) && heartbeat > 0 && i < |ticks|
    ensures var f := FeedAt(feed, ticks, heartbeat, i);
            f.answer == feed.answer && f.updatedAt <= ticks[i].start < f.updatedAt + heartbeat + period
  {
    if i > 0 {
      AgeAtStart(feed, ticks, heartbeat, period, delay, i - 1);
    }
  }

  /** At every instant of every schedule the feed's answer is the first one and its age is below
      heartbeat + period + delay. */
  lemma AgeIsBounded(
      seen: Feed, feed: Feed, ticks: seq<Tick>, heartbeat: int, period: int, delay: int, i: nat, t: int)
    requires IsSchedule(feed, ticks, heartbeat, period, delay) && heartbeat > 0 && period >= 0 && i < |ticks|
    requires SeenAt(seen, feed, ticks, heartbeat, period, i, t)
    ensures seen.answer == feed.answer
    ensures t - seen.updatedAt < heartbeat + period + delay
  {
    AgeAtStart(feed, ticks, heartbeat, period, delay, i);
  }

  /** No schedule ever shows an age of age or more. */
  ghost predicate NeverReaches(age: int, heartbeat: int, period: int, delay: int) {
    forall seen, feed, ticks, i: nat, t ::
      IsSchedule(feed, ticks, heartbeat, period, delay) && i < |ticks| && SeenAt(seen, feed, ticks, heartbeat, period, i, t)
      ==> t - seen.updatedAt < age
  }

  /** The bound is exact: a schedule reaches age unless heartbeat + period + delay stays within it. */
  lemma FreshnessIsExact(age: int, heartbeat: int, period: int, delay: int)
    requires heartbeat > 0 && period >= 0 && delay >= 0
    ensures NeverReaches(age, heartbeat, period, delay) <==> heartbeat + period + delay <= age
  {
    if heartbeat + period + delay <= age {
      forall seen, feed, ticks, i: nat, t |
        IsSchedule(feed, ticks, heartbeat, period, delay) && i < |ticks| && SeenAt(seen, feed, ticks, heartbeat, period, i, t)
        ensures t - seen.updatedAt < age
      {
        AgeIsBounded(seen, feed, ticks, heartbeat, period, delay, i, t);
      }
    } else {
      WorstSchedule(heartbeat, period, delay);
    }
  }

  /** A run one second before the heartbeat is due, the next a full period later, its post as late as
      allowed. */
  lemma WorstSchedule(heartbeat: int, period: int, delay: int)
    requires heartbeat > 0 && period >= 0 && delay >= 0
    ensures exists seen, feed, ticks, i: nat, t ::
              && IsSchedule(feed, ticks, heartbeat, period, delay) && i < |ticks|
              && SeenAt(seen, feed, ticks, heartbeat, period, i, t)
              && t - seen.updatedAt == heartbeat + period + delay - 1
  {
    var feed := Feed(1, 0);
    var second := heartbeat - 1 + period;
    var ticks := [Tick(heartbeat - 1, heartbeat - 1), Tick(second, second + delay)];
    assert FeedAt(feed, ticks, heartbeat, 1) == feed;
    assert SeenAt(feed, feed, ticks, heartbeat, period, 1, second + delay);
  }

  /** The consumers' own check: an age of exactly maxAge still passes. */
  predicate IsAccepted(age: int, maxAge: int) {
    age <= maxAge
  }

  /** The consumers accept the feed at every instant of every schedule. */
  ghost predicate AlwaysAccepted(maxAge: int, heartbeat: int, period: int, delay: int) {
    forall seen, feed, ticks, i: nat, t ::
      IsSchedule(feed, ticks, heartbeat, period, delay) && i < |ticks| && SeenAt(seen, feed, ticks, heartbeat, period, i, t)
      ==> IsAccepted(t - seen.updatedAt, maxAge)
  }

  /** They do exactly when heartbeat + period + delay exceeds maxAge by no more than a second. */
  lemma AcceptanceIsExact(maxAge: int, heartbeat: int, period: int, delay: int)
    requires heartbeat > 0 && period >= 0 && delay >= 0
    ensures AlwaysAccepted(maxAge, heartbeat, period, delay) <==> heartbeat + period + delay <= maxAge + 1
  {
    FreshnessIsExact(maxAge + 1, heartbeat, period, delay);
    assert AlwaysAccepted(maxAge, heartbeat, period, delay) <==> NeverReaches(maxAge + 1, heartbeat, period, delay);
  }

  ghost predicate ShippedAreAccepted(period: int, delay: int) {
    forall k :: 0 <= k < |FEEDS| ==> AlwaysAccepted(FEEDS[k].maxAge, FEEDS[k].heartbeat, period, delay)
  }

  /** With the shipped heartbeats all feeds are accepted at all times exactly when the longest time between
      two runs and the longest landing of a post add up to at most 2101 seconds. */
  lemma ShippedFeedsStayFresh(period: int, delay: int)
    requires period >= 0 && delay >= 0
    ensures ShippedAreAccepted(period, delay) <==> period + delay <= 2101
  {
    forall k | 0 <= k < |FEEDS|
      ensures AlwaysAccepted(FEEDS[k].maxAge, FEEDS[k].heartbeat, period, delay)
         <==> FEEDS[k].heartbeat + period + delay <= FEEDS[k].maxAge + 1
    {
      AcceptanceIsExact(FEEDS[k].maxAge, FEEDS[k].heartbeat, period, delay);
    }
    assert FEEDS[0] == XAU && FEEDS[1] == RESERVE && FEEDS[2] == UZS;
  }

  /** So with a punctual timer posts have 301 seconds to land, and with the shipped one, which may be a
      minute late, 241. */
  lemma ShippedTimerLeaves(delay: int)
    requires delay >= 0
    ensures ShippedAreAccepted(TIMER_PERIOD, delay) <==> delay <= 301
    ensures ShippedAreAccepted(TIMER_PERIOD + TIMER_ACCURACY, delay) <==> delay <= 241
  {
    ShippedFeedsStayFresh(TIMER_PERIOD, delay);
    ShippedFeedsStayFresh(TIMER_PERIOD + TIMER_ACCURACY, delay);
  }
}
