/** Data feeds: the reward of one report, batches of claims, and what a feed ever pays. */
module Feeds {
  import opened Prelude
  import opened ReportLog

  datatype Feed = Feed(
    reward: nat, balance: nat, startTime: Timestamp, interval: nat, window: nat,
    priceThreshold: nat, increasePerSecond: nat)

  // ---- decoding values ----

  function BigEndian(b: Value): nat {
    if b == [] then 0 else 256 * BigEndian(b[..|b| - 1]) + b[|b| - 1] as nat
  }

  /** Bytes are a number exactly when the whole number fits 256 bits. */
  function Decoded(b: Value): Option<nat> {
    if BigEndian(b) <= U256_MAX then Some(BigEndian(b)) else None
  }

  /** Decodes a value byte by byte; an overflow anywhere makes the whole value undecodable. */
  method BytesToU256(b: Value) returns (number: Option<nat>)
    ensures number == Decoded(b)
  {
    number := Some(0);
    for i := 0 to |b|
      invariant number == Decoded(b[..i])
    {
      assert b[..i + 1][..i] == b[..i];
      if number.Some? {
        var shifted := number.value * 256;
        var next := shifted + b[i] as nat;
        number := if shifted > U256_MAX || next > U256_MAX then None else Some(next);
      }
    }
    assert b[..|b|] == b;
  }

  /** Change from `v2` to `v1` in hundredths of a percent, clamped to 16 bits. */
  function PriceChange(v1: nat, v2: nat): Result<nat> {
    if v2 == 0 then Ok(10_000)
    else
      var diff := if v1 >= v2 then v1 - v2 else v2 - v1;
      if 10_000 * diff > U256_MAX then Err(Overflow)
      else Ok(Min(10_000 * diff / v2, U16_MAX))
  }

  // ---- the reward of one report ----

  /** The start of the pay interval that contains `t`. */
  function IntervalStart(feed: Feed, t: Timestamp): (c: nat)
    requires feed.interval > 0 && feed.startTime <= t
    ensures feed.startTime <= c <= t < c + feed.interval
  {
    var n := (t - feed.startTime) / feed.interval;
    IntervalBounds(t - feed.startTime, feed.interval);
    feed.startTime + feed.interval * n
  }

  lemma IntervalBounds(x: nat, d: nat)
    requires d > 0
    ensures 0 <= d * (x / d) <= x < d * (x / d) + d
  {
  }

  /** The report is the first undisputed one of its interval and inside the window. */
  predicate InWindow(feed: Feed, log: Log, i: nat)
    requires i < |log|
    requires feed.interval > 0 && feed.startTime <= log[i].time
  {
    var c := IntervalStart(feed, log[i].time);
    log[i].time - c < feed.window && PrevTime(log, i).GetOr(0) < c
  }

  function ValueBefore(log: Log, i: nat): Value
    requires i < |log|
  {
    match PrevIndex(log, i)
    case Some(j) => log[j].value
    case None => []
  }

  function PriceMove(feed: Feed, log: Log, i: nat): Result<nat>
    requires i < |log|
  {
    if feed.priceThreshold == 0 then Ok(0)
    else if log[i].value == [] then Err(InvalidValue)
    else if Decoded(log[i].value).None? || Decoded(ValueBefore(log, i)).None? then Err(ValueConversionError)
    else PriceChange(Decoded(log[i].value).value, Decoded(ValueBefore(log, i)).value)
  }

  /** The uncapped reward: flat or growing inside the window, flat when the price moved enough. */
  function BaseReward(feed: Feed, log: Log, i: nat): Result<nat>
    requires i < |log|
    requires feed.interval > 0 && feed.startTime <= log[i].time
  {
    var change :- PriceMove(feed, log, i);
    if InWindow(feed, log, i) then
      var extra := feed.increasePerSecond * (log[i].time - IntervalStart(feed, log[i].time));
      if extra > BALANCE_MAX then Err(Overflow) else Ok(Min(feed.reward + extra, BALANCE_MAX))
    else if change > feed.priceThreshold then Ok(feed.reward)
    else Err(PriceThresholdNotMet)
  }

  function Reward(maybe: Option<Feed>, log: Log, claimed: set<Timestamp>, now: Timestamp, t: Timestamp)
    : (r: Result<nat>)
    ensures r.Ok? ==> t !in claimed && maybe.Some? && r.value <= maybe.value.balance
  {
    if now < t then Err(Underflow)
    else if now - t >= 4 * WEEKS then Err(ClaimPeriodExpired)
    else if maybe.None? then Err(InvalidFeed)
    else
      var feed := maybe.value;
      if t in claimed then Err(TipAlreadyClaimed)
      else if t < feed.startTime then Err(Underflow)
      else if feed.interval == 0 then Err(DivisionByZero)
      else
        match Find(log, t)
        case None => Err(InvalidTimestamp)
        case Some(i) =>
          if log[i].disputed then Err(ValueDisputed)
          else
            var amount :- BaseReward(feed, log, i);
            Ok(Min(amount, feed.balance))
  }

  // ---- a batch of claims ----

  function Add(claimed: set<Timestamp>, ts: seq<Timestamp>): set<Timestamp> {
    claimed + set t | t in ts
  }

  /** The reward of one report, claimed by its reporter after the buffer time. */
  function OwnReward(feed: Feed, log: Log, claimed: set<Timestamp>, now: Timestamp, t: Timestamp, reporter: UserId)
    : (r: Result<nat>)
    ensures r.Ok? ==> t !in claimed && t + 12 * HOURS < now && r == Reward(Some(feed), log, claimed, now, t)
  {
    if now < t then Err(Underflow)
    else if now - t <= 12 * HOURS then Err(ClaimBufferNotPassed)
    else if Find(log, t).None? || log[Find(log, t).value].reporter != reporter then Err(InvalidClaimer)
    else Reward(Some(feed), log, claimed, now, t)
  }

  /** The loop of a claim after its first `n` reports: the cumulative reward. */
  function ClaimUpTo(
    feed: Feed, log: Log, claimed: set<Timestamp>, now: Timestamp, ts: seq<Timestamp>, reporter: UserId, n: nat)
    : (r: Result<nat>)
    requires n <= |ts|
    ensures r.Ok? ==> r.value <= feed.balance
  {
    if n == 0 then Ok(0)
    else
      var sum :- ClaimUpTo(feed, log, claimed, now, ts, reporter, n - 1);
      var amount :- OwnReward(feed, log, Add(claimed, ts[..n - 1]), now, ts[n - 1], reporter);
      if sum + amount < feed.balance then Ok(sum + amount)
      else if ts[n - 1] != ts[|ts| - 1] then Err(InsufficientFeedBalance)
      else Ok(feed.balance)
  }

  function ClaimFeed(
    feed: Feed, log: Log, claimed: set<Timestamp>, now: Timestamp, ts: seq<Timestamp>, reporter: UserId)
    : (r: Result<nat>)
    ensures r.Ok? ==> r.value <= feed.balance
  {
    if feed.balance == 0 then Err(InsufficientFeedBalance)
    else ClaimUpTo(feed, log, claimed, now, ts, reporter, |ts|)
  }

  /** The share of `amount` that goes to the staking rewards; `fee` is in thousandths. */
  function FeeOf(amount: nat, fee: nat): nat {
    amount * fee / 1_000
  }

  // ---- the read-only view ----

  function RewardSum(
    maybe: Option<Feed>, log: Log, claimed: set<Timestamp>, now: Timestamp, ts: seq<Timestamp>, n: nat): nat
    requires n <= |ts|
  {
    if n == 0 then 0
    else
      var r := Reward(maybe, log, claimed, now, ts[n - 1]);
      RewardSum(maybe, log, claimed, now, ts, n - 1) + if r.Ok? then r.value else 0
  }

  function ViewAmount(
    maybe: Option<Feed>, log: Log, claimed: set<Timestamp>, now: Timestamp, ts: seq<Timestamp>, fee: nat): nat
  {
    if maybe.None? then 0
    else
      var amount := Min(RewardSum(maybe, log, claimed, now, ts, |ts|), maybe.value.balance);
      SatSub(amount, FeeOf(amount, fee))
  }

  /** While a claim has reports left, it has not exhausted the feed; and no report occurs twice. */
  lemma {:induction false} ClaimedOnce(
    feed: Feed, log: Log, claimed: set<Timestamp>, now: Timestamp, ts: seq<Timestamp>, reporter: UserId, n: nat)
    requires n <= |ts| && feed.balance > 0
    requires ClaimUpTo(feed, log, claimed, now, ts, reporter, n).Ok?
    ensures forall k :: 0 <= k < n ==> ts[k] !in claimed
    ensures forall j, k :: 0 <= j < k < n ==> ts[j] != ts[k]
    ensures forall k :: 0 <= k < n ==> ClaimUpTo(feed, log, claimed, now, ts, reporter, k).Ok?
    ensures ClaimUpTo(feed, log, claimed, now, ts, reporter, n).value == feed.balance ==>
      n > 0 && ts[n - 1] == ts[|ts| - 1]
  {
    if n > 0 {
      ClaimedOnce(feed, log, claimed, now, ts, reporter, n - 1);
      assert ts[n - 1] !in Add(claimed, ts[..n - 1]);
      forall j | 0 <= j < n - 1 ensures ts[j] != ts[n - 1] {
        assert ts[..n - 1][j] == ts[j];
      }
    }
  }

  /** While a claim has reports left, it has not exhausted the feed. */
  lemma NotExhausted(
    feed: Feed, log: Log, claimed: set<Timestamp>, now: Timestamp, ts: seq<Timestamp>, reporter: UserId, n: nat)
    requires n < |ts| && feed.balance > 0
    requires ClaimUpTo(feed, log, claimed, now, ts, reporter, |ts|).Ok?
    ensures ClaimUpTo(feed, log, claimed, now, ts, reporter, n).Ok?
    ensures ClaimUpTo(feed, log, claimed, now, ts, reporter, n).value < feed.balance
    ensures Reward(Some(feed), log, Add(claimed, ts[..n]), now, ts[n])
      == Reward(Some(feed), log, claimed, now, ts[n])
  {
    ClaimedOnce(feed, log, claimed, now, ts, reporter, |ts|);
    ClaimedOnce(feed, log, claimed, now, ts, reporter, n);
    assert ts[n] !in Add(claimed, ts[..n]);
    RewardIgnoresOthers(feed, log, claimed, Add(claimed, ts[..n]), now, ts[n]);
  }

  lemma {:induction false} ClaimSumIsView(
    feed: Feed, log: Log, claimed: set<Timestamp>, now: Timestamp, ts: seq<Timestamp>, reporter: UserId, n: nat)
    requires n <= |ts|
    requires ClaimFeed(feed, log, claimed, now, ts, reporter).Ok?
    ensures ClaimUpTo(feed, log, claimed, now, ts, reporter, n).Ok?
    ensures ClaimUpTo(feed, log, claimed, now, ts, reporter, n).value
      == Min(RewardSum(Some(feed), log, claimed, now, ts, n), feed.balance)
  {
    if n > 0 {
      NotExhausted(feed, log, claimed, now, ts, reporter, n - 1);
      if n < |ts| {
        NotExhausted(feed, log, claimed, now, ts, reporter, n);
      }
      ClaimSumIsView(feed, log, claimed, now, ts, reporter, n - 1);
    }
  }

  lemma RewardIgnoresOthers(
    feed: Feed, log: Log, claimed: set<Timestamp>, more: set<Timestamp>, now: Timestamp, t: Timestamp)
    requires t in claimed <==> t in more
    ensures Reward(Some(feed), log, more, now, t) == Reward(Some(feed), log, claimed, now, t)
  {
  }

  /** A successful claim pays the reporter exactly what the view promised beforehand. */
  lemma ClaimAgreesWithView(
    feed: Feed, log: Log, claimed: set<Timestamp>, now: Timestamp, ts: seq<Timestamp>, reporter: UserId, fee: nat)
    requires ClaimFeed(feed, log, claimed, now, ts, reporter).Ok?
    requires FeeOf(ClaimFeed(feed, log, claimed, now, ts, reporter).value, fee)
      <= ClaimFeed(feed, log, claimed, now, ts, reporter).value
    ensures var amount := ClaimFeed(feed, log, claimed, now, ts, reporter).value;
      ViewAmount(Some(feed), log, claimed, now, ts, fee) == amount - FeeOf(amount, fee)
  {
    ClaimSumIsView(feed, log, claimed, now, ts, reporter, |ts|);
  }

  // ---- runs over one feed ----

  /** A paid report is undisputed and too old to be disputed. */
  ghost predicate PaidReport(log: Log, now: Timestamp, t: Timestamp) {
    && Find(log, t).Some? && !log[Find(log, t).value].disputed
    && t + 12 * HOURS < now
  }

  ghost predicate PaidInWindow(feed: Feed, log: Log, t: Timestamp)
    requires feed.interval > 0
  {
    && Find(log, t).Some? && feed.startTime <= t
    && PrevTime(log, Find(log, t).value).GetOr(0) < IntervalStart(feed, t)
  }

  /** `byWindow` is the history of the reports that were paid by the window rule. */
  ghost predicate FeedInv(feed: Feed, log: Log, now: Timestamp, claimed: set<Timestamp>, byWindow: set<Timestamp>) {
    && WellTimed(log, now)
    && feed.interval > 0
    && byWindow <= claimed
    && (feed.priceThreshold == 0 ==> byWindow == claimed)
    && (forall t :: t in claimed ==> PaidReport(log, now, t))
    && (forall t :: t in byWindow ==> PaidInWindow(feed, log, t))
  }

  /** The reports of a successful batch that are paid by the window rule. */
  ghost function WindowClaims(feed: Feed, log: Log, ts: seq<Timestamp>): set<Timestamp>
    requires feed.interval > 0
  {
    set t | t in ts && feed.startTime <= t && Find(log, t).Some? && InWindow(feed, log, Find(log, t).value)
  }

  /** In every state of every run, at most one report per interval was ever paid by the window rule. */
  lemma OneWindowPaymentPerInterval(
    feed: Feed, log: Log, now: Timestamp, claimed: set<Timestamp>, byWindow: set<Timestamp>,
    t1: Timestamp, t2: Timestamp)
    requires FeedInv(feed, log, now, claimed, byWindow)
    requires t1 in byWindow && t2 in byWindow
    requires PaidInWindow(feed, log, t1) && PaidInWindow(feed, log, t2)
    requires IntervalStart(feed, t1) == IntervalStart(feed, t2)
    ensures t1 == t2
  {
    assert PaidReport(log, now, t1) && PaidReport(log, now, t2);
    if t1 < t2 {
      UndisputedIsBound(log, Find(log, t2).value, Find(log, t1).value);
    } else if t2 < t1 {
      UndisputedIsBound(log, Find(log, t1).value, Find(log, t2).value);
    }
  }

  /** With no price threshold, that is at most one payment per interval at all. */
  lemma OnePaymentPerIntervalWithoutThreshold(
    feed: Feed, log: Log, now: Timestamp, claimed: set<Timestamp>, byWindow: set<Timestamp>,
    t1: Timestamp, t2: Timestamp)
    requires FeedInv(feed, log, now, claimed, byWindow) && feed.priceThreshold == 0
    requires t1 in claimed && t2 in claimed
    ensures feed.startTime <= t1 && feed.startTime <= t2
    ensures IntervalStart(feed, t1) == IntervalStart(feed, t2) ==> t1 == t2
  {
    assert PaidInWindow(feed, log, t1) && PaidInWindow(feed, log, t2);
    if IntervalStart(feed, t1) == IntervalStart(feed, t2) {
      OneWindowPaymentPerInterval(feed, log, now, claimed, byWindow, t1, t2);
    }
  }

  lemma {:induction false} ClaimUpToIsRewarded(
    feed: Feed, log: Log, claimed: set<Timestamp>, now: Timestamp, ts: seq<Timestamp>, reporter: UserId, n: nat, k: nat)
    requires k < n <= |ts|
    requires ClaimUpTo(feed, log, claimed, now, ts, reporter, n).Ok?
    ensures Reward(Some(feed), log, Add(claimed, ts[..k]), now, ts[k]).Ok?
    ensures ts[k] + 12 * HOURS < now
  {
    if k < n - 1 {
      ClaimUpToIsRewarded(feed, log, claimed, now, ts, reporter, n - 1, k);
    }
  }

  lemma RewardedIsPaid(feed: Feed, log: Log, claimed: set<Timestamp>, now: Timestamp, t: Timestamp)
    requires feed.interval > 0
    requires Reward(Some(feed), log, claimed, now, t).Ok? && t + 12 * HOURS < now
    ensures PaidReport(log, now, t) && feed.startTime <= t
    ensures InWindow(feed, log, Find(log, t).value) ==> PaidInWindow(feed, log, t)
    ensures feed.priceThreshold == 0 ==> InWindow(feed, log, Find(log, t).value)
  {
  }

  lemma ClaimKeepsFeed(
    feed: Feed, log: Log, now: Timestamp, claimed: set<Timestamp>, byWindow: set<Timestamp>,
    ts: seq<Timestamp>, reporter: UserId)
    requires FeedInv(feed, log, now, claimed, byWindow)
    requires ClaimFeed(feed, log, claimed, now, ts, reporter).Ok?
    ensures FeedInv(feed, log, now, Add(claimed, ts), byWindow + WindowClaims(feed, log, ts))
  {
    forall t | t in ts
      ensures PaidReport(log, now, t)
      ensures t in WindowClaims(feed, log, ts) ==> PaidInWindow(feed, log, t)
      ensures feed.priceThreshold == 0 ==> t in WindowClaims(feed, log, ts)
    {
      var k :| 0 <= k < |ts| && ts[k] == t;
      ClaimUpToIsRewarded(feed, log, claimed, now, ts, reporter, |ts|, k);
      RewardedIsPaid(feed, log, Add(claimed, ts[..k]), now, t);
    }
  }

  lemma BalanceChangeKeepsFeed(
    feed: Feed, log: Log, now: Timestamp, now': Timestamp, claimed: set<Timestamp>, byWindow: set<Timestamp>,
    balance: nat)
    requires FeedInv(feed, log, now, claimed, byWindow) && now <= now'
    ensures FeedInv(feed.(balance := balance), log, now', claimed, byWindow)
  {
    forall t | t in claimed ensures PaidReport(log, now', t) {
      assert PaidReport(log, now, t);
    }
    forall t | t in byWindow ensures PaidInWindow(feed.(balance := balance), log, t) {
      assert PaidInWindow(feed, log, t);
    }
  }

  lemma SubmitKeepsFeed(
    feed: Feed, log: Log, now: Timestamp, claimed: set<Timestamp>, byWindow: set<Timestamp>, e: Entry)
    requires FeedInv(feed, log, now, claimed, byWindow)
    requires WellTimed(log + [e], now) && !e.disputed
    ensures FeedInv(feed, log + [e], now, claimed, byWindow)
  {
    var log' := log + [e];
    forall t | t in claimed
      ensures PaidReport(log', now, t)
      ensures t in byWindow ==> PaidInWindow(feed, log', t)
    {
      assert PaidReport(log, now, t);
      FindUnique(log', Find(log, t).value);
      PrevPrefix(log', log, Find(log, t).value);
      assert t in byWindow ==> PaidInWindow(feed, log, t);
    }
  }

  lemma DisputeKeepsFeed(
    feed: Feed, log: Log, now: Timestamp, claimed: set<Timestamp>, byWindow: set<Timestamp>, i: nat)
    requires FeedInv(feed, log, now, claimed, byWindow)
    requires i < |log| && !log[i].disputed && now - log[i].time < REPORTING_LOCK
    ensures FeedInv(feed, Dispute(log, i), now, claimed, byWindow)
  {
    var log' := Dispute(log, i);
    forall t | t in claimed
      ensures PaidReport(log', now, t)
      ensures t in byWindow ==> PaidInWindow(feed, log', t)
    {
      assert PaidReport(log, now, t);
      var j := Find(log, t).value;
      FindUnique(log', j);
      DisputeRelinks(log, i, j);
      assert t in byWindow ==> PaidInWindow(feed, log, t);
    }
  }
}
