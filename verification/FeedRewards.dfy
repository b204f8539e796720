/** What a feed pays for a report, described by the reports of its query; the functions of `Feeds` are not named
    in what is promised here. */
module FeedRewards {
  import opened Prelude
  import opened ReportLog
  import opened Feeds
  import opened Sums
  import Shares

  // ---- big-endian numbers ----

  function Pow256(n: nat): (r: nat)
    ensures r > 0
  {
    if n == 0 then 1 else 256 * Pow256(n - 1)
  }

  /** The leading bytes count for 256 per byte that follows. */
  lemma {:induction false} BigEndianConcat(a: Value, b: Value)
    ensures BigEndian(a + b) == BigEndian(a) * Pow256(|b|) + BigEndian(b)
    ensures forall x: Byte :: BigEndian([x]) == x as nat
  {
    forall x: Byte ensures BigEndian([x]) == x as nat {
      assert BigEndian([x][..0]) == 0;
    }
    if b == [] {
      assert a + b == a;
    } else {
      var n := |b| - 1;
      BigEndianConcat(a, b[..n]);
      assert (a + b)[..|a + b| - 1] == a + b[..n];
      Shifted(BigEndian(a), Pow256(n), BigEndian(b[..n]), b[n] as nat);
    }
  }

  lemma Shifted(a: nat, p: nat, r: nat, d: nat)
    ensures 256 * (a * p + r) + d == a * (256 * p) + (256 * r + d)
  {
  }

  // ---- how far a value moved ----

  /** `change` is the difference of `v1` from `v2` in hundredths of a percent, rounded down and at most 16 bits. */
  ghost predicate IsChange(change: nat, v1: nat, v2: nat) {
    if v2 == 0 then change == 10_000
    else
      var difference := 10_000 * if v1 >= v2 then v1 - v2 else v2 - v1;
      difference <= U256_MAX && Shares.Quotient(change, difference, v2, U16_MAX)
  }

  lemma ChangeIs(v1: nat, v2: nat)
    ensures PriceChange(v1, v2).Ok? ==> IsChange(PriceChange(v1, v2).value, v1, v2)
    ensures PriceChange(v1, v2).Ok? <==> exists change: nat :: IsChange(change, v1, v2)
  {
    hide Shares.Quotient;
    if v2 == 0 {
      assert IsChange(10_000, v1, v2);
    } else if PriceChange(v1, v2).Ok? {
      var difference := 10_000 * if v1 >= v2 then v1 - v2 else v2 - v1;
      Shares.QuotientIs(difference, v2, U16_MAX);
      assert PriceChange(v1, v2) == Ok(Min(Shares.FloorDiv(difference, v2), U16_MAX));
    }
  }

  lemma ChangeOnce(a: nat, b: nat, v1: nat, v2: nat)
    requires IsChange(a, v1, v2) && IsChange(b, v1, v2)
    ensures a == b
  {
    hide Shares.Quotient;
    if v2 != 0 {
      Shares.QuotientOnce(a, b, 10_000 * if v1 >= v2 then v1 - v2 else v2 - v1, v2, U16_MAX);
    }
  }

  /** `value` is the value of the latest undisputed report before report `i`, or nothing if there is none. */
  ghost predicate ComesBefore(log: Log, i: nat, value: Value)
    requires i < |log|
  {
    || (value == [] && forall k :: 0 <= k < i ==> log[k].disputed)
    || (exists j :: 0 <= j < i && LatestBefore(log, i, j) && log[j].value == value)
  }

  ghost predicate LatestBefore(log: Log, i: nat, j: nat)
    requires j < i < |log|
  {
    !log[j].disputed && forall k :: j < k < i ==> log[k].disputed
  }

  /** Report `i` has a value, and it moved by `change` from the undisputed one before it. */
  ghost predicate Moved(log: Log, i: nat, change: nat)
    requires i < |log|
  {
    && log[i].value != [] && BigEndian(log[i].value) <= U256_MAX
    && exists before: Value :: ComesBefore(log, i, before) && MovedFrom(log[i].value, before, change)
  }

  ghost predicate MovedFrom(value: Value, before: Value, change: nat) {
    BigEndian(before) <= U256_MAX && IsChange(change, BigEndian(value), BigEndian(before))
  }

  lemma BeforeIs(log: Log, i: nat, before: Value)
    requires i < |log|
    ensures ComesBefore(log, i, before) <==> before == ValueBefore(log, i)
  {
    PrevIndexGreatest(log, i);
    if PrevIndex(log, i).Some? {
      assert LatestBefore(log, i, PrevIndex(log, i).value);
    }
    if j :| 0 <= j < i && LatestBefore(log, i, j) && log[j].value == before {
      PrevIndexIs(log, i, j);
    }
  }

  /** The price move is defined exactly when both values decode and their difference does not overflow. */
  lemma MoveIs(feed: Feed, log: Log, i: nat, change: nat)
    requires i < |log| && feed.priceThreshold > 0
    ensures PriceMove(feed, log, i) == Ok(change) <==> Moved(log, i, change)
  {
    hide PrevIndex, BigEndian, IsChange, PriceChange, ComesBefore, ValueBefore;
    var v1, v2 := BigEndian(log[i].value), BigEndian(ValueBefore(log, i));
    ChangeIs(v1, v2);
    BeforeIs(log, i, ValueBefore(log, i));
    if PriceMove(feed, log, i) == Ok(change) {
      assert MovedFrom(log[i].value, ValueBefore(log, i), change);
    }
    if Moved(log, i, change) {
      var before: Value :| ComesBefore(log, i, before) && MovedFrom(log[i].value, before, change);
      BeforeIs(log, i, before);
      ChangeOnce(change, PriceChange(v1, v2).value, v1, v2);
    }
  }

  // ---- the reward of one report ----

  /** Report `i` is inside the window of the interval that starts at `c`, and no undisputed report of that
      interval came before it. An interval that starts at time zero has no window. */
  ghost predicate FirstInWindow(feed: Feed, log: Log, i: nat, c: Timestamp)
    requires i < |log|
  {
    && log[i].time - c < feed.window && 0 < c
    && forall j :: 0 <= j < i && c <= log[j].time ==> log[j].disputed
  }

  /** What the feed owes for report `i`, before its balance is looked at: in the window, the reward grows from
      the start of the interval; outside it the value must have moved by more than the threshold. */
  ghost predicate Earns(feed: Feed, log: Log, i: nat, c: Timestamp, amount: nat)
    requires i < |log| && c <= log[i].time
  {
    && (feed.priceThreshold > 0 ==> exists change: nat :: Moved(log, i, change))
    && if FirstInWindow(feed, log, i, c) then
         var growth := feed.increasePerSecond * (log[i].time - c);
         growth <= BALANCE_MAX && amount == Min(feed.reward + growth, BALANCE_MAX)
       else
         && feed.priceThreshold > 0
         && (exists change: nat :: Moved(log, i, change) && change > feed.priceThreshold)
         && amount == feed.reward
  }

  /** `amount` is due for report `i`, made at `t` in the interval `k` of the feed: undisputed, unclaimed, less
      than four weeks old. */
  ghost predicate Due(
    feed: Feed, log: Log, claimed: set<Timestamp>, now: Timestamp, t: Timestamp, i: nat, k: nat, amount: nat)
  {
    && t <= now < t + 4 * WEEKS && t !in claimed
    && i < |log| && log[i].time == t && !log[i].disputed
    && InInterval(feed, k, t)
    && exists earned: nat :: Earns(feed, log, i, Start(feed, k), earned) && amount == Min(earned, feed.balance)
  }

  /** `amount` is due for the report made at `t`. */
  ghost predicate IsDue(feed: Feed, log: Log, claimed: set<Timestamp>, now: Timestamp, t: Timestamp, amount: nat) {
    exists i: nat, k: nat :: Due(feed, log, claimed, now, t, i, k, amount)
  }

  function Start(feed: Feed, k: nat): Timestamp {
    feed.startTime + k * feed.interval
  }

  predicate InInterval(feed: Feed, k: nat, t: Timestamp) {
    Start(feed, k) <= t < Start(feed, k) + feed.interval
  }

  /** Each time from the start on lies in exactly one interval. */
  lemma IntervalIs(feed: Feed, t: Timestamp, k: nat)
    requires feed.interval > 0 && feed.startTime <= t
    ensures InInterval(feed, Shares.FloorDiv(t - feed.startTime, feed.interval), t)
    ensures InInterval(feed, k, t) ==> Start(feed, k) == IntervalStart(feed, t)
  {
    hide Shares.FloorDiv, IntervalStart;
    var n := Shares.FloorDiv(t - feed.startTime, feed.interval);
    NextStart(n, feed.interval);
    NextStart(k, feed.interval);
    Shares.FloorIs(n, t - feed.startTime, feed.interval);
    Shares.FloorIs(k, t - feed.startTime, feed.interval);
    StartIs(feed, t);
  }

  lemma NextStart(k: nat, interval: nat)
    ensures (k + 1) * interval == k * interval + interval
  {
  }

  lemma StartIs(feed: Feed, t: Timestamp)
    requires feed.interval > 0 && feed.startTime <= t
    ensures Start(feed, Shares.FloorDiv(t - feed.startTime, feed.interval)) == IntervalStart(feed, t)
  {
  }

  lemma WindowIs(feed: Feed, log: Log, i: nat)
    requires Increasing(log) && i < |log| && feed.interval > 0 && feed.startTime <= log[i].time
    ensures InWindow(feed, log, i) <==> FirstInWindow(feed, log, i, IntervalStart(feed, log[i].time))
  {
    PrevIndexGreatest(log, i);
  }

  lemma EarnsIs(feed: Feed, log: Log, i: nat, amount: nat)
    requires Increasing(log) && i < |log| && feed.interval > 0 && feed.startTime <= log[i].time
    ensures BaseReward(feed, log, i) == Ok(amount) <==>
      Earns(feed, log, i, IntervalStart(feed, log[i].time), amount)
  {
    hide PriceMove, InWindow, IntervalStart, Moved, FirstInWindow, PrevIndex;
    WindowIs(feed, log, i);
    if feed.priceThreshold > 0 {
      forall change: nat ensures PriceMove(feed, log, i) == Ok(change) <==> Moved(log, i, change) {
        MoveIs(feed, log, i, change);
      }
      if PriceMove(feed, log, i).Ok? {
        assert Moved(log, i, PriceMove(feed, log, i).value);
      }
    } else {
      NoMoveNeeded(feed, log, i);
    }
  }

  lemma NoMoveNeeded(feed: Feed, log: Log, i: nat)
    requires i < |log| && feed.priceThreshold == 0
    ensures PriceMove(feed, log, i) == Ok(0)
  {
  }

  /** A report is rewarded exactly when an amount is due for it, and then with that amount. */
  lemma RewardIffDue(
    maybe: Option<Feed>, log: Log, claimed: set<Timestamp>, now: Timestamp, t: Timestamp, amount: nat)
    requires Increasing(log)
    ensures Reward(maybe, log, claimed, now, t) == Ok(amount) <==>
      maybe.Some? && IsDue(maybe.value, log, claimed, now, t, amount)
  {
    hide Earns, BaseReward, IntervalStart, FindBelow, Start, InInterval;
    if maybe.Some? {
      var feed := maybe.value;
      if Reward(maybe, log, claimed, now, t) == Ok(amount) {
        var i := Find(log, t).value;
        var earned := BaseReward(feed, log, i).value;
        EarnsIs(feed, log, i, earned);
        var k := Shares.FloorDiv(t - feed.startTime, feed.interval);
        IntervalIs(feed, t, k);
        assert Due(feed, log, claimed, now, t, i, k, amount);
      }
      if i: nat, k: nat :| Due(feed, log, claimed, now, t, i, k, amount) {
        FindUnique(log, i);
        StartsBefore(feed, k, t);
        IntervalIs(feed, t, k);
        var earned: nat :| Earns(feed, log, i, Start(feed, k), earned) && amount == Min(earned, feed.balance);
        EarnsIs(feed, log, i, earned);
      }
    }
  }

  lemma StartsBefore(feed: Feed, k: nat, t: Timestamp)
    requires InInterval(feed, k, t)
    ensures feed.interval > 0 && feed.startTime <= t
  {
  }

  // ---- a batch of claims ----

  /** `amount` is due to `who`, the reporter of the report at `t`, after the buffer time. */
  ghost predicate DueTo(
    feed: Feed, log: Log, claimed: set<Timestamp>, now: Timestamp, who: UserId, t: Timestamp, amount: nat)
  {
    && t + 12 * HOURS < now
    && exists i: nat, k: nat :: Due(feed, log, claimed, now, t, i, k, amount) && log[i].reporter == who
  }

  /** The first reports of a batch, each claimed once, and what is due for each. */
  ghost predicate AllDueTo(
    feed: Feed, log: Log, claimed: set<Timestamp>, now: Timestamp, who: UserId, ts: seq<Timestamp>, amounts: seq<nat>)
  {
    && |amounts| <= |ts|
    && (forall i, j :: 0 <= i < j < |amounts| ==> ts[i] != ts[j])
    && forall n :: 0 <= n < |amounts| ==> DueTo(feed, log, claimed, now, who, ts[n], amounts[n])
  }

  lemma OwnRewardIffDue(
    feed: Feed, log: Log, claimed: set<Timestamp>, now: Timestamp, who: UserId, t: Timestamp, amount: nat)
    requires Increasing(log)
    ensures OwnReward(feed, log, claimed, now, t, who) == Ok(amount) <==> DueTo(feed, log, claimed, now, who, t, amount)
  {
    hide Reward, FindBelow, Earns, Start, InInterval;
    RewardIffDue(Some(feed), log, claimed, now, t, amount);
    forall i: nat | i < |log| && log[i].time == t ensures Find(log, t) == Some(i) {
      FindUnique(log, i);
    }
  }

  lemma OwnRewardIgnoresOthers(
    feed: Feed, log: Log, claimed: set<Timestamp>, ts: seq<Timestamp>, now: Timestamp, who: UserId, t: Timestamp)
    requires t !in ts
    ensures OwnReward(feed, log, Add(claimed, ts), now, t, who) == OwnReward(feed, log, claimed, now, t, who)
  {
    hide Reward, FindBelow;
    RewardIgnoresOthers(feed, log, claimed, Add(claimed, ts), now, t);
  }

  /** A successful claim pays the sum of what is due for its reports, each claimed once by its reporter, up to
      the feed's balance, which all but the last leave unexhausted. */
  lemma {:induction false} ClaimPaysDue(
    feed: Feed, log: Log, claimed: set<Timestamp>, now: Timestamp, ts: seq<Timestamp>, who: UserId, n: nat)
    requires Increasing(log) && n <= |ts| && feed.balance > 0
    requires ClaimUpTo(feed, log, claimed, now, ts, who, n).Ok?
    ensures exists amounts: seq<nat> ::
      && AllDueTo(feed, log, claimed, now, who, ts, amounts) && |amounts| == n
      && ClaimUpTo(feed, log, claimed, now, ts, who, n).value == Min(SumAll(amounts), feed.balance)
      && (n > 0 ==> SumAll(amounts[..n - 1]) < feed.balance)
  {
    hide OwnReward, DueTo, Add;
    if n == 0 {
      assert AllDueTo(feed, log, claimed, now, who, ts, []) && SumAll([]) == 0;
    } else {
      ClaimPaysDue(feed, log, claimed, now, ts, who, n - 1);
      var before: seq<nat> :| AllDueTo(feed, log, claimed, now, who, ts, before) && |before| == n - 1
        && ClaimUpTo(feed, log, claimed, now, ts, who, n - 1).value == Min(SumAll(before), feed.balance);
      var amount := OneMoreDue(feed, log, claimed, now, ts, who, n, before);
      hide ClaimUpTo, AllDueTo;
      assert (before + [amount])[..n - 1] == before;
    }
  }

  /** The last report so far of a claim that succeeds. */
  lemma OneMoreDue(
    feed: Feed, log: Log, claimed: set<Timestamp>, now: Timestamp, ts: seq<Timestamp>, who: UserId, n: nat,
    before: seq<nat>) returns (amount: nat)
    requires Increasing(log) && 0 < n <= |ts| && feed.balance > 0
    requires ClaimUpTo(feed, log, claimed, now, ts, who, n).Ok?
    requires AllDueTo(feed, log, claimed, now, who, ts, before) && |before| == n - 1
    requires ClaimUpTo(feed, log, claimed, now, ts, who, n - 1) == Ok(Min(SumAll(before), feed.balance))
    ensures AllDueTo(feed, log, claimed, now, who, ts, before + [amount])
    ensures SumAll(before) < feed.balance
    ensures ClaimUpTo(feed, log, claimed, now, ts, who, n).value == Min(SumAll(before) + amount, feed.balance)
  {
    hide OwnReward, DueTo, Add, SumAll, ClaimUpTo;
    LastIsNew(feed, log, claimed, now, ts, who, n);
    OwnRewardIgnoresOthers(feed, log, claimed, ts[..n - 1], now, who, ts[n - 1]);
    amount := OwnReward(feed, log, claimed, now, ts[n - 1], who).value;
    OwnRewardIffDue(feed, log, claimed, now, who, ts[n - 1], amount);
  }

  lemma LastIsNew(
    feed: Feed, log: Log, claimed: set<Timestamp>, now: Timestamp, ts: seq<Timestamp>, who: UserId, n: nat)
    requires 0 < n <= |ts| && feed.balance > 0
    requires ClaimUpTo(feed, log, claimed, now, ts, who, n).Ok?
    ensures forall k :: 0 <= k < n - 1 ==> ts[k] != ts[n - 1]
    ensures ClaimUpTo(feed, log, claimed, now, ts, who, n - 1).Ok?
    ensures ClaimUpTo(feed, log, claimed, now, ts, who, n - 1).value < feed.balance
    ensures var own := OwnReward(feed, log, Add(claimed, ts[..n - 1]), now, ts[n - 1], who);
      && own.Ok?
      && ClaimUpTo(feed, log, claimed, now, ts, who, n).value ==
           Min(ClaimUpTo(feed, log, claimed, now, ts, who, n - 1).value + own.value, feed.balance)
  {
    hide OwnReward, Add;
    ClaimedOnce(feed, log, claimed, now, ts, who, n);
    ClaimedOnce(feed, log, claimed, now, ts, who, n - 1);
  }

  /** Conversely, when each report of a batch is due to its reporter and all but the last leave the feed
      unexhausted, the claim succeeds. */
  lemma {:induction false} DueIsPaid(
    feed: Feed, log: Log, claimed: set<Timestamp>, now: Timestamp, ts: seq<Timestamp>, who: UserId, n: nat,
    amounts: seq<nat>)
    requires Increasing(log) && n <= |ts| && feed.balance > 0
    requires AllDueTo(feed, log, claimed, now, who, ts, amounts) && |amounts| == n
    requires n > 0 ==> SumAll(amounts[..n - 1]) < feed.balance
    requires n < |ts| ==> SumAll(amounts) < feed.balance
    ensures ClaimUpTo(feed, log, claimed, now, ts, who, n) == Ok(Min(SumAll(amounts), feed.balance))
  {
    hide ClaimUpTo, AllDueTo;
    if n == 0 {
      NothingClaimed(feed, log, claimed, now, ts, who);
    } else {
      var before := amounts[..n - 1];
      AllButLast(feed, log, claimed, now, ts, who, amounts);
      if n > 1 {
        SumPrefix(before, n - 2);
      }
      DueIsPaid(feed, log, claimed, now, ts, who, n - 1, before);
      OneMorePaid(feed, log, claimed, now, ts, who, n, amounts);
    }
  }

  lemma NothingClaimed(
    feed: Feed, log: Log, claimed: set<Timestamp>, now: Timestamp, ts: seq<Timestamp>, who: UserId)
    ensures ClaimUpTo(feed, log, claimed, now, ts, who, 0) == Ok(0)
  {
  }

  lemma AllButLast(
    feed: Feed, log: Log, claimed: set<Timestamp>, now: Timestamp, ts: seq<Timestamp>, who: UserId, amounts: seq<nat>)
    requires amounts != [] && AllDueTo(feed, log, claimed, now, who, ts, amounts)
    ensures AllDueTo(feed, log, claimed, now, who, ts, amounts[..|amounts| - 1])
  {
    hide DueTo;
  }

  lemma OneMorePaid(
    feed: Feed, log: Log, claimed: set<Timestamp>, now: Timestamp, ts: seq<Timestamp>, who: UserId, n: nat,
    amounts: seq<nat>)
    requires Increasing(log) && 0 < n <= |ts|
    requires AllDueTo(feed, log, claimed, now, who, ts, amounts) && |amounts| == n
    requires n < |ts| ==> SumAll(amounts) < feed.balance
    requires SumAll(amounts[..n - 1]) < feed.balance
    requires ClaimUpTo(feed, log, claimed, now, ts, who, n - 1) == Ok(SumAll(amounts[..n - 1]))
    ensures ClaimUpTo(feed, log, claimed, now, ts, who, n) == Ok(Min(SumAll(amounts), feed.balance))
  {
    hide OwnReward, DueTo, Add;
    assert ts[n - 1] !in ts[..n - 1];
    OwnRewardIgnoresOthers(feed, log, claimed, ts[..n - 1], now, who, ts[n - 1]);
    OwnRewardIffDue(feed, log, claimed, now, who, ts[n - 1], amounts[n - 1]);
  }

  lemma SumPrefix(a: seq<nat>, n: nat)
    requires n + 1 == |a|
    ensures SumAll(a[..n]) <= SumAll(a)
  {
  }

  // ---- the view ----

  /** `fee` is `rate` thousandths of `amount`, rounded down. */
  predicate IsFee(rate: nat, amount: nat, fee: nat) {
    fee * 1_000 <= amount * rate < (fee + 1) * 1_000
  }

  lemma FeeIs(rate: nat, amount: nat, fee: nat)
    ensures IsFee(rate, amount, fee) <==> fee == FeeOf(amount, rate)
  {
  }

  /** What each report of the batch would be rewarded with, nothing where nothing is due. */
  ghost predicate AllCounted(
    feed: Feed, log: Log, claimed: set<Timestamp>, now: Timestamp, ts: seq<Timestamp>, amounts: seq<nat>)
  {
    && |amounts| == |ts|
    && forall n :: 0 <= n < |ts| ==> Counted(feed, log, claimed, now, ts[n], amounts[n])
  }

  ghost predicate Counted(feed: Feed, log: Log, claimed: set<Timestamp>, now: Timestamp, t: Timestamp, amount: nat) {
    if exists due: nat :: IsDue(feed, log, claimed, now, t, due) then IsDue(feed, log, claimed, now, t, amount)
    else amount == 0
  }

  lemma {:induction false} SumIsCounted(
    feed: Feed, log: Log, claimed: set<Timestamp>, now: Timestamp, ts: seq<Timestamp>, n: nat)
    requires Increasing(log) && n <= |ts|
    ensures exists amounts: seq<nat> ::
      AllCounted(feed, log, claimed, now, ts[..n], amounts)
      && SumAll(amounts) == RewardSum(Some(feed), log, claimed, now, ts, n)
  {
    hide Reward, Counted;
    if n == 0 {
      assert AllCounted(feed, log, claimed, now, ts[..0], []) && SumAll([]) == 0;
    } else {
      SumIsCounted(feed, log, claimed, now, ts, n - 1);
      var before: seq<nat> :| AllCounted(feed, log, claimed, now, ts[..n - 1], before)
        && SumAll(before) == RewardSum(Some(feed), log, claimed, now, ts, n - 1);
      var r := Reward(Some(feed), log, claimed, now, ts[n - 1]);
      var amount := if r.Ok? then r.value else 0;
      RewardIsCounted(feed, log, claimed, now, ts[n - 1]);
      var amounts := before + [amount];
      assert amounts[..n - 1] == before;
      assert AllCounted(feed, log, claimed, now, ts[..n], amounts);
    }
  }

  lemma RewardIsCounted(feed: Feed, log: Log, claimed: set<Timestamp>, now: Timestamp, t: Timestamp)
    requires Increasing(log)
    ensures var r := Reward(Some(feed), log, claimed, now, t);
      Counted(feed, log, claimed, now, t, if r.Ok? then r.value else 0)
  {
    hide Reward, IsDue;
    forall amount: nat
      ensures Reward(Some(feed), log, claimed, now, t) == Ok(amount) <==> IsDue(feed, log, claimed, now, t, amount)
    {
      RewardIffDue(Some(feed), log, claimed, now, t, amount);
    }
    assert Reward(Some(feed), log, claimed, now, t).Ok? ==>
      IsDue(feed, log, claimed, now, t, Reward(Some(feed), log, claimed, now, t).value);
  }

  /** The view returns `amount` for the batch: the sum, as far as the feed goes, less the fee. */
  ghost predicate Viewed(
    feed: Feed, log: Log, claimed: set<Timestamp>, now: Timestamp, ts: seq<Timestamp>, rate: nat, amount: nat)
  {
    exists amounts: seq<nat>, fee: nat ::
      && AllCounted(feed, log, claimed, now, ts, amounts)
      && IsFee(rate, Min(SumAll(amounts), feed.balance), fee)
      && amount == SatSub(Min(SumAll(amounts), feed.balance), fee)
  }

  lemma ViewIs(feed: Feed, log: Log, claimed: set<Timestamp>, now: Timestamp, ts: seq<Timestamp>, rate: nat)
    requires Increasing(log)
    ensures Viewed(feed, log, claimed, now, ts, rate, ViewAmount(Some(feed), log, claimed, now, ts, rate))
  {
    hide AllCounted, RewardSum, FeeOf, IsFee;
    SumIsCounted(feed, log, claimed, now, ts, |ts|);
    assert ts[..|ts|] == ts;
    var amounts: seq<nat> :| AllCounted(feed, log, claimed, now, ts, amounts)
      && SumAll(amounts) == RewardSum(Some(feed), log, claimed, now, ts, |ts|);
    var total := Min(SumAll(amounts), feed.balance);
    FeeIs(rate, total, FeeOf(total, rate));
  }
}
