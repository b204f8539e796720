/** One data feed, updated in place; `Feeds` says what each call computes. */
module FeedStore {
  import opened Prelude
  import opened ReportLog
  import opened Feeds
  import FR = FeedRewards
  import O = Oracle
  import P = Pallet
  import St = StakingStore
  import opened Sums
  import Tips = TipStore

  class FeedStore {
    const oracle: O.Oracle
    const staking: St.StakingStore
    const totals: Tips.TipTotals
    var feed: Option<Feed>
    var claimed: set<Timestamp>
    var funded: bool

    /** The reports that were paid by the window rule. */
    ghost var byWindow: set<Timestamp>

    constructor (oracle: O.Oracle, staking: St.StakingStore, totals: Tips.TipTotals, ghost now: Timestamp)
      requires oracle.Valid() && WellTimed(oracle.log, now)
      ensures Valid(now)
      ensures feed.None? && claimed == {} && !funded
      ensures this.oracle == oracle && this.staking == staking && this.totals == totals
    {
      this.oracle, this.staking, this.totals := oracle, staking, totals;
      feed, claimed, funded, byWindow := None, {}, false, {};
    }

    /** The feed's claims are settled, with one per interval by the window rule, and the feed is listed as
        funded exactly while its balance is positive. */
    ghost predicate Valid(now: Timestamp)
      reads this, oracle
    {
      && oracle.Valid() && WellTimed(oracle.log, now)
      && (feed.None? ==> claimed == {} && byWindow == {} && !funded)
      && (feed.Some? ==>
            && FeedInv(feed.value, oracle.log, now, claimed, byWindow)
            && (funded <==> feed.value.balance > 0))
    }

    /** Creates the feed and funds it if an amount is given. */
    method SetupDataFeed(creator: UserId, f: P.FeedId, amount: nat, ghost now: Timestamp) returns (r: Result<()>)
      requires Valid(now)
      modifies this, staking.ledger, totals
      ensures Valid(now) && byWindow == old(byWindow)
      ensures r ==
        if old(feed).Some? then Err(FeedAlreadyExists)
        else if f.reward == 0 then Err(InvalidReward)
        else if f.interval == 0 then Err(InvalidInterval)
        else if f.window >= f.interval then Err(InvalidWindow)
        else if Balance(old(staking.ledger.balances), User(creator)) < amount then Err(FundsUnavailable)
        else Ok(())
      ensures r.Ok? ==>
        && feed == Some(Feed(
             f.reward, amount, f.startTime, f.interval, f.window, f.priceThreshold, f.increasePerSecond))
        && claimed == old(claimed) && funded == (old(funded) || amount > 0)
      ensures r.Ok? && amount > 0 ==>
        && Transfer(old(staking.ledger.balances), User(creator), TipsAccount, amount) == Ok(staking.ledger.balances)
        && totals.byUser == Tips.Credited(old(totals.byUser), creator, amount)
      ensures r.Ok? && amount == 0 ==>
        totals.byUser == old(totals.byUser) && staking.ledger.balances == old(staking.ledger.balances)
      ensures r.Err? ==>
        && feed == old(feed) && claimed == old(claimed) && funded == old(funded)
        && staking.ledger.balances == old(staking.ledger.balances) && totals.byUser == old(totals.byUser)
    {
      hide Transfer, Balance, Tips.Credited;
      if feed.Some? {
        return Err(FeedAlreadyExists);
      }
      if f.reward == 0 {
        return Err(InvalidReward);
      }
      if f.interval == 0 {
        return Err(InvalidInterval);
      }
      if f.window >= f.interval {
        return Err(InvalidWindow);
      }
      feed := Some(Feed(f.reward, 0, f.startTime, f.interval, f.window, f.priceThreshold, f.increasePerSecond));
      r := Ok(());
      if amount > 0 {
        r := FundFeed(creator, amount, now);
        if r.Err? {
          feed := None; // rolled back
        }
      }
    }

    method FundFeed(funder: UserId, amount: nat, ghost now: Timestamp) returns (r: Result<()>)
      requires Valid(now)
      modifies this, staking.ledger, totals
      ensures Valid(now) && byWindow == old(byWindow)
      ensures r ==
        if old(feed).None? then Err(InvalidFeed)
        else if amount == 0 then Err(InvalidAmount)
        else if Balance(old(staking.ledger.balances), User(funder)) < amount then Err(FundsUnavailable)
        else Ok(())
      ensures claimed == old(claimed)
      ensures r.Ok? ==>
        && feed == Some(old(feed).value.(balance := old(feed).value.balance + amount)) && funded
        && Transfer(old(staking.ledger.balances), User(funder), TipsAccount, amount) == Ok(staking.ledger.balances)
        && totals.byUser == Tips.Credited(old(totals.byUser), funder, amount)
      ensures r.Err? ==>
        && feed == old(feed) && funded == old(funded)
        && staking.ledger.balances == old(staking.ledger.balances) && totals.byUser == old(totals.byUser)
    {
      hide Transfer, Balance, Tips.Credited;
      if feed.None? {
        return Err(InvalidFeed);
      }
      if amount == 0 {
        return Err(InvalidAmount);
      }
      var updated := feed.value.(balance := feed.value.balance + amount);
      var paid := totals.Collect(staking.ledger, funder, amount);
      if !paid {
        return Err(FundsUnavailable);
      }
      funded := true;
      feed := Some(updated);
      r := Ok(());
    }

    /** The value change from the previous undisputed report, in hundredths of a percent. */
    method GetPriceChange(report: O.Report, timestamp: Timestamp, threshold: nat, ghost feed: Feed)
      returns (r: Result<nat>)
      requires oracle.Valid() && WellFounded(oracle.log)
      requires threshold == feed.priceThreshold
      requires report.index < |oracle.log| && oracle.log[report.index].time == timestamp
      requires !oracle.log[report.index].disputed && report.previous == PrevTime(oracle.log, report.index)
      ensures r == PriceMove(feed, oracle.log, report.index)
      ensures threshold > 0 ==> forall change: nat :: r == Ok(change) <==> FR.Moved(oracle.log, report.index, change)
    {
      hide O.Represents, O.Stored, FindBelow, PrevIndex, BigEndian, PriceChange, FR.Moved;
      if threshold > 0 {
        forall change: nat ensures PriceMove(feed, oracle.log, report.index) == Ok(change) <==>
          FR.Moved(oracle.log, report.index, change) {
          FR.MoveIs(feed, oracle.log, report.index, change);
        }
      }
      if threshold == 0 {
        return Ok(0);
      }
      oracle.At(report.index);
      var value := oracle.values[timestamp];
      if |value| == 0 {
        return Err(InvalidValue);
      }
      var v1 := BytesToU256(value);
      if v1.None? {
        return Err(ValueConversionError);
      }
      var before := ReadBefore(report);
      var v2 := BytesToU256(before);
      if v2.None? {
        return Err(ValueConversionError);
      }
      r := RelativeChange(v1.value, v2.value);
    }

    static method RelativeChange(v1: nat, v2: nat) returns (r: Result<nat>)
      ensures r == PriceChange(v1, v2)
    {
      if v2 == 0 {
        return Ok(10_000);
      }
      var diff;
      if v1 >= v2 {
        diff := v1 - v2;
      } else {
        diff := v2 - v1;
      }
      var change := 10_000 * diff;
      if change > U256_MAX {
        return Err(Overflow);
      }
      r := Ok(Min(change / v2, U16_MAX));
    }

    /** The value at the previous link, or nothing; no value is ever stored at time zero. */
    method ReadBefore(report: O.Report) returns (value: Value)
      requires oracle.Valid() && WellFounded(oracle.log)
      requires report.index < |oracle.log| && report.previous == PrevTime(oracle.log, report.index)
      ensures value == ValueBefore(oracle.log, report.index)
    {
      hide O.Stored, FindBelow, PrevIndex;
      var timestampBefore := report.previous.GetOr(0);
      if report.previous.Some? {
        oracle.At(PrevIndex(oracle.log, report.index).value);
      } else {
        oracle.FindReport(timestampBefore);
        assert timestampBefore !in oracle.reports;
      }
      value := if timestampBefore in oracle.values then oracle.values[timestampBefore] else [];
    }

    /** The potential reward of one report. */
    method DoGetRewardAmount(now: Timestamp, timestamp: Timestamp) returns (r: Result<nat>)
      requires oracle.Valid() && WellFounded(oracle.log)
      ensures r == Reward(feed, oracle.log, claimed, now, timestamp)
      ensures forall amount: nat :: r == Ok(amount) <==>
        feed.Some? && FR.IsDue(feed.value, oracle.log, claimed, now, timestamp, amount)
    {
      hide O.Represents, O.Stored, FindBelow, PrevIndex, BigEndian, PriceMove, FR.IsDue, FR.Moved;
      forall amount: nat ensures Reward(feed, oracle.log, claimed, now, timestamp) == Ok(amount) <==>
        feed.Some? && FR.IsDue(feed.value, oracle.log, claimed, now, timestamp, amount) {
        FR.RewardIffDue(feed, oracle.log, claimed, now, timestamp, amount);
      }
      if now < timestamp {
        return Err(Underflow);
      }
      if now - timestamp >= 4 * WEEKS {
        return Err(ClaimPeriodExpired);
      }
      if feed.None? {
        return Err(InvalidFeed);
      }
      var f := feed.value;
      if timestamp in claimed {
        return Err(TipAlreadyClaimed);
      }
      if timestamp < f.startTime {
        return Err(Underflow);
      }
      if f.interval == 0 {
        return Err(DivisionByZero);
      }
      var n := (timestamp - f.startTime) / f.interval;
      var c := f.startTime + f.interval * n;
      assert c == IntervalStart(f, timestamp);
      oracle.FindReport(timestamp);
      if timestamp !in oracle.reports {
        return Err(InvalidTimestamp);
      }
      var report := oracle.reports[timestamp];
      oracle.At(report.index);
      if report.isDisputed {
        return Err(ValueDisputed);
      }
      var timestampBefore := report.previous.GetOr(0);
      var change := GetPriceChange(report, timestamp, f.priceThreshold, f);
      if change.Err? {
        return Err(change.error);
      }
      var amount := f.reward;
      var timeDiff := timestamp - c;
      if timeDiff < f.window && timestampBefore < c {
        var extra := f.increasePerSecond * timeDiff;
        if extra > BALANCE_MAX {
          return Err(Overflow);
        }
        amount := Min(amount + extra, BALANCE_MAX);
      } else if change.value <= f.priceThreshold {
        return Err(PriceThresholdNotMet);
      }
      if f.balance < amount {
        amount := f.balance;
      }
      r := Ok(amount);
    }

    /** Claims the rewards of a batch of reports, pays the reporter, and passes the fee on to the stakers. */
    method ClaimTip(cfg: P.Config, now: Timestamp, reporter: UserId, timestamps: seq<Timestamp>)
      returns (r: Result<nat>)
      requires Valid(now) && staking.Valid(now)
      modifies this, staking, staking.ledger
      ensures Valid(now) && staking.Valid(now)
      ensures old(feed).None? ==> r == Err(InvalidFeed)
      ensures old(feed).Some? ==>
        var spec := P.ClaimedRewards(cfg, old(feed).value, oracle.log, old(claimed), old(staking.Contents()),
          old(staking.ledger.balances), now, reporter, timestamps);
        && (spec.Err? ==> r == Err(spec.error))
        && (spec.Ok? ==> r.Ok? && (r.value, staking.Contents(), staking.ledger.balances) == spec.value)
      ensures r.Ok? ==>
        && feed == Some(old(feed).value.(balance := old(feed).value.balance - r.value))
        && claimed == Add(old(claimed), timestamps)
        && funded == (old(funded) && feed.value.balance > 0)
      ensures r.Ok? ==> exists amounts: seq<nat> ::
        && FR.AllDueTo(old(feed).value, oracle.log, old(claimed), now, reporter, timestamps, amounts)
        && |amounts| == |timestamps| && r.value == Min(SumAll(amounts), old(feed).value.balance)
      ensures r.Err? ==>
        && feed == old(feed) && claimed == old(claimed) && funded == old(funded)
        && staking.Contents() == old(staking.Contents()) && staking.ledger.balances == old(staking.ledger.balances)
    {
      hide O.Represents, ClaimUpTo, Add, St.StakingStore.Contents, St.StakingStore.Valid, P.PayClaim, FR.AllDueTo;
      if feed.None? {
        return Err(InvalidFeed);
      }
      if feed.value.balance == 0 {
        return Err(InsufficientFeedBalance);
      }
      var claimed0, funded0 := claimed, funded;
      r := ClaimBatch(now, reporter, timestamps, feed.value);
      if r.Err? {
        claimed, funded := claimed0, funded0; // rolled back
        return;
      }
      var paid := Tips.PayReporter(cfg, staking, now, reporter, r.value);
      if paid.Err? {
        claimed, funded := claimed0, funded0;
        return Err(paid.error);
      }
      FR.ClaimPaysDue(feed.value, oracle.log, claimed0, now, timestamps, reporter, |timestamps|);
      PaidKeepsFeed(feed.value, oracle.log, now, claimed0, byWindow, timestamps, reporter, r.value);
      byWindow := byWindow + WindowClaims(feed.value, oracle.log, timestamps);
      feed := Some(feed.value.(balance := feed.value.balance - r.value));
    }

    /** The loop of a claim: the cumulative reward, capped at the balance by the last report only. */
    method ClaimBatch(now: Timestamp, reporter: UserId, timestamps: seq<Timestamp>, f: Feed) returns (r: Result<nat>)
      requires oracle.Valid() && WellFounded(oracle.log)
      requires feed == Some(f) && f.balance > 0
      modifies `claimed, `funded
      ensures r == ClaimUpTo(f, oracle.log, old(claimed), now, timestamps, reporter, |timestamps|)
      ensures r.Ok? ==> claimed == Add(old(claimed), timestamps)
      ensures r.Ok? ==> funded == (old(funded) && r.value < f.balance)
    {
      hide O.Represents, OwnReward, ClaimUpTo, Add, FR.DueTo;
      var cumulative := 0;
      ClaimOfNothing(f, oracle.log, claimed, now, timestamps, reporter);
      for i := 0 to |timestamps|
        invariant claimed == Add(old(claimed), timestamps[..i])
        invariant ClaimUpTo(f, oracle.log, old(claimed), now, timestamps, reporter, i) == Ok(cumulative)
        invariant funded == (old(funded) && cumulative < f.balance)
      {
        var t := timestamps[i];
        ClaimStep(f, oracle.log, old(claimed), now, timestamps, reporter, i, cumulative);
        AddOne(old(claimed), timestamps, i);
        var amount := GetOwnReward(now, t, reporter, f);
        if amount.Err? {
          return Err(amount.error);
        }
        cumulative := cumulative + amount.value;
        if cumulative >= f.balance {
          if t != timestamps[|timestamps| - 1] {
            return Err(InsufficientFeedBalance);
          }
          cumulative := f.balance;
          funded := false;
        }
        claimed := claimed + {t};
      }
      assert timestamps[..|timestamps|] == timestamps;
      r := Ok(cumulative);
    }

    method GetOwnReward(now: Timestamp, t: Timestamp, reporter: UserId, f: Feed) returns (r: Result<nat>)
      requires oracle.Valid() && WellFounded(oracle.log) && feed == Some(f)
      ensures r == OwnReward(f, oracle.log, claimed, now, t, reporter)
      ensures forall amount: nat :: r == Ok(amount) <==> FR.DueTo(f, oracle.log, claimed, now, reporter, t, amount)
    {
      hide O.Represents, O.Stored, FindBelow, Reward, FR.DueTo, FR.IsDue;
      forall amount: nat ensures OwnReward(f, oracle.log, claimed, now, t, reporter) == Ok(amount) <==>
        FR.DueTo(f, oracle.log, claimed, now, reporter, t, amount) {
        FR.OwnRewardIffDue(f, oracle.log, claimed, now, reporter, t, amount);
      }
      if now < t {
        return Err(Underflow);
      }
      if now - t <= 12 * HOURS {
        return Err(ClaimBufferNotPassed);
      }
      oracle.FindReport(t);
      if t !in oracle.reports {
        return Err(InvalidClaimer);
      }
      oracle.At(oracle.reports[t].index);
      if oracle.reports[t].reporter != reporter {
        return Err(InvalidClaimer);
      }
      r := DoGetRewardAmount(now, t);
    }

    /** The read-only view of a claim's reward, failed reports and surplus ones counting nothing. */
    method GetRewardAmount(cfg: P.Config, now: Timestamp, timestamps: seq<Timestamp>) returns (r: nat)
      requires Valid(now)
      ensures r == ViewAmount(
        feed, oracle.log, claimed, now, timestamps[..Min(cfg.maxClaims, |timestamps|)], cfg.fee)
      ensures feed.None? ==> r == 0
      ensures feed.Some? ==> FR.Viewed(
        feed.value, oracle.log, claimed, now, timestamps[..Min(cfg.maxClaims, |timestamps|)], cfg.fee, r)
    {
      hide O.Represents, Reward, FR.Viewed, FR.IsDue;
      if feed.None? {
        return 0;
      }
      FR.ViewIs(feed.value, oracle.log, claimed, now, timestamps[..Min(cfg.maxClaims, |timestamps|)], cfg.fee);
      var cumulative := 0;
      var taken := timestamps[..Min(cfg.maxClaims, |timestamps|)];
      for i := 0 to |taken|
        invariant cumulative == RewardSum(feed, oracle.log, claimed, now, taken, i)
      {
        var amount := DoGetRewardAmount(now, taken[i]);
        if amount.Ok? {
          cumulative := cumulative + amount.value;
        }
      }
      if cumulative > feed.value.balance {
        cumulative := feed.value.balance;
      }
      r := SatSub(cumulative, cumulative * cfg.fee / 1_000);
    }
  }

  /** Paying a claim keeps the feed's invariant. */
  lemma PaidKeepsFeed(
    feed: Feed, log: Log, now: Timestamp, claimed: set<Timestamp>, byWindow: set<Timestamp>, ts: seq<Timestamp>,
    reporter: UserId, amount: nat)
    requires FeedInv(feed, log, now, claimed, byWindow)
    requires ClaimFeed(feed, log, claimed, now, ts, reporter) == Ok(amount)
    ensures feed.interval > 0
    ensures FeedInv(feed.(balance := feed.balance - amount), log, now, Add(claimed, ts),
      byWindow + WindowClaims(feed, log, ts))
  {
    ClaimKeepsFeed(feed, log, now, claimed, byWindow, ts, reporter);
    BalanceChangeKeepsFeed(feed, log, now, now, Add(claimed, ts), byWindow + WindowClaims(feed, log, ts),
      feed.balance - amount);
  }

  lemma ClaimOfNothing(
    feed: Feed, log: Log, claimed: set<Timestamp>, now: Timestamp, ts: seq<Timestamp>, reporter: UserId)
    ensures ClaimUpTo(feed, log, claimed, now, ts, reporter, 0) == Ok(0) && Add(claimed, ts[..0]) == claimed
  {
  }

  /** One more report of a claim; a failure is the failure of the whole claim. */
  lemma ClaimStep(
    feed: Feed, log: Log, claimed: set<Timestamp>, now: Timestamp, ts: seq<Timestamp>, reporter: UserId, i: nat,
    sum: nat)
    requires i < |ts| && ClaimUpTo(feed, log, claimed, now, ts, reporter, i) == Ok(sum)
    ensures var next := ClaimUpTo(feed, log, claimed, now, ts, reporter, i + 1);
      var own := OwnReward(feed, log, Add(claimed, ts[..i]), now, ts[i], reporter);
      && next == (if own.Err? then Err(own.error)
                  else if sum + own.value < feed.balance then Ok(sum + own.value)
                  else if ts[i] != ts[|ts| - 1] then Err(InsufficientFeedBalance)
                  else Ok(feed.balance))
      && (next.Err? ==> ClaimUpTo(feed, log, claimed, now, ts, reporter, |ts|) == next)
  {
    hide OwnReward, Add;
    ClaimUpToFails(feed, log, claimed, now, ts, reporter, i + 1, |ts|);
  }

  lemma AddOne(claimed: set<Timestamp>, ts: seq<Timestamp>, i: nat)
    requires i < |ts|
    ensures Add(claimed, ts[..i + 1]) == Add(claimed, ts[..i]) + {ts[i]}
  {
    assert ts[..i + 1] == ts[..i] + [ts[i]];
  }

  /** The first failing report fails the batch. */
  lemma {:induction false} ClaimUpToFails(
    feed: Feed, log: Log, claimed: set<Timestamp>, now: Timestamp, ts: seq<Timestamp>, reporter: UserId, n: nat, m: nat)
    requires n <= m <= |ts|
    ensures ClaimUpTo(feed, log, claimed, now, ts, reporter, n).Err? ==>
      ClaimUpTo(feed, log, claimed, now, ts, reporter, m) == ClaimUpTo(feed, log, claimed, now, ts, reporter, n)
  {
    if n < m {
      ClaimUpToFails(feed, log, claimed, now, ts, reporter, n, m - 1);
    }
  }

  /** No report was made at time zero. */
  ghost predicate WellFounded(log: Log) {
    forall i :: 0 <= i < |log| ==> log[i].time > 0
  }
}
