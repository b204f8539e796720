/** When tips and feed rewards can be given and claimed and what the calls change, described by the storage alone. */
module PaymentTerms {
  import opened Prelude
  import opened Guarantees
  import opened Invariant
  import opened Pallet
  import opened StakeTerms
  import opened Sums
  import B = TipBook
  import F = Feeds
  import FR = FeedRewards
  import L = ReportLog
  import Rewards
  import S = Staking
  import Solvency
  import T = TipHistory
  import TC = TipClaims

  // ---- paying a claim ----

  /** The fee is at most the amount, and adding it to the staking rewards goes through. */
  ghost predicate CanPay(cfg: Config, s: State, amount: nat) {
    exists fee: nat ::
      && FR.IsFee(cfg.fee, amount, fee) && fee <= amount
      && Rewards.CanAdd(s.staking, Balance(s.balances, StakingAccount) + fee, s.now)
  }

  /** `amount` leaves the tips account: the fee for the staking rewards, and the rest for `who`. */
  ghost predicate ClaimPaid(cfg: Config, s: State, s': State, who: UserId, amount: nat) {
    exists fee: nat :: FR.IsFee(cfg.fee, amount, fee) && fee <= amount && PaidWithFee(s, s', who, amount, fee)
  }

  ghost predicate PaidWithFee(s: State, s': State, who: UserId, amount: nat, fee: nat) {
    var st, st', funds := s.staking, s'.staking, Balance(s.balances, StakingAccount) + fee;
    && Balance(s'.balances, User(who)) == Balance(s.balances, User(who)) + amount - fee
    && Balance(s'.balances, TipsAccount) == Balance(s.balances, TipsAccount) - amount
    && Balance(s'.balances, StakingAccount) == funds
    && (forall a :: a !in {User(who), TipsAccount, StakingAccount} ==>
          Balance(s'.balances, a) == Balance(s.balances, a))
    && Rewards.AccruesTo(st, funds, s.now, st'.acc) && Rewards.Spread(st', funds)
    && st' == st.(acc := st'.acc, rate := st'.rate, lastAllocation := s.now)
  }

  /** A claim is paid exactly when the tips account holds the amount and the fee can be added. */
  lemma PayClaimIff(cfg: Config, s: State, cut: nat, who: UserId, amount: nat)
    requires Solvency.StakingInv(s.staking, Balance(s.balances, StakingAccount) + cut, s.now)
    ensures PayClaim(cfg, s.staking, s.balances, who, amount, s.now).Ok? <==>
      amount <= Balance(s.balances, TipsAccount) && CanPay(cfg, s, amount)
    ensures PayClaim(cfg, s.staking, s.balances, who, amount, s.now).Ok? ==>
      var (staking, l) := PayClaim(cfg, s.staking, s.balances, who, amount, s.now).value;
      ClaimPaid(cfg, s, s.(staking := staking, balances := l), who, amount)
  {
    hide Solvency.StakingInv, S.AddRewards, Balance, F.FeeOf, FR.IsFee, RewardsAdded;
    var fee := F.FeeOf(amount, cfg.fee);
    forall x: nat ensures FR.IsFee(cfg.fee, amount, x) <==> x == fee {
      FR.FeeIs(cfg.fee, amount, x);
    }
    assert FR.IsFee(cfg.fee, amount, fee);
    if fee <= amount <= Balance(s.balances, TipsAccount) + fee {
      var l := Transfer(s.balances, TipsAccount, User(who), amount - fee).value;
      Rewards.AddRewardsIff(s.staking, l, cut, TipsAccount, fee, s.now);
      if PayClaim(cfg, s.staking, s.balances, who, amount, s.now).Ok? {
        var (staking, l') := PayClaim(cfg, s.staking, s.balances, who, amount, s.now).value;
        RewardsAreAdded(s.(balances := l), s.(staking := staking, balances := l'), cut, TipsAccount, fee);
        FeePaid(s, l, s.(staking := staking, balances := l'), who, amount, fee);
      }
    }
  }

  lemma SamePaid(cfg: Config, s: State, a: State, b: State, who: UserId, amount: nat)
    requires a.staking == b.staking && a.balances == b.balances && ClaimPaid(cfg, s, a, who, amount)
    ensures ClaimPaid(cfg, s, b, who, amount)
  {
    hide Balance, FR.IsFee, Rewards.AccruesTo, Rewards.Spread;
    var fee: nat :| FR.IsFee(cfg.fee, amount, fee) && fee <= amount && PaidWithFee(s, a, who, amount, fee);
    assert PaidWithFee(s, b, who, amount, fee);
  }

  lemma FeePaid(s: State, l: Balances, s': State, who: UserId, amount: nat, fee: nat)
    requires fee <= amount && Transfer(s.balances, TipsAccount, User(who), amount - fee) == Ok(l)
    requires RewardsAdded(s.(balances := l), s', TipsAccount, fee)
    ensures PaidWithFee(s, s', who, amount, fee)
  {
    hide Balance, Rewards.AccruesTo, Rewards.Spread;
  }

  // ---- one-time tips ----

  /** A tip can be earned by the next report: it is unspent and stamped after every undisputed report. */
  ghost predicate Earnable(query: Query) {
    && query.book != []
    && query.book[|query.book| - 1].amount > 0
    && Unmatched(query.log, query.book[|query.book| - 1].timestamp)
  }

  /** Every undisputed report came before `t`. */
  ghost predicate Unmatched(log: L.Log, t: Timestamp) {
    forall i :: 0 <= i < |log| && !log[i].disputed ==> log[i].time < t
  }

  lemma UnmatchedIff(log: L.Log, t: Timestamp)
    requires L.Increasing(log) && t > 0
    ensures Unmatched(log, t) <==> L.LastTime(log).GetOr(0) < t
  {
    L.PrevIndexGreatest(log, |log|);
  }

  /** The book after a tip: added to the last tip while no report could earn that one, else a new tip. */
  ghost predicate TipAdded(query: Query, book': B.Book, now: Timestamp, amount: nat) {
    var book, n := query.book, |query.book|;
    var deposited := if n == 0 then 0 else book[n - 1].cumulative;
    if n > 0 && Unmatched(query.log, book[n - 1].timestamp) then
      book' == book[..n - 1] + [B.Tip(book[n - 1].amount + amount, now + 1, deposited + amount)]
    else
      book' == book + [B.Tip(amount, now + 1, deposited + amount)]
  }

  /** Anyone can tip an amount that it has; the query is then listed as funded, and the tip counts for votes. */
  lemma TipTerms(cfg: Config, s: State, h: History, who: UserId, q: QueryId, amount: nat)
    requires Inv(s, h)
    ensures Apply(cfg, s, Tip(who, q, amount)).Ok? <==> 0 < amount <= Balance(s.balances, User(who))
    ensures Apply(cfg, s, Tip(who, q, amount)).Ok? ==>
      var s' := Apply(cfg, s, Tip(who, q, amount)).value;
      && TipAdded(QueryOf(s, q), QueryOf(s', q).book, s.now, amount)
      && Transfer(s.balances, User(who), TipsAccount, amount) == Ok(s'.balances)
      && s' == s.(
           balances := s'.balances, userTips := s.userTips[who := TipsOf(s, who) + amount],
           queries := s.queries[q := QueryOf(s, q).(book := QueryOf(s', q).book, funded := true)])
  {
    hide Inv, Balance, L.LastTime, TipAdded, B.AddTip, B.CurrentTip, B.GoodBook, L.WellTimed;
    TipsPart(s, h, q);
    if amount > 0 {
      AddTipIs(QueryOf(s, q), s.now, amount);
    }
  }

  lemma AddTipIs(query: Query, now: Timestamp, amount: nat)
    requires B.GoodBook(query.book, query.log, now) && L.WellTimed(query.log, now) && amount > 0
    ensures var book' := B.AddTip(query.book, L.LastTime(query.log), now, amount);
      TipAdded(query, book', now, amount) && B.CurrentTip(book', L.LastTime(query.log)) > 0
  {
    hide L.LastTime, Unmatched;
    UnmatchedIff(query.log, now + 1);
    AllBefore(query.log, now);
    if query.book != [] {
      StampPositive(query.book, query.log, now);
      UnmatchedIff(query.log, query.book[|query.book| - 1].timestamp);
    }
  }

  lemma AllBefore(log: L.Log, now: Timestamp)
    requires L.WellTimed(log, now)
    ensures Unmatched(log, now + 1)
  {
  }

  lemma StampPositive(book: B.Book, log: L.Log, now: Timestamp)
    requires B.GoodBook(book, log, now) && book != []
    ensures book[|book| - 1].timestamp > 0
  {
    assert B.GoodTip(book, log, now, |book| - 1);
  }

  lemma TipsPart(s: State, h: History, q: QueryId)
    requires Inv(s, h)
    ensures T.TipInv(QueryOf(s, q).book, QueryOf(s, q).log, s.now, HistoryOf(h, q).tips)
    ensures B.GoodBook(QueryOf(s, q).book, QueryOf(s, q).log, s.now) && L.WellTimed(QueryOf(s, q).log, s.now)
  {
    hide FeedsOk, StakingOk, GovOk, CrossOk, MoneyOk, T.TipInv, B.GoodBook, L.WellTimed;
    assert TipsAt(s, h, q);
    T.StoredTips(QueryOf(s, q).book, QueryOf(s, q).log, s.now, HistoryOf(h, q).tips);
  }

  /** What a claim changes beside the payment: the tips it is matched with are used up, and the query stays listed
      while its last tip can be earned. */
  ghost predicate TipsTaken(s: State, s': State, who: UserId, q: QueryId, ts: seq<Timestamp>) {
    var query, query' := QueryOf(s, q), QueryOf(s', q);
    && TC.UsedUp(query.book, query'.book, query.log, s.now, who, ts)
    && query'.log == query.log && (query'.funded <==> query.funded && Earnable(query'))
    && s' == s.(queries := s.queries[q := query'], staking := s'.staking, balances := s'.balances)
  }

  /** In every reachable state, a batch of reports is claimed exactly when the query was ever tipped, the caller can
      claim each of the reports, none named twice, and the fee can be added to the staking rewards. */
  lemma ClaimTipsTerms(
    cfg: Config, s0: State, calls: seq<Call>, s: State, h: History, who: UserId, q: QueryId, ts: seq<Timestamp>)
    requires Reached(cfg, s0, calls, s, h)
    ensures var query := QueryOf(s, q);
      Apply(cfg, s, ClaimTips(who, q, ts)).Ok? <==>
        && query.book != []
        && exists amounts: seq<nat> ::
             TC.CanClaimAll(query.book, query.log, s.now, who, ts, amounts) && CanPay(cfg, s, SumAll(amounts))
    ensures Apply(cfg, s, ClaimTips(who, q, ts)).Ok? ==>
      var s' := Apply(cfg, s, ClaimTips(who, q, ts)).value;
      && TipsTaken(s, s', who, q, ts)
      && exists amounts: seq<nat> ::
           && TC.CanClaimAll(QueryOf(s, q).book, QueryOf(s, q).log, s.now, who, ts, amounts)
           && ClaimPaid(cfg, s, s', who, SumAll(amounts))
  {
    hide Inv, PayClaim, T.ClaimAll, T.TipInv, B.GoodBook, L.WellTimed, TC.CanClaimAll, CanPay, ClaimPaid, TipsTaken,
      Balance, TC.UsedUp, Reached, TipsClaimed, Solvency.StakingInv;
    ReachedInv(cfg, s0, calls, s, h);
    StakingPart(s, h);
    TipsPart(s, h, q);
    var query, tips := QueryOf(s, q), HistoryOf(h, q).tips;
    if T.ClaimAll(query.book, query.log, s.now, ts, who).Ok? {
      TC.BatchIs(query.book, query.log, s.now, tips, who, ts);
      var amount := T.ClaimAll(query.book, query.log, s.now, ts, who).value.1;
      PayClaimIff(cfg, s, h.cut, who, amount);
      if query.book != [] {
        TipClaimsAreFunded(cfg, s0, calls, s, h, q, ts, who);
      }
    }
    forall amounts: seq<nat> | TC.CanClaimAll(query.book, query.log, s.now, who, ts, amounts)
      ensures T.ClaimAll(query.book, query.log, s.now, ts, who).Ok?
      ensures T.ClaimAll(query.book, query.log, s.now, ts, who).value.1 == SumAll(amounts)
    {
      TC.BatchSucceeds(query.book, query.log, s.now, tips, who, ts, amounts);
    }
    TipsClaimedIs(cfg, s, h, who, q, ts);
    if TipsClaimed(cfg, s, who, q, ts).Ok? {
      var s' := TipsClaimed(cfg, s, who, q, ts).value;
      var amount := T.ClaimAll(query.book, query.log, s.now, ts, who).value.1;
      SamePaid(cfg, s, s.(staking := s'.staking, balances := s'.balances), s', who, amount);
    }
  }

  /** A claim of tips is a batch and a payment. */
  lemma TipsClaimedIs(cfg: Config, s: State, h: History, who: UserId, q: QueryId, ts: seq<Timestamp>)
    requires Inv(s, h)
    ensures var query := QueryOf(s, q);
      var batch := T.ClaimAll(query.book, query.log, s.now, ts, who);
      TipsClaimed(cfg, s, who, q, ts).Ok? <==>
        query.book != [] && batch.Ok? && PayClaim(cfg, s.staking, s.balances, who, batch.value.1, s.now).Ok?
    ensures TipsClaimed(cfg, s, who, q, ts).Ok? ==>
      var s', amount := TipsClaimed(cfg, s, who, q, ts).value,
        T.ClaimAll(QueryOf(s, q).book, QueryOf(s, q).log, s.now, ts, who).value.1;
      var (staking, l) := PayClaim(cfg, s.staking, s.balances, who, amount, s.now).value;
      && TipsTaken(s, s', who, q, ts)
      && s'.staking == staking && s'.balances == l && s'.now == s.now
  {
    hide Inv, PayClaim, T.ClaimAll, T.TipInv, B.GoodBook, L.WellTimed, TC.UsedUp, L.LastTime;
    TipsPart(s, h, q);
    var query, tips := QueryOf(s, q), HistoryOf(h, q).tips;
    var batch := T.ClaimAll(query.book, query.log, s.now, ts, who);
    if batch.Ok? && query.book != [] {
      TC.BatchIs(query.book, query.log, s.now, tips, who, ts);
      CurrentAfter(query, batch.value.0, s.now, who, ts);
    }
  }

  lemma CurrentAfter(query: Query, book': B.Book, now: Timestamp, who: UserId, ts: seq<Timestamp>)
    requires B.GoodBook(query.book, query.log, now) && L.WellTimed(query.log, now) && query.book != []
    requires TC.UsedUp(query.book, book', query.log, now, who, ts)
    ensures B.CurrentTip(book', L.LastTime(query.log)) > 0 <==> Earnable(query.(book := book'))
  {
    hide B.GoodBook, L.LastTime, TC.UsedBy;
    StampPositive(query.book, query.log, now);
    UnmatchedIff(query.log, book'[|book'| - 1].timestamp);
  }

  // ---- data feeds ----

  /** `amount` moves from `who` to the tips account, into the feed, which is then listed as funded; it counts for
      votes. */
  ghost predicate FeedPaid(s: State, s': State, who: UserId, f: FeedId, before: nat, amount: nat) {
    && f in s'.feeds && s'.feeds[f].balance == before + amount
    && Transfer(s.balances, User(who), TipsAccount, amount) == Ok(s'.balances)
    && s'.fundedFeeds == s.fundedFeeds + {f} && s'.userTips == s.userTips[who := TipsOf(s, who) + amount]
  }

  /** A feed is set up once, with a reward and a window shorter than its interval, by anyone who has what it starts
      with. */
  lemma SetupFeedTerms(cfg: Config, s: State, who: UserId, f: FeedId, amount: nat)
    ensures Apply(cfg, s, SetupFeed(who, f, amount)).Ok? <==>
      f !in s.feeds && f.reward > 0 && f.window < f.interval && amount <= Balance(s.balances, User(who))
    ensures Apply(cfg, s, SetupFeed(who, f, amount)).Ok? ==>
      var s' := Apply(cfg, s, SetupFeed(who, f, amount)).value;
      && s' == s.(feeds := s.feeds[f := F.Feed(
           f.reward, amount, f.startTime, f.interval, f.window, f.priceThreshold, f.increasePerSecond)],
           balances := s'.balances, fundedFeeds := s'.fundedFeeds, userTips := s'.userTips)
      && (amount > 0 ==> FeedPaid(s, s', who, f, 0, amount))
      && (amount == 0 ==>
            s'.balances == s.balances && s'.fundedFeeds == s.fundedFeeds && s'.userTips == s.userTips)
  {
    hide Balance;
  }

  lemma FundFeedTerms(cfg: Config, s: State, who: UserId, f: FeedId, amount: nat)
    ensures Apply(cfg, s, FundFeed(who, f, amount)).Ok? <==>
      f in s.feeds && 0 < amount <= Balance(s.balances, User(who))
    ensures Apply(cfg, s, FundFeed(who, f, amount)).Ok? ==>
      var s' := Apply(cfg, s, FundFeed(who, f, amount)).value;
      && FeedPaid(s, s', who, f, s.feeds[f].balance, amount)
      && s' == s.(feeds := s.feeds[f := s.feeds[f].(balance := s'.feeds[f].balance)],
                  balances := s'.balances, fundedFeeds := s'.fundedFeeds, userTips := s'.userTips)
  {
    hide Balance;
  }

  /** What a claim changes beside the payment: the reports are claimed, and the feed loses the amount and its place
      among the funded ones once nothing is left. */
  ghost predicate RewardsTaken(s: State, s': State, f: FeedId, ts: seq<Timestamp>, amount: nat)
    requires f in s.feeds
  {
    && amount <= s.feeds[f].balance
    && s' == s.(
         feeds := s.feeds[f := s.feeds[f].(balance := s.feeds[f].balance - amount)],
         feedClaims := s.feedClaims[f := ClaimsOf(s, f) + set t | t in ts],
         fundedFeeds := if amount == s.feeds[f].balance then s.fundedFeeds - {f} else s.fundedFeeds,
         staking := s'.staking, balances := s'.balances)
  }

  /** What is due for every report of the batch, with something of the feed left for the last one. */
  ghost predicate RewardsDue(s: State, who: UserId, f: FeedId, ts: seq<Timestamp>, amounts: seq<nat>)
    requires f in s.feeds
  {
    && FR.AllDueTo(s.feeds[f], QueryOf(s, f.query).log, ClaimsOf(s, f), s.now, who, ts, amounts)
    && |amounts| == |ts|
    && (amounts != [] ==> SumAll(amounts[..|amounts| - 1]) < s.feeds[f].balance)
  }

  /** In every reachable state, a batch of reports is rewarded exactly when the feed exists and is not empty, what is
      due for every report is due to the caller, all but the last leave something of the feed, and the fee can be
      added to the staking rewards; the sum is paid as far as the feed goes. */
  lemma ClaimFeedTerms(
    cfg: Config, s0: State, calls: seq<Call>, s: State, h: History, who: UserId, f: FeedId, ts: seq<Timestamp>)
    requires Reached(cfg, s0, calls, s, h)
    ensures Apply(cfg, s, ClaimFeed(who, f, ts)).Ok? <==>
      && f in s.feeds && s.feeds[f].balance > 0
      && exists amounts: seq<nat> ::
           RewardsDue(s, who, f, ts, amounts) && CanPay(cfg, s, Min(SumAll(amounts), s.feeds[f].balance))
    ensures Apply(cfg, s, ClaimFeed(who, f, ts)).Ok? ==>
      var s' := Apply(cfg, s, ClaimFeed(who, f, ts)).value;
      && f in s.feeds
      && exists amounts: seq<nat> ::
           && RewardsDue(s, who, f, ts, amounts)
           && RewardsTaken(s, s', f, ts, Min(SumAll(amounts), s.feeds[f].balance))
           && ClaimPaid(cfg, s, s', who, Min(SumAll(amounts), s.feeds[f].balance))
  {
    hide Inv, PayClaim, F.ClaimFeed, L.WellTimed, CanPay, ClaimPaid, RewardsTaken, RewardsDue, Balance, Reached,
      FeedClaimed, Solvency.StakingInv, T.TipInv, B.GoodBook, Sum;
    if f in s.feeds {
      ReachedInv(cfg, s0, calls, s, h);
      StakingPart(s, h);
      TipsPart(s, h, f.query);
      TipsAccountCovers(cfg, s0, calls, s, h);
      assert FeedHoldings(s)[f] == s.feeds[f].balance;
      ClaimFeedIff(s, who, f, ts);
      var claim := F.ClaimFeed(s.feeds[f], QueryOf(s, f.query).log, ClaimsOf(s, f), s.now, ts, who);
      FeedClaimedIs(cfg, s, who, f, ts);
      if claim.Ok? {
        PayClaimIff(cfg, s, h.cut, who, claim.value);
        if FeedClaimed(cfg, s, who, f, ts).Ok? {
          var s' := FeedClaimed(cfg, s, who, f, ts).value;
          SamePaid(cfg, s, s.(staking := s'.staking, balances := s'.balances), s', who, claim.value);
        }
      }
    } else {
      NoSuchFeed(cfg, s, who, f, ts);
    }
  }

  lemma NoSuchFeed(cfg: Config, s: State, who: UserId, f: FeedId, ts: seq<Timestamp>)
    requires f !in s.feeds
    ensures FeedClaimed(cfg, s, who, f, ts).Err?
  {
  }

  /** The amount of a claim is the sum of what is due, up to the balance of the feed. */
  lemma ClaimFeedIff(s: State, who: UserId, f: FeedId, ts: seq<Timestamp>)
    requires f in s.feeds && L.WellTimed(QueryOf(s, f.query).log, s.now)
    ensures var feed := s.feeds[f];
      var claim := F.ClaimFeed(feed, QueryOf(s, f.query).log, ClaimsOf(s, f), s.now, ts, who);
      && (claim.Ok? ==> feed.balance > 0)
      && (claim.Ok? ==> exists amounts: seq<nat> ::
            RewardsDue(s, who, f, ts, amounts) && claim.value == Min(SumAll(amounts), feed.balance))
      && (feed.balance > 0 ==> forall amounts: seq<nat> :: RewardsDue(s, who, f, ts, amounts) ==>
            claim == Ok(Min(SumAll(amounts), feed.balance)))
  {
    hide F.ClaimUpTo, FR.AllDueTo;
    var feed, log, claimed := s.feeds[f], QueryOf(s, f.query).log, ClaimsOf(s, f);
    if F.ClaimFeed(feed, log, claimed, s.now, ts, who).Ok? {
      FR.ClaimPaysDue(feed, log, claimed, s.now, ts, who, |ts|);
    }
    if feed.balance > 0 {
      forall amounts: seq<nat> | RewardsDue(s, who, f, ts, amounts)
        ensures F.ClaimFeed(feed, log, claimed, s.now, ts, who) == Ok(Min(SumAll(amounts), feed.balance))
      {
        FR.DueIsPaid(feed, log, claimed, s.now, ts, who, |ts|, amounts);
      }
    }
  }

  /** A claim of rewards is a batch and a payment. */
  lemma FeedClaimedIs(cfg: Config, s: State, who: UserId, f: FeedId, ts: seq<Timestamp>)
    requires f in s.feeds
    ensures var claim := F.ClaimFeed(s.feeds[f], QueryOf(s, f.query).log, ClaimsOf(s, f), s.now, ts, who);
      FeedClaimed(cfg, s, who, f, ts).Ok? <==>
        claim.Ok? && PayClaim(cfg, s.staking, s.balances, who, claim.value, s.now).Ok?
    ensures FeedClaimed(cfg, s, who, f, ts).Ok? ==>
      var s', amount := FeedClaimed(cfg, s, who, f, ts).value,
        F.ClaimFeed(s.feeds[f], QueryOf(s, f.query).log, ClaimsOf(s, f), s.now, ts, who).value;
      var (staking, l) := PayClaim(cfg, s.staking, s.balances, who, amount, s.now).value;
      RewardsTaken(s, s', f, ts, amount) && s'.staking == staking && s'.balances == l
  {
    hide F.ClaimFeed, PayClaim;
  }
}
