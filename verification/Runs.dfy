/** Every call keeps the pallet's invariant, hence every run does. */
module Runs {
  import opened Prelude
  import opened Pallet
  import opened Invariant
  import L = ReportLog
  import B = TipBook
  import T = TipHistory
  import F = Feeds
  import S = Staking
  import Solvency
  import R = StakingReports
  import G = Governance
  import D = Disputes
  import V = Ballots

  // ---- reports ----

  lemma SubmitKeeps(s: State, h: History, who: UserId, q: QueryId, value: Value, nonce: nat)
    requires Inv(s, h) && Submitted(s, who, q, value, nonce).Ok?
    ensures Inv(Submitted(s, who, q, value, nonce).value, h)
  {
    hide TipsOk, FeedsOk, StakingOk, GovOk, CrossOk, MoneyOk, S.RecordReport, L.FindBelow;
    var s' := Submitted(s, who, q, value, nonce).value;
    var log, e := QueryOf(s, q).log, L.Entry(s.now, who, value, false);
    assert QueryOf(s', q).log == log + [e];
    SubmitKeepsTips(s, s', h, q, e);
    SubmitKeepsFeeds(s, s', h, q, e);
    SubmitKeepsStaking(s, s', h, who);
    GovLater(s, s', h, h);
    SubmitKeepsCross(s, s', h, q, e);
    MoneyQuery(s, s', h, h, q);
  }

  lemma LogOf(s: State, h: History, q: QueryId)
    requires TipsOk(s, h)
    ensures T.TipInv(QueryOf(s, q).book, QueryOf(s, q).log, s.now, HistoryOf(h, q).tips)
    ensures L.WellTimed(QueryOf(s, q).log, s.now)
  {
    assert TipsAt(s, h, q);
  }

  lemma Positive(s: State, h: History)
    requires GovOk(s, h)
    ensures s.now >= DAYS
  {
  }

  lemma SubmitKeepsTips(s: State, s': State, h: History, q: QueryId, e: L.Entry)
    requires TipsOk(s, h) && GovOk(s, h) && s'.now == s.now
    requires forall r :: r != q ==> QueryOf(s', r) == QueryOf(s, r)
    requires QueryOf(s', q) == QueryOf(s, q).(log := QueryOf(s, q).log + [e])
    requires e.time == s.now && !e.disputed && L.Find(QueryOf(s, q).log, s.now).None?
    ensures TipsOk(s', h)
  {
    Positive(s, h);
    assert TipsAt(s, h, q);
    T.SubmitKeepsTips(QueryOf(s, q).book, QueryOf(s, q).log, s.now, HistoryOf(h, q).tips, e);
    TipsUpdate(s, s', h, h, q);
  }

  lemma SubmitKeepsFeeds(s: State, s': State, h: History, q: QueryId, e: L.Entry)
    requires FeedsOk(s, h) && TipsOk(s', h) && s'.now == s.now
    requires forall r :: r != q ==> QueryOf(s', r) == QueryOf(s, r)
    requires QueryOf(s', q).log == QueryOf(s, q).log + [e] && !e.disputed
    requires s'.feeds == s.feeds && s'.feedClaims == s.feedClaims && s'.fundedFeeds == s.fundedFeeds
    ensures FeedsOk(s', h)
  {
    hide TipsOk, F.FeedInv;
    forall f | f in s'.feeds ensures FeedAt(s', h, f) {
      assert FeedAt(s, h, f);
      if f.query == q {
        LogOf(s', h, q);
        F.SubmitKeepsFeed(s.feeds[f], QueryOf(s, q).log, s.now, ClaimsOf(s, f), WindowOf(h, f), e);
      }
    }
  }

  lemma SubmitKeepsStaking(s: State, s': State, h: History, who: UserId)
    requires StakingOk(s, h) && S.RecordReport(s.staking, who, s.stakeAmount, s.now) == Ok(s'.staking)
    requires s'.now == s.now && s'.balances == s.balances
    ensures StakingOk(s', h)
  {
    hide Solvency.StakingInv, R.LockedGap, S.RecordReport;
    R.RecordReportKeeps(s.staking, Balance(s.balances, StakingAccount) + h.cut, s.now, who, s.stakeAmount, s.now);
  }

  lemma SubmitKeepsCross(s: State, s': State, h: History, q: QueryId, e: L.Entry)
    requires CrossOk(s) && TipsOk(s', h) && s'.gov == s.gov && GovOk(s, h)
    requires forall r :: r != q ==> QueryOf(s', r) == QueryOf(s, r)
    requires QueryOf(s', q).log == QueryOf(s, q).log + [e] && !e.disputed
    requires L.Find(QueryOf(s, q).log, e.time).None?
    ensures CrossOk(s')
  {
    hide TipsOk, L.Find, GovOk, G.Rounds;
    LogOf(s', h, q);
    NotDisputedYet(s, h, q, e.time);
    forall r ensures ReportsAt(QueryOf(s', r).log, s'.gov, r) {
      assert ReportsAt(QueryOf(s, r).log, s.gov, r);
      forall i | 0 <= i < |QueryOf(s', r).log| ensures ReportAt(QueryOf(s', r).log, s'.gov, r, i) {
        assert i < |QueryOf(s, r).log| ==> ReportAt(QueryOf(s, r).log, s.gov, r, i);
      }
    }
    forall id | id in s'.gov.disputes ensures L.Find(QueryOf(s', id.query).log, id.timestamp).Some? {
      if id.query == q {
        StillFound(QueryOf(s, q).log, QueryOf(s', q).log, e, id.timestamp);
      }
    }
  }

  lemma StillFound(log: L.Log, log': L.Log, e: L.Entry, t: Timestamp)
    requires log' == log + [e] && L.Increasing(log') && L.Find(log, t).Some?
    ensures L.Find(log', t).Some?
  {
    var i := L.Find(log, t).value;
    assert log'[i] == log[i];
    L.FindUnique(log', i);
  }

  lemma NotDisputedYet(s: State, h: History, q: QueryId, t: Timestamp)
    requires CrossOk(s) && GovOk(s, h) && L.Find(QueryOf(s, q).log, t).None?
    ensures G.Rounds(s.gov, G.DisputeId(q, t)) == 0
  {
    hide L.Find, D.CountsInv, D.EscrowInv, D.PendingInv, V.BallotInv, V.OutboxInv, ExecutionsOk;
    assert G.DisputeId(q, t) !in s.gov.disputes;
  }

  // ---- tips ----

  lemma TipKeeps(s: State, h: History, who: UserId, q: QueryId, amount: nat, s': State)
    requires Inv(s, h) && Tipped(s, who, q, amount) == Ok(s')
    ensures Inv(s', h.(queries := h.queries[q :=
      HistoryOf(h, q).(tipped := HistoryOf(h, q).tipped + amount)]))
  {
    hide TipsOk, FeedsOk, StakingOk, GovOk, CrossOk, MoneyOk, T.TipInv, B.AddTip, B.CurrentTip, L.LastTime,
      B.Deposited, B.Paid;
    var qh := HistoryOf(h, q);
    var h' := h.(queries := h.queries[q := qh.(tipped := qh.tipped + amount)]);
    AllTips(s, h, q);
    var query := QueryOf(s, q);
    T.TipKeepsTips(query.book, query.log, s.now, qh.tips, amount);
    TipsUpdate(s, s', h, h', q);
    FeedsLater(s, s', h, h');
    StakingLater(s, s', h, h');
    GovLater(s, s', h, h');
    CrossSame(s, s');
    MoneyQuery(s, s', h, h', q);
  }

  lemma AllTips(s: State, h: History, q: QueryId)
    requires TipsOk(s, h)
    ensures TipsAt(s, h, q)
  {
  }

  /** A claim moves exactly its amount out of the tips account. */
  lemma PayClaimPays(cfg: Config, s: State, h: History, who: UserId, amount: nat)
    requires StakingOk(s, h) && PayClaim(cfg, s.staking, s.balances, who, amount, s.now).Ok?
    ensures var (staking, l) := PayClaim(cfg, s.staking, s.balances, who, amount, s.now).value;
      && Solvency.StakingInv(staking, Balance(l, StakingAccount) + h.cut, s.now)
      && R.LockedGap(staking) == R.LockedGap(s.staking)
      && Balance(l, TipsAccount) == Balance(s.balances, TipsAccount) - amount
      && Balance(l, StakingAccount) == Balance(s.balances, StakingAccount) + F.FeeOf(amount, cfg.fee)
      && Balance(l, User(who)) == Balance(s.balances, User(who)) + amount - F.FeeOf(amount, cfg.fee)
      && Balance(l, DisputeAccount) == Balance(s.balances, DisputeAccount)
      && F.FeeOf(amount, cfg.fee) <= amount
  {
    hide Solvency.StakingInv, S.AddRewards, Solvency.Total, Balance, F.FeeOf;
    var fee := F.FeeOf(amount, cfg.fee);
    var l := Transfer(s.balances, TipsAccount, User(who), amount - fee).value;
    R.AddRewardsKeeps(s.staking, l, h.cut, s.now, TipsAccount, fee, s.now);
  }

  lemma ClaimTipsKeeps(
    cfg: Config, s: State, h: History, who: UserId, q: QueryId, ts: seq<Timestamp>, s': State, h': History)
    requires Inv(s, h) && TipsClaimed(cfg, s, who, q, ts) == Ok(s')
    requires var query, qh := QueryOf(s, q), HistoryOf(h, q);
      h' == h.(queries := h.queries[q := qh.(
        tips := T.ClaimedAll(query.book, query.log, s.now, qh.tips, ts, who),
        paid := qh.paid + T.ClaimAll(query.book, query.log, s.now, ts, who).value.1,
        payouts := qh.payouts + T.Payouts(query.book, query.log, ts))])
    ensures Inv(s', h')
  {
    hide TipsOk, FeedsOk, StakingOk, GovOk, CrossOk, MoneyOk, PayClaim, T.ClaimAll, T.ClaimedAll, T.TipInv, T.Payouts,
      B.Paid, B.CurrentTip, L.LastTime, B.Deposited;
    AllTips(s, h, q);
    var query, qh := QueryOf(s, q), HistoryOf(h, q);
    T.ClaimAllPaysOnce(query.book, query.log, s.now, qh.tips, ts, who);
    var amount := T.ClaimAll(query.book, query.log, s.now, ts, who).value.1;
    PayClaimPays(cfg, s, h, who, amount);
    TipsUpdate(s, s', h, h', q);
    FeedsLater(s, s', h, h');
    StakingFrom(s, s', h, h');
    GovLater(s, s', h, h');
    CrossSame(s, s');
    MoneyQuery(s, s', h, h', q);
  }

  lemma StakingFrom(s: State, s': State, h: History, h': History)
    requires StakingOk(s, h)
    requires Solvency.StakingInv(s'.staking, Balance(s'.balances, StakingAccount) + h'.cut, s'.now)
    requires R.LockedGap(s'.staking) - h'.unreturned == R.LockedGap(s.staking) - h.unreturned
    ensures StakingOk(s', h')
  {
    hide Solvency.StakingInv, R.LockedGap;
  }

  // ---- feeds ----

  lemma SetupKeeps(s: State, h: History, f: FeedId, s': State)
    requires Inv(s, h) && FeedSetUp(s, f) == Ok(s')
    ensures Inv(s', h)
  {
    hide TipsOk, FeedsOk, StakingOk, GovOk, CrossOk, MoneyOk;
    SetupKeepsFeeds(s, h, f, s');
    TipsLater(s, s', h, h);
    StakingLater(s, s', h, h);
    GovLater(s, s', h, h);
    CrossSame(s, s');
    MoneyFeed(s, s', h, h, f);
  }

  lemma SetupKeepsFeeds(s: State, h: History, f: FeedId, s': State)
    requires TipsOk(s, h) && FeedsOk(s, h) && FeedSetUp(s, f) == Ok(s')
    ensures FeedsOk(s', h)
  {
    hide TipsOk, FeedsOk;
    LogOf(s, h, f.query);
    NoFeedYet(s, h, f);
    NewFeedOk(s'.feeds[f], QueryOf(s, f.query).log, s.now);
    FeedsUpdate(s, s', h, h, f);
  }

  lemma NoFeedYet(s: State, h: History, f: FeedId)
    requires FeedsOk(s, h) && f !in s.feeds
    ensures ClaimsOf(s, f) == {} && WindowOf(h, f) == {} && f !in s.fundedFeeds
  {
  }

  lemma NewFeedOk(feed: F.Feed, log: L.Log, now: Timestamp)
    requires L.WellTimed(log, now) && feed.interval > 0
    ensures F.FeedInv(feed, log, now, {}, {})
  {
  }

  lemma AllFeeds(s: State, h: History, f: FeedId)
    requires FeedsOk(s, h) && f in s.feeds
    ensures FeedAt(s, h, f)
  {
  }

  lemma FundKeeps(s: State, h: History, who: UserId, f: FeedId, amount: nat)
    requires Inv(s, h) && FeedFunded(s, who, f, amount).Ok?
    ensures Inv(FeedFunded(s, who, f, amount).value, h)
  {
    hide TipsOk, FeedsOk, StakingOk, GovOk, CrossOk, MoneyOk, F.FeedInv;
    var s' := FeedFunded(s, who, f, amount).value;
    AllFeeds(s, h, f);
    F.BalanceChangeKeepsFeed(s.feeds[f], QueryOf(s, f.query).log, s.now, s.now, ClaimsOf(s, f), WindowOf(h, f),
      s.feeds[f].balance + amount);
    FeedsUpdate(s, s', h, h, f);
    TipsLater(s, s', h, h);
    StakingLater(s, s', h, h);
    GovLater(s, s', h, h);
    CrossSame(s, s');
    MoneyFeed(s, s', h, h, f);
  }

  lemma ClaimFeedKeeps(
    cfg: Config, s: State, h: History, who: UserId, f: FeedId, ts: seq<Timestamp>, s': State, h': History)
    requires Inv(s, h) && FeedClaimed(cfg, s, who, f, ts) == Ok(s') && f in s.feeds
    requires h' == if s.feeds[f].interval == 0 then h else h.(byWindow := h.byWindow[f :=
      WindowOf(h, f) + F.WindowClaims(s.feeds[f], QueryOf(s, f.query).log, ts)])
    ensures Inv(s', h')
  {
    hide TipsOk, FeedsOk, StakingOk, GovOk, CrossOk, MoneyOk, PayClaim, F.ClaimFeed, F.WindowClaims, F.Add, F.FeeOf,
      Balance, FeedClaimed;
    var amount := ClaimMoves(cfg, s, who, f, ts, s');
    ClaimKeepsFeeds(cfg, s, h, who, f, ts, s', h');
    PayClaimPays(cfg, s, h, who, amount);
    TipsLater(s, s', h, h');
    StakingFrom(s, s', h, h');
    GovLater(s, s', h, h');
    CrossSame(s, s');
    MoneyFeed(s, s', h, h', f);
  }

  /** What a claim of feed rewards writes outside the feed's own bookkeeping. */
  lemma ClaimMoves(cfg: Config, s: State, who: UserId, f: FeedId, ts: seq<Timestamp>, s': State) returns (amount: nat)
    requires FeedClaimed(cfg, s, who, f, ts) == Ok(s') && f in s.feeds
    ensures amount <= s.feeds[f].balance
    ensures var paid := PayClaim(cfg, s.staking, s.balances, who, amount, s.now);
      paid.Ok? && paid.value.0 == s'.staking && paid.value.1 == s'.balances
    ensures s'.feeds == s.feeds[f := s.feeds[f].(balance := s.feeds[f].balance - amount)]
    ensures s'.now == s.now && s'.queries == s.queries && s'.gov == s.gov
  {
    hide PayClaim, F.ClaimUpTo;
    amount := F.ClaimFeed(s.feeds[f], QueryOf(s, f.query).log, ClaimsOf(s, f), s.now, ts, who).value;
  }

  lemma ClaimKeepsFeeds(
    cfg: Config, s: State, h: History, who: UserId, f: FeedId, ts: seq<Timestamp>, s': State, h': History)
    requires FeedsOk(s, h) && FeedClaimed(cfg, s, who, f, ts) == Ok(s') && f in s.feeds
    requires h' == if s.feeds[f].interval == 0 then h else h.(byWindow := h.byWindow[f :=
      WindowOf(h, f) + F.WindowClaims(s.feeds[f], QueryOf(s, f.query).log, ts)])
    ensures FeedsOk(s', h')
  {
    hide FeedsOk, FeedAt, PayClaim, F.ClaimFeed, F.WindowClaims, F.Add;
    AllFeeds(s, h, f);
    var amount := F.ClaimFeed(s.feeds[f], QueryOf(s, f.query).log, ClaimsOf(s, f), s.now, ts, who).value;
    ClaimKeepsFeedAt(s, h, who, f, ts, amount, s', h');
    FeedsUpdate(s, s', h, h', f);
  }

  lemma ClaimKeepsFeedAt(
    s: State, h: History, who: UserId, f: FeedId, ts: seq<Timestamp>, amount: nat, s': State, h': History)
    requires f in s.feeds && FeedAt(s, h, f)
    requires F.ClaimFeed(s.feeds[f], QueryOf(s, f.query).log, ClaimsOf(s, f), s.now, ts, who) == Ok(amount)
    requires s'.now == s.now && s'.queries == s.queries && f in s'.feeds
    requires s'.feeds[f] == s.feeds[f].(balance := s.feeds[f].balance - amount)
    requires ClaimsOf(s', f) == F.Add(ClaimsOf(s, f), ts)
    requires f in s'.fundedFeeds <==> amount != s.feeds[f].balance
    requires s.feeds[f].interval > 0 ==>
      WindowOf(h', f) == WindowOf(h, f) + F.WindowClaims(s.feeds[f], QueryOf(s, f.query).log, ts)
    ensures FeedAt(s', h', f)
  {
    hide F.ClaimFeed, F.WindowClaims, F.Add, F.FeedInv;
    var feed, log := s.feeds[f], QueryOf(s, f.query).log;
    ClaimNeedsFunds(feed, log, ClaimsOf(s, f), s.now, ts, who);
    IntervalOk(feed, log, s.now, ClaimsOf(s, f), WindowOf(h, f));
    F.ClaimKeepsFeed(feed, log, s.now, ClaimsOf(s, f), WindowOf(h, f), ts, who);
    F.BalanceChangeKeepsFeed(feed, log, s.now, s.now, F.Add(ClaimsOf(s, f), ts),
      WindowOf(h, f) + F.WindowClaims(feed, log, ts), feed.balance - amount);
  }

  lemma IntervalOk(feed: F.Feed, log: L.Log, now: Timestamp, claimed: set<Timestamp>, byWindow: set<Timestamp>)
    requires F.FeedInv(feed, log, now, claimed, byWindow)
    ensures feed.interval > 0
  {
  }

  lemma ClaimNeedsFunds(
    feed: F.Feed, log: L.Log, claimed: set<Timestamp>, now: Timestamp, ts: seq<Timestamp>, who: UserId)
    requires F.ClaimFeed(feed, log, claimed, now, ts, who).Ok?
    ensures feed.balance > 0
  {
  }

  // ---- staking ----

  /** A call that only touches the staking state, the staking account and users' accounts. */
  lemma StakingCallKeeps(s: State, s': State, h: History, h': History)
    requires Inv(s, h) && s' == s.(staking := s'.staking, balances := s'.balances)
    requires h' == h.(unreturned := h'.unreturned, cut := h'.cut)
    requires Solvency.StakingInv(s'.staking, Balance(s'.balances, StakingAccount) + h'.cut, s.now)
    requires R.LockedGap(s'.staking) - h'.unreturned == R.LockedGap(s.staking) - h.unreturned
    requires Balance(s'.balances, TipsAccount) == Balance(s.balances, TipsAccount)
    requires Balance(s'.balances, DisputeAccount) == Balance(s.balances, DisputeAccount)
    ensures Inv(s', h')
  {
    hide TipsOk, FeedsOk, StakingOk, GovOk, CrossOk, MoneyOk, Solvency.StakingInv, R.LockedGap, Balance;
    TipsLater(s, s', h, h');
    FeedsLater(s, s', h, h');
    StakingFrom(s, s', h, h');
    GovLater(s, s', h, h');
    CrossSame(s, s');
    MoneySame(s, s', h, h');
  }

  lemma AddRewardsKeeps(s: State, h: History, who: UserId, amount: nat, st: S.State, l: Balances)
    requires Inv(s, h) && S.AddRewards(s.staking, s.balances, User(who), amount, s.now) == Ok((st, l))
    ensures Inv(s.(staking := st, balances := l), h)
  {
    hide Inv, Solvency.StakingInv, R.LockedGap, Balance, S.AddRewards, S.Deposit, S.RequestWithdraw, S.Slash,
      R.NewlyCut, R.SlashCut;
    StakingPart(s, h);
    R.AddRewardsKeeps(s.staking, s.balances, h.cut, s.now, User(who), amount, s.now);
    SameGap(s.staking, st);
    StakingCallKeeps(s, s.(staking := st, balances := l), h, h);
  }

  lemma DepositKeeps(s: State, h: History, who: UserId, amount: nat, address: nat, st: S.State, l: Balances)
    requires Inv(s, h) && S.Deposit(s.staking, s.balances, who, amount, address, EnvFor(s, who)) == Ok((st, l))
    ensures Inv(s.(staking := st, balances := l), h.(cut := h.cut + R.NewlyCut(st, who)))
  {
    hide Inv, Solvency.StakingInv, R.LockedGap, Balance, S.AddRewards, S.Deposit, S.RequestWithdraw, S.Slash,
      R.NewlyCut, R.SlashCut;
    StakingPart(s, h);
    R.DepositKeeps(s.staking, s.balances, h.cut, s.now, who, amount, address, EnvFor(s, who));
    StakingCallKeeps(s, s.(staking := st, balances := l), h, h.(cut := h.cut + R.NewlyCut(st, who)));
  }

  lemma RequestKeeps(s: State, h: History, who: UserId, amount: nat, address: nat, st: S.State, l: Balances)
    requires Inv(s, h) && S.RequestWithdraw(s.staking, s.balances, who, amount, address, EnvFor(s, who)) == Ok((st, l))
    ensures Inv(s.(staking := st, balances := l), h.(cut := h.cut + R.NewlyCut(st, who)))
  {
    hide Inv, Solvency.StakingInv, R.LockedGap, Balance, S.AddRewards, S.Deposit, S.RequestWithdraw, S.Slash,
      R.NewlyCut, R.SlashCut;
    StakingPart(s, h);
    R.RequestKeeps(s.staking, s.balances, h.cut, s.now, who, amount, address, EnvFor(s, who));
    StakingCallKeeps(s, s.(staking := st, balances := l), h, h.(cut := h.cut + R.NewlyCut(st, who)));
  }

  lemma SlashKeeps(s: State, h: History, who: UserId, amount: nat, st: S.State, l: Balances)
    requires Inv(s, h) && S.Slash(s.staking, s.balances, who, amount, EnvFor(s, who)) == Ok((st, l))
    ensures Inv(s.(staking := st, balances := l), h.(cut := h.cut + R.SlashCut(s.staking, st, who, amount)))
  {
    hide Inv, Solvency.StakingInv, R.LockedGap, Balance, S.AddRewards, S.Deposit, S.RequestWithdraw, S.Slash,
      R.NewlyCut, R.SlashCut;
    StakingPart(s, h);
    R.SlashKeeps(s.staking, s.balances, h.cut, s.now, who, amount, EnvFor(s, who));
    StakingCallKeeps(s, s.(staking := st, balances := l), h, h.(cut := h.cut + R.SlashCut(s.staking, st, who, amount)));
  }

  lemma WithdrawnKeeps(s: State, h: History, who: UserId, amount: nat, st: S.State)
    requires Inv(s, h) && S.Withdrawn(s.staking, who, amount, s.now) == Ok(st) && who in s.staking.stakers
    ensures Inv(s.(staking := st), h.(unreturned := h.unreturned + s.staking.stakers[who].locked - amount))
  {
    hide Inv, Solvency.StakingInv, R.LockedGap, Balance, S.Withdrawn;
    StakingPart(s, h);
    R.WithdrawnKeeps(s.staking, Balance(s.balances, StakingAccount) + h.cut, s.now, who, amount, s.now);
    StakingCallKeeps(s, s.(staking := st), h, h.(unreturned := h.unreturned + s.staking.stakers[who].locked - amount));
  }

  lemma StakingPart(s: State, h: History)
    requires Inv(s, h)
    ensures Solvency.StakingInv(s.staking, Balance(s.balances, StakingAccount) + h.cut, s.now)
    ensures R.LockedGap(s.staking) == h.unreturned
  {
  }

  lemma SameGap(a: S.State, b: S.State)
    requires b.stakers == a.stakers && b.toWithdraw == a.toWithdraw
    ensures R.LockedGap(b) == R.LockedGap(a)
  {
  }

  // ---- governance ----

  lemma BeginKeeps(cfg: Config, s: State, h: History, who: UserId, id: G.DisputeId, hasBeneficiary: bool)
    requires Inv(s, h) && DisputeBegun(cfg, s, who, id, hasBeneficiary).Ok?
    ensures Inv(DisputeBegun(cfg, s, who, id, hasBeneficiary).value, h)
  {
    hide TipsOk, FeedsOk, StakingOk, CrossOk, MoneyOk, G.BeginDispute, D.CountsInv, D.EscrowInv, D.PendingInv,
      D.RoundsInv, V.BallotInv, V.OutboxInv, ExecutionsOk, D.Opens;
    var s' := DisputeBegun(cfg, s, who, id, hasBeneficiary).value;
    var query := QueryOf(s, id.query);
    var fee := D.BeginOpens(s.gov, query.log, s.balances, Balance(s.balances, DisputeAccount), s.now, who, id,
      hasBeneficiary, s.disputeFee, s.stakeAmount, cfg.maxSeries, s.staking.stakers.Keys);
    D.OpenKeeps(s.gov, s'.gov, Balance(s.balances, DisputeAccount), s.now, id, fee, who);
    V.OpenKeepsBallots(s.gov, s'.gov, h.box, s.now, id, fee, who);
    OpenKeepsRest(s, s', h, id, fee, who);
    assert GovOk(s', h);
    hide GovOk;
    BeginKeepsLogs(s, s', h, id, fee, who);
    StakingLater(s, s', h, h);
    MoneyQuery(s, s', h, h, id.query);
  }

  lemma OpenKeepsRest(s: State, s': State, h: History, id: G.DisputeId, fee: nat, who: UserId)
    requires GovOk(s, h) && D.Opens(s.gov, s'.gov, s.now, id, fee, who)
    ensures V.OutboxInv(s'.gov, h.outbox) && ExecutionsOk(s'.gov, h)
  {
    hide D.CountsInv, D.EscrowInv, D.PendingInv, V.BallotInv;
    V.UnsentStepKeepsOutbox(s.gov, s'.gov, h.outbox);
    forall d ensures D.Executed(s'.gov, d) == D.Executed(s.gov, d) {
    }
  }

  lemma BeginKeepsLogs(s: State, s': State, h: History, id: G.DisputeId, fee: nat, who: UserId)
    requires TipsOk(s, h) && FeedsOk(s, h) && CrossOk(s) && GovOk(s, h)
    requires D.Opens(s.gov, s'.gov, s.now, id, fee, who)
    requires s'.now == s.now && s'.feeds == s.feeds && s'.feedClaims == s.feedClaims && s'.fundedFeeds == s.fundedFeeds
    requires s'.queries == s.queries[id.query := QueryOf(s, id.query).(log := QueryOf(s', id.query).log)]
    requires G.Rounds(s.gov, id) > 0 ==> QueryOf(s', id.query).log == QueryOf(s, id.query).log
    requires G.Rounds(s.gov, id) == 0 ==>
      D.DisputesReport(QueryOf(s, id.query).log, QueryOf(s', id.query).log, s.now, id.timestamp)
    ensures TipsOk(s', h) && FeedsOk(s', h) && CrossOk(s')
  {
    hide TipsOk, FeedsOk, CrossOk, GovOk;
    if G.Rounds(s.gov, id) > 0 {
      AllTips(s, h, id.query);
      TipsUpdate(s, s', h, h, id.query);
      FeedsLater(s, s', h, h);
      RoundsAfterOpen(s, s', h, id, fee, who);
      CrossFurther(s, s', id);
    } else {
      var i := L.Find(QueryOf(s, id.query).log, id.timestamp).value;
      DisputeKeepsTips(s, s', h, id.query, i);
      DisputeKeepsFeeds(s, s', h, id.query, i);
      RoundsAfterOpen(s, s', h, id, fee, who);
      CrossFirst(s, s', h, id, i);
    }
  }

  lemma RoundsAfterOpen(s: State, s': State, h: History, id: G.DisputeId, fee: nat, who: UserId)
    requires GovOk(s, h) && D.Opens(s.gov, s'.gov, s.now, id, fee, who)
    ensures G.Rounds(s'.gov, id) > 0
    ensures forall d :: d != id ==> G.Rounds(s'.gov, d) == G.Rounds(s.gov, d)
    ensures s'.gov.disputes.Keys == s.gov.disputes.Keys + {id}
    ensures G.Rounds(s.gov, id) > 0 ==> id in s.gov.disputes
  {
    hide D.CountsInv, D.EscrowInv, D.PendingInv, V.BallotInv, V.OutboxInv, ExecutionsOk;
  }

  lemma CrossFurther(s: State, s': State, id: G.DisputeId)
    requires CrossOk(s) && G.Rounds(s.gov, id) > 0 && id in s.gov.disputes
    requires forall q :: QueryOf(s', q).log == QueryOf(s, q).log
    requires G.Rounds(s'.gov, id) > 0 && forall d :: d != id ==> G.Rounds(s'.gov, d) == G.Rounds(s.gov, d)
    requires s'.gov.disputes.Keys == s.gov.disputes.Keys + {id}
    ensures CrossOk(s')
  {
    hide G.Rounds;
    forall q ensures ReportsAt(QueryOf(s', q).log, s'.gov, q) {
      assert ReportsAt(QueryOf(s, q).log, s.gov, q);
      forall i | 0 <= i < |QueryOf(s', q).log| ensures ReportAt(QueryOf(s', q).log, s'.gov, q, i) {
        assert ReportAt(QueryOf(s, q).log, s.gov, q, i);
      }
    }
    assert forall d :: d in s'.gov.disputes ==> d in s.gov.disputes;
  }

  lemma CrossFirst(s: State, s': State, h: History, id: G.DisputeId, i: nat)
    requires CrossOk(s) && TipsOk(s', h)
    requires i < |QueryOf(s, id.query).log| && QueryOf(s, id.query).log[i].time == id.timestamp
    requires QueryOf(s', id.query).log == L.Dispute(QueryOf(s, id.query).log, i)
    requires forall q :: q != id.query ==> QueryOf(s', q).log == QueryOf(s, q).log
    requires G.Rounds(s'.gov, id) > 0 && forall d :: d != id ==> G.Rounds(s'.gov, d) == G.Rounds(s.gov, d)
    requires s'.gov.disputes.Keys == s.gov.disputes.Keys + {id}
    ensures CrossOk(s')
  {
    hide TipsOk, G.Rounds;
    LogOf(s', h, id.query);
    var log' := QueryOf(s', id.query).log;
    forall q ensures ReportsAt(QueryOf(s', q).log, s'.gov, q) {
      assert ReportsAt(QueryOf(s, q).log, s.gov, q);
      forall k | 0 <= k < |QueryOf(s', q).log| ensures ReportAt(QueryOf(s', q).log, s'.gov, q, k) {
        assert ReportAt(QueryOf(s, q).log, s.gov, q, k);
        assert q == id.query && k != i ==> log'[k].time != log'[i].time;
      }
    }
    forall d | d in s'.gov.disputes ensures L.Find(QueryOf(s', d.query).log, d.timestamp).Some? {
      if d == id {
        L.FindUnique(log', i);
      } else if d.query == id.query {
        L.FindUnique(log', L.Find(QueryOf(s, d.query).log, d.timestamp).value);
      }
    }
  }

  lemma DisputeKeepsTips(s: State, s': State, h: History, q: QueryId, i: nat)
    requires TipsOk(s, h) && s'.now == s.now && i < |QueryOf(s, q).log|
    requires forall r :: r != q ==> QueryOf(s', r) == QueryOf(s, r)
    requires QueryOf(s', q) == QueryOf(s, q).(log := L.Dispute(QueryOf(s, q).log, i))
    requires !QueryOf(s, q).log[i].disputed && s.now - QueryOf(s, q).log[i].time < REPORTING_LOCK
    ensures TipsOk(s', h)
  {
    hide TipsOk;
    AllTips(s, h, q);
    T.DisputeKeepsTips(QueryOf(s, q).book, QueryOf(s, q).log, s.now, HistoryOf(h, q).tips, i);
    TipsUpdate(s, s', h, h, q);
  }

  lemma DisputeKeepsFeeds(s: State, s': State, h: History, q: QueryId, i: nat)
    requires FeedsOk(s, h) && s'.now == s.now && i < |QueryOf(s, q).log|
    requires forall r :: r != q ==> QueryOf(s', r) == QueryOf(s, r)
    requires QueryOf(s', q).log == L.Dispute(QueryOf(s, q).log, i)
    requires !QueryOf(s, q).log[i].disputed && s.now - QueryOf(s, q).log[i].time < REPORTING_LOCK
    requires s'.feeds == s.feeds && s'.feedClaims == s.feedClaims && s'.fundedFeeds == s.fundedFeeds
    ensures FeedsOk(s', h)
  {
    hide F.FeedInv;
    forall f | f in s'.feeds ensures FeedAt(s', h, f) {
      assert FeedAt(s, h, f);
      if f.query == q {
        F.DisputeKeepsFeed(s.feeds[f], QueryOf(s, q).log, s.now, ClaimsOf(s, f), WindowOf(h, f), i);
      }
    }
  }

  /** A call that only touches the governance state and keeps the rounds. */
  lemma GovCallKeeps(s: State, s': State, h: History, h': History)
    requires Inv(s, h) && s' == s.(gov := s'.gov, balances := s'.balances)
    requires h' == h.(box := h'.box, outbox := h'.outbox, executions := h'.executions)
    requires GovOk(s', h')
    requires forall id :: G.Rounds(s'.gov, id) == G.Rounds(s.gov, id)
    requires s'.gov.disputes == s.gov.disputes
    requires Balance(s'.balances, TipsAccount) == Balance(s.balances, TipsAccount)
    requires Balance(s'.balances, StakingAccount) == Balance(s.balances, StakingAccount)
    ensures Inv(s', h')
  {
    hide TipsOk, FeedsOk, StakingOk, GovOk, CrossOk, MoneyOk, G.Rounds, Balance;
    TipsLater(s, s', h, h');
    FeedsLater(s, s', h, h');
    StakingLater(s, s', h, h');
    CrossRounds(s, s');
    MoneySame(s, s', h, h');
  }

  lemma VoteKeeps(s: State, h: History, who: UserId, id: G.DisputeId, choice: Option<bool>, g': G.State)
    requires Inv(s, h) && G.CastVote(s.gov, who, id, choice, ReportsOf(s, who), TipsOf(s, who)) == Ok(g')
    ensures Inv(s.(gov := g'),
      h.(box := h.box[(id, G.Rounds(s.gov, id), who) := V.Ballot(choice, ReportsOf(s, who), TipsOf(s, who))]))
  {
    hide TipsOk, FeedsOk, StakingOk, CrossOk, MoneyOk, D.GovInv, V.BallotInv, V.OutboxInv, G.CastVote, G.Rounds,
      D.Executed, Balance;
    var reports, tips := ReportsOf(s, who), TipsOf(s, who);
    var h' := h.(box := h.box[(id, G.Rounds(s.gov, id), who) := V.Ballot(choice, reports, tips)]);
    D.VoteKeeps(s.gov, Balance(s.balances, DisputeAccount), s.now, who, id, choice, reports, tips);
    V.VoteKeepsBallots(s.gov, Balance(s.balances, DisputeAccount), h.box, who, id, choice, reports, tips, s.now);
    V.VoteKeepsOutbox(s.gov, h.outbox, who, id, choice, reports, tips);
    D.VoteExecutesNothing(s.gov, who, id, choice, reports, tips);
    GovCallKeeps(s, s.(gov := g'), h, h');
  }

  lemma TallyKeeps(s: State, h: History, id: G.DisputeId, result: G.VoteResult, g': G.State)
    requires Inv(s, h) && G.TallyVotes(s.gov, id, result, s.now) == Ok(g')
    ensures Inv(s.(gov := g'), h)
  {
    hide TipsOk, FeedsOk, StakingOk, CrossOk, MoneyOk, D.GovInv, V.BallotInv, V.OutboxInv, G.TallyVotes, G.Rounds,
      D.Executed, Balance;
    D.TallyKeeps(s.gov, Balance(s.balances, DisputeAccount), s.now, id, result);
    V.TallyKeepsVotes(s.gov, h.box, h.outbox, id, result, s.now);
    D.TallyExecutesNothing(s.gov, id, result, s.now);
    GovCallKeeps(s, s.(gov := g'), h, h);
  }

  lemma SendKeeps(s: State, h: History, order: seq<G.DisputeId>, n: nat, delivered: set<G.DisputeId>)
    requires Inv(s, h) && n <= |order|
    requires G.IsDueOrder(s.gov.pending, s.now, order)
    ensures Inv(s.(gov := G.SendFirst(s.gov, DueRounds(s.gov, order), n, delivered)),
      h.(outbox := h.outbox + G.MessagesOfFirst(s.gov, DueRounds(s.gov, order), n, delivered)))
  {
    hide TipsOk, FeedsOk, StakingOk, CrossOk, MoneyOk, D.GovInv, V.BallotInv, V.OutboxInv, Balance, G.SendFirst,
      G.MessagesOfFirst;
    var due := DueRounds(s.gov, order);
    var s' := s.(gov := G.SendFirst(s.gov, due, n, delivered));
    var h' := h.(outbox := h.outbox + G.MessagesOfFirst(s.gov, due, n, delivered));
    PendingRounds(s, h);
    V.SendFirstKeeps(s.gov, Balance(s.balances, DisputeAccount), s.now, h.box, h.outbox, due, n, delivered);
    SendsExecuteNothing(s.gov, due, n, delivered);
    assert ExecutionsOk(s'.gov, h');
    GovCallKeeps(s, s', h, h');
  }

  lemma PendingRounds(s: State, h: History)
    requires GovOk(s, h)
    ensures forall id :: id in s.gov.pending ==> s.gov.pending[id].round == G.Rounds(s.gov, id)
  {
    hide D.CountsInv, D.EscrowInv, D.RoundsInv, D.PendingInv, V.BallotInv, V.OutboxInv, ExecutionsOk, G.Rounds;
    D.PendingRoundsAreLast(s.gov);
  }

  lemma {:induction false} SendsExecuteNothing(
    g: G.State, order: seq<(G.DisputeId, nat)>, n: nat, delivered: set<G.DisputeId>)
    requires n <= |order|
    ensures var g' := G.SendFirst(g, order, n, delivered);
      && g'.disputes == g.disputes && g'.rounds == g.rounds
      && forall id :: D.Executed(g', id) == D.Executed(g, id)
  {
    if n > 0 {
      SendsExecuteNothing(g, order, n - 1, delivered);
    }
  }

  lemma ExecuteKeeps(s: State, h: History, id: G.DisputeId, g': G.State, l': Balances)
    requires Inv(s, h) && G.ExecuteVote(s.gov, s.balances, id, s.now) == Ok((g', l'))
    ensures Inv(s.(gov := g', balances := l'), h.(executions := h.executions + multiset{id}))
  {
    hide TipsOk, FeedsOk, StakingOk, CrossOk, MoneyOk, D.GovInv, V.BallotInv, V.OutboxInv, Balance, D.Fees, D.FeesDue,
      G.PayRounds, G.ExecuteVote, G.Executable, G.Rounds, D.Executed;
    var s', h' := s.(gov := g', balances := l'), h.(executions := h.executions + multiset{id});
    D.ExecuteKeeps(s.gov, s.balances, s.now, id);
    D.ExecutesOnlyItself(s.gov, s.balances, s.now, id);
    V.ExecuteKeepsVotes(s.gov, s.balances, h.box, h.outbox, id, s.now);
    assert ExecutionsOk(s'.gov, h');
    GovCallKeeps(s, s', h, h');
  }

  // ---- every call, every run ----

  lemma StakingCallsKeep(cfg: Config, s: State, h: History, c: Call)
    requires c.AddRewards? || c.Deposit? || c.RequestWithdraw? || c.Withdrawn? || c.Slash?
    requires Inv(s, h) && Apply(cfg, s, c).Ok?
    ensures Inv(Apply(cfg, s, c).value, Record(cfg, s, h, c))
  {
    hide Inv, EnvFor, S.AddRewards, S.Deposit, S.RequestWithdraw, S.Slash;
    match c
    case AddRewards(who, amount) =>
      var (st, l) := S.AddRewards(s.staking, s.balances, User(who), amount, s.now).value;
      AddRewardsKeeps(s, h, who, amount, st, l);
    case Deposit(who, amount, address) =>
      var (st, l) := S.Deposit(s.staking, s.balances, who, amount, address, EnvFor(s, who)).value;
      DepositKeeps(s, h, who, amount, address, st, l);
    case RequestWithdraw(who, amount, address) =>
      var (st, l) := S.RequestWithdraw(s.staking, s.balances, who, amount, address, EnvFor(s, who)).value;
      RequestKeeps(s, h, who, amount, address, st, l);
    case Slash(who, amount) =>
      var (st, l) := S.Slash(s.staking, s.balances, who, amount, EnvFor(s, who)).value;
      SlashKeeps(s, h, who, amount, st, l);
    case Withdrawn(who, amount) =>
      WithdrawnKeeps(s, h, who, amount, S.Withdrawn(s.staking, who, amount, s.now).value);
  }

  lemma GovernanceCallsKeep(cfg: Config, s: State, h: History, c: Call)
    requires c.BeginDispute? || c.CastVote? || c.SendVotes? || c.TallyVotes? || c.ExecuteVote?
    requires Inv(s, h) && Apply(cfg, s, c).Ok?
    ensures Inv(Apply(cfg, s, c).value, Record(cfg, s, h, c))
  {
    hide Inv, DisputeBegun, G.CastVote, G.TallyVotes, G.ExecuteVote, G.SendFirst, G.MessagesOfFirst;
    match c
    case BeginDispute(who, id, b) => BeginKeeps(cfg, s, h, who, id, b);
    case CastVote(who, id, choice) =>
      VoteKeeps(s, h, who, id, choice, G.CastVote(s.gov, who, id, choice, ReportsOf(s, who), TipsOf(s, who)).value);
    case SendVotes(order, max, delivered) => SendKeeps(s, h, order, Min(max, |order|), delivered);
    case TallyVotes(id, result) => TallyKeeps(s, h, id, result, G.TallyVotes(s.gov, id, result, s.now).value);
    case ExecuteVote(id) =>
      var (g', l') := G.ExecuteVote(s.gov, s.balances, id, s.now).value;
      ExecuteKeeps(s, h, id, g', l');
  }

  /** Every successful call keeps the whole invariant. */
  lemma ApplyKeeps(cfg: Config, s: State, h: History, c: Call)
    requires Inv(s, h) && Apply(cfg, s, c).Ok?
    ensures Inv(Apply(cfg, s, c).value, Record(cfg, s, h, c))
  {
    if c.AddRewards? || c.Deposit? || c.RequestWithdraw? || c.Withdrawn? || c.Slash? {
      hide *;
      StakingCallsKeep(cfg, s, h, c);
    } else if c.BeginDispute? || c.CastVote? || c.SendVotes? || c.TallyVotes? || c.ExecuteVote? {
      hide *;
      GovernanceCallsKeep(cfg, s, h, c);
    } else {
      AutopayCallsKeep(cfg, s, h, c);
    }
  }

  lemma AutopayCallsKeep(cfg: Config, s: State, h: History, c: Call)
    requires !c.AddRewards? && !c.Deposit? && !c.RequestWithdraw? && !c.Withdrawn? && !c.Slash?
    requires !c.BeginDispute? && !c.CastVote? && !c.SendVotes? && !c.TallyVotes? && !c.ExecuteVote?
    requires Inv(s, h) && Apply(cfg, s, c).Ok?
    ensures Inv(Apply(cfg, s, c).value, Record(cfg, s, h, c))
  {
    hide Inv, Tipped, Submitted, TipsClaimed, FeedFunded, FeedSetUp, F.ClaimFeed, PayClaim, F.Add, F.WindowClaims,
      T.ClaimAll, T.ClaimedAll, T.Payouts, T.TipInv;
    var s', h' := Apply(cfg, s, c).value, Record(cfg, s, h, c);
    match c
    case Advance(_) => IdleKeeps(s, s', h);
    case SetParameters(_, _) => IdleKeeps(s, s', h);
    case Submit(who, q, value, nonce) => SubmitKeeps(s, h, who, q, value, nonce);
    case Tip(who, q, amount) => TipKeeps(s, h, who, q, amount, s');
    case ClaimTips(who, q, ts) => ClaimTipsKeeps(cfg, s, h, who, q, ts, s', h');
    case SetupFeed(who, f, amount) =>
      SetupKeeps(s, h, f, FeedSetUp(s, f).value);
      if amount > 0 {
        FundKeeps(FeedSetUp(s, f).value, h, who, f, amount);
      }
    case FundFeed(who, f, amount) => FundKeeps(s, h, who, f, amount);
    case ClaimFeed(who, f, ts) => ClaimFeedKeeps(cfg, s, h, who, f, ts, s', h');
  }

  lemma IdleKeeps(s: State, s': State, h: History)
    requires Inv(s, h) && s.now <= s'.now
    requires s' == s.(now := s'.now, stakeAmount := s'.stakeAmount, disputeFee := s'.disputeFee)
    ensures Inv(s', h)
  {
    hide TipsOk, FeedsOk, StakingOk, GovOk, CrossOk, MoneyOk;
    TipsLater(s, s', h, h);
    FeedsLater(s, s', h, h);
    StakingLater(s, s', h, h);
    GovLater(s, s', h, h);
    CrossSame(s, s');
    MoneySame(s, s', h, h);
  }

  /** The storage and the history after the calls of a run; a failed call changes neither. */
  ghost function Run(cfg: Config, s: State, h: History, calls: seq<Call>): (State, History) {
    if calls == [] then (s, h)
    else
      var (s1, h1) := Run(cfg, s, h, calls[..|calls| - 1]);
      var c := calls[|calls| - 1];
      if Apply(cfg, s1, c).Ok? then (Apply(cfg, s1, c).value, Record(cfg, s1, h1, c)) else (s1, h1)
  }

  /** In every state of every run the whole invariant holds. */
  lemma {:induction false} RunKeeps(cfg: Config, s: State, h: History, calls: seq<Call>)
    requires Inv(s, h)
    ensures Inv(Run(cfg, s, h, calls).0, Run(cfg, s, h, calls).1)
  {
    hide Inv, Apply;
    if calls != [] {
      var n := |calls| - 1;
      RunKeeps(cfg, s, h, calls[..n]);
      var (s1, h1) := Run(cfg, s, h, calls[..n]);
      if Apply(cfg, s1, calls[n]).Ok? {
        ApplyKeeps(cfg, s1, h1, calls[n]);
      }
    }
  }
}
