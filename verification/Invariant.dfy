/** The pallet's invariant over its storage and the history of a run, component by component. */
module Invariant {
  import opened Prelude
  import opened Pallet
  import opened Sums
  import L = ReportLog
  import B = TipBook
  import T = TipHistory
  import F = Feeds
  import S = Staking
  import Solvency
  import R = StakingReports
  import G = Governance
  import D = Disputes
  import V = Ballots

  /** What a run did to one query's tips: which were paid, the amounts tipped and paid out, and every
      single payment of a tip. */
  datatype QueryHistory = QueryHistory(tips: T.History, tipped: nat, paid: nat, payouts: multiset<nat>)

  datatype History = History(
    queries: map<QueryId, QueryHistory>, byWindow: map<FeedId, set<Timestamp>>,
    box: V.Box, outbox: V.Outbox, executions: multiset<G.DisputeId>,
    unreturned: int, // locked balances that a withdrawal left behind
    cut: nat) // what clamped reward debts cut off

  const NO_HISTORY := QueryHistory(T.NOTHING_PAID, 0, 0, multiset{})

  function HistoryOf(h: History, q: QueryId): QueryHistory {
    if q in h.queries then h.queries[q] else NO_HISTORY
  }

  function WindowOf(h: History, f: FeedId): set<Timestamp> {
    if f in h.byWindow then h.byWindow[f] else {}
  }

  /** What a successful call adds to the history. */
  ghost function Record(cfg: Config, s: State, h: History, c: Call): History
    requires Apply(cfg, s, c).Ok?
  {
    match c
    case Tip(who, q, amount) =>
      var qh := HistoryOf(h, q);
      h.(queries := h.queries[q := qh.(tipped := qh.tipped + amount)])
    case ClaimTips(who, q, ts) =>
      var query, qh := QueryOf(s, q), HistoryOf(h, q);
      h.(queries := h.queries[q := qh.(
        tips := T.ClaimedAll(query.book, query.log, s.now, qh.tips, ts, who),
        paid := qh.paid + T.ClaimAll(query.book, query.log, s.now, ts, who).value.1,
        payouts := qh.payouts + T.Payouts(query.book, query.log, ts))])
    case ClaimFeed(who, f, ts) =>
      if s.feeds[f].interval == 0 then h
      else h.(byWindow := h.byWindow[f :=
        WindowOf(h, f) + F.WindowClaims(s.feeds[f], QueryOf(s, f.query).log, ts)])
    case CastVote(who, id, choice) =>
      h.(box := h.box[(id, G.Rounds(s.gov, id), who) := V.Ballot(choice, ReportsOf(s, who), TipsOf(s, who))])
    case SendVotes(order, max, delivered) =>
      h.(outbox := h.outbox
        + G.MessagesOfFirst(s.gov, DueRounds(s.gov, order), Min(max, |order|), delivered))
    case ExecuteVote(id) => h.(executions := h.executions + multiset{id})
    case Withdrawn(who, amount) => h.(unreturned := h.unreturned + s.staking.stakers[who].locked - amount)
    case Deposit(who, _, _) => h.(cut := h.cut + R.NewlyCut(Apply(cfg, s, c).value.staking, who))
    case RequestWithdraw(who, _, _) => h.(cut := h.cut + R.NewlyCut(Apply(cfg, s, c).value.staking, who))
    case Slash(who, amount) => h.(cut := h.cut + R.SlashCut(s.staking, Apply(cfg, s, c).value.staking, who, amount))
    case _ => h
  }

  // ---- the components of the invariant ----

  ghost predicate TipsAt(s: State, h: History, q: QueryId) {
    var query, qh := QueryOf(s, q), HistoryOf(h, q);
    && T.TipInv(query.book, query.log, s.now, qh.tips)
    && qh.tipped == B.Deposited(query.book)
    && qh.paid == B.Paid(query.book, qh.tips.paid)
    && qh.payouts == multiset(qh.tips.paid)
  }

  ghost predicate TipsOk(s: State, h: History) {
    forall q :: TipsAt(s, h, q)
  }

  ghost predicate FeedAt(s: State, h: History, f: FeedId)
    requires f in s.feeds
  {
    && F.FeedInv(s.feeds[f], QueryOf(s, f.query).log, s.now, ClaimsOf(s, f), WindowOf(h, f))
    && (f in s.fundedFeeds <==> s.feeds[f].balance > 0)
  }

  ghost predicate FeedsOk(s: State, h: History) {
    && (forall f :: f in s.feeds ==> FeedAt(s, h, f))
    && s.fundedFeeds <= s.feeds.Keys && s.feedClaims.Keys <= s.feeds.Keys && h.byWindow.Keys <= s.feeds.Keys
  }

  ghost predicate StakingOk(s: State, h: History) {
    && Solvency.StakingInv(s.staking, Balance(s.balances, StakingAccount) + h.cut, s.now)
    && R.LockedGap(s.staking) == h.unreturned
  }

  ghost predicate ExecutionsOk(g: G.State, h: History) {
    forall id :: h.executions[id] == if D.Executed(g, id) then 1 else 0
  }

  ghost predicate GovOk(s: State, h: History) {
    && D.GovInv(s.gov, Balance(s.balances, DisputeAccount), s.now)
    && V.BallotInv(s.gov, h.box)
    && V.OutboxInv(s.gov, h.outbox)
    && ExecutionsOk(s.gov, h)
  }

  /** A report is disputed exactly when its dispute has a round. */
  ghost predicate ReportAt(log: L.Log, g: G.State, q: QueryId, i: nat)
    requires i < |log|
  {
    log[i].disputed <==> G.Rounds(g, G.DisputeId(q, log[i].time)) > 0
  }

  ghost predicate ReportsAt(log: L.Log, g: G.State, q: QueryId) {
    forall i :: 0 <= i < |log| ==> ReportAt(log, g, q, i)
  }

  ghost predicate CrossOk(s: State) {
    && (forall q :: ReportsAt(QueryOf(s, q).log, s.gov, q))
    && (forall id :: id in s.gov.disputes ==> L.Find(QueryOf(s, id.query).log, id.timestamp).Some?)
  }

  /** Unpaid tips, per query. */
  ghost function TipHoldings(s: State, h: History): map<QueryId, int> {
    map q | q in s.queries :: HistoryOf(h, q).tipped - HistoryOf(h, q).paid
  }

  ghost function FeedHoldings(s: State): map<FeedId, int> {
    map f | f in s.feeds :: s.feeds[f].balance
  }

  /** The tips account covers all feed balances and all unpaid tips. */
  ghost predicate MoneyOk(s: State, h: History) {
    && Sum(TipHoldings(s, h)) + Sum(FeedHoldings(s)) <= Balance(s.balances, TipsAccount)
    && h.queries.Keys <= s.queries.Keys
  }

  ghost predicate Inv(s: State, h: History) {
    && TipsOk(s, h) && FeedsOk(s, h) && StakingOk(s, h) && GovOk(s, h) && CrossOk(s) && MoneyOk(s, h)
  }

  // ---- the start of a run ----

  /** Nothing stored yet; the clock is at least a day old and the accounts hold anything. */
  ghost predicate Initial(s: State) {
    && s.now >= DAYS
    && s.queries == map[] && s.feeds == map[] && s.feedClaims == map[] && s.fundedFeeds == {}
    && s.staking == S.State(s.staking.decimals, 0, 0, 0, 0, 0, 0, 0, map[])
    && s.gov == G.State(map[], map[], map[], map[], map[], 0, {}, map[])
  }

  const NO_RUN := History(map[], map[], map[], [], multiset{}, 0, 0)

  lemma InitialInv(s: State)
    requires Initial(s)
    ensures Inv(s, NO_RUN)
  {
    hide StakingOk, GovOk;
    InitialStaking(s);
    InitialGov(s);
    assert TipHoldings(s, NO_RUN) == map[] && FeedHoldings(s) == map[];
    forall q ensures TipsAt(s, NO_RUN, q) {
    }
  }

  lemma InitialStaking(s: State)
    requires Initial(s)
    ensures StakingOk(s, NO_RUN)
  {
    Solvency.TotalEmpty(Solvency.StakeOf);
    Solvency.TotalEmpty(Solvency.DebtOf);
    Solvency.TotalEmpty(Solvency.FlagOf);
    Solvency.TotalEmpty(Solvency.LockedOf);
    Solvency.TotalEmpty(Solvency.OwedAt(s.staking.decimals, 0));
  }

  lemma InitialGov(s: State)
    requires Initial(s)
    ensures GovOk(s, NO_RUN)
  {
    D.NothingOpened(s.now, Balance(s.balances, DisputeAccount));
  }

  // ---- what a component does not depend on ----

  lemma TipsUpdate(s: State, s': State, h: History, h': History, q: QueryId)
    requires TipsOk(s, h) && s'.now == s.now
    requires forall r :: r != q ==> QueryOf(s', r) == QueryOf(s, r) && HistoryOf(h', r) == HistoryOf(h, r)
    requires TipsAt(s', h', q)
    ensures TipsOk(s', h')
  {
    forall r ensures TipsAt(s', h', r) {
      assert TipsAt(s, h, r);
    }
  }

  lemma TipsLater(s: State, s': State, h: History, h': History)
    requires TipsOk(s, h) && s.now <= s'.now && s'.queries == s.queries && h'.queries == h.queries
    ensures TipsOk(s', h')
  {
    forall q ensures TipsAt(s', h', q) {
      assert TipsAt(s, h, q);
      var query := QueryOf(s, q);
      T.AdvanceKeepsTips(query.book, query.log, s.now, s'.now, HistoryOf(h, q).tips);
    }
  }

  lemma FeedsLater(s: State, s': State, h: History, h': History)
    requires FeedsOk(s, h) && s.now <= s'.now
    requires forall q :: QueryOf(s', q).log == QueryOf(s, q).log
    requires s'.feeds == s.feeds && s'.feedClaims == s.feedClaims && s'.fundedFeeds == s.fundedFeeds
    requires h'.byWindow == h.byWindow
    ensures FeedsOk(s', h')
  {
    forall f | f in s'.feeds ensures FeedAt(s', h', f) {
      assert FeedAt(s, h, f);
      F.BalanceChangeKeepsFeed(s.feeds[f], QueryOf(s, f.query).log, s.now, s'.now, ClaimsOf(s, f), WindowOf(h, f),
        s.feeds[f].balance);
    }
  }

  lemma FeedsUpdate(s: State, s': State, h: History, h': History, f: FeedId)
    requires FeedsOk(s, h) && s'.now == s.now && s'.queries == s.queries
    requires s'.feeds.Keys == s.feeds.Keys + {f} && s'.feedClaims.Keys <= s.feedClaims.Keys + {f}
    requires s'.fundedFeeds <= s.fundedFeeds + {f} && h'.byWindow.Keys <= h.byWindow.Keys + {f}
    requires forall e :: e != f && e in s.feeds ==> s'.feeds[e] == s.feeds[e]
    requires forall e :: e != f ==> ClaimsOf(s', e) == ClaimsOf(s, e) && WindowOf(h', e) == WindowOf(h, e)
    requires forall e :: e != f ==> (e in s'.fundedFeeds <==> e in s.fundedFeeds)
    requires FeedAt(s', h', f)
    ensures FeedsOk(s', h')
  {
    forall e | e in s'.feeds ensures FeedAt(s', h', e) {
      assert e in s.feeds ==> FeedAt(s, h, e);
    }
  }

  lemma StakingLater(s: State, s': State, h: History, h': History)
    requires StakingOk(s, h) && s.now <= s'.now && s'.staking == s.staking
    requires h'.unreturned == h.unreturned && h'.cut == h.cut
    requires Balance(s.balances, StakingAccount) <= Balance(s'.balances, StakingAccount)
    ensures StakingOk(s', h')
  {
    hide Solvency.Total, Balance;
  }

  lemma GovLater(s: State, s': State, h: History, h': History)
    requires GovOk(s, h) && s.now <= s'.now && s'.gov == s.gov
    requires h'.box == h.box && h'.outbox == h.outbox && h'.executions == h.executions
    requires Balance(s.balances, DisputeAccount) <= Balance(s'.balances, DisputeAccount)
    ensures GovOk(s', h')
  {
    hide D.GovInv, V.BallotInv, V.OutboxInv, Balance;
    D.AdvanceKeeps(s.gov, Balance(s.balances, DisputeAccount), Balance(s'.balances, DisputeAccount), s.now, s'.now);
  }

  lemma CrossSame(s: State, s': State)
    requires CrossOk(s) && s'.gov == s.gov
    requires forall q :: QueryOf(s', q).log == QueryOf(s, q).log
    ensures CrossOk(s')
  {
    forall q ensures ReportsAt(QueryOf(s', q).log, s'.gov, q) {
      assert ReportsAt(QueryOf(s, q).log, s.gov, q);
    }
  }

  lemma CrossRounds(s: State, s': State)
    requires CrossOk(s)
    requires forall q :: QueryOf(s', q).log == QueryOf(s, q).log
    requires forall id :: G.Rounds(s'.gov, id) == G.Rounds(s.gov, id)
    requires s'.gov.disputes == s.gov.disputes
    ensures CrossOk(s')
  {
    hide G.Rounds;
    forall q ensures ReportsAt(QueryOf(s', q).log, s'.gov, q) {
      assert ReportsAt(QueryOf(s, q).log, s.gov, q);
      forall i | 0 <= i < |QueryOf(s', q).log| ensures ReportAt(QueryOf(s', q).log, s'.gov, q, i) {
        assert ReportAt(QueryOf(s, q).log, s.gov, q, i);
      }
    }
  }

  lemma MoneySame(s: State, s': State, h: History, h': History)
    requires MoneyOk(s, h) && s'.queries.Keys == s.queries.Keys && s'.feeds == s.feeds && h'.queries == h.queries
    requires Balance(s.balances, TipsAccount) <= Balance(s'.balances, TipsAccount)
    ensures MoneyOk(s', h')
  {
    hide Sum, Balance;
    assert TipHoldings(s', h') == TipHoldings(s, h);
    assert FeedHoldings(s') == FeedHoldings(s);
  }

  lemma HoldingsAfter(s: State, s': State, h: History, h': History, q: QueryId)
    requires s'.queries.Keys == s.queries.Keys + {q}
    requires forall r :: r != q ==> HistoryOf(h', r) == HistoryOf(h, r)
    ensures TipHoldings(s', h') == TipHoldings(s, h)[q := HistoryOf(h', q).tipped - HistoryOf(h', q).paid]
  {
    hide HistoryOf;
  }

  lemma MoneyQuery(s: State, s': State, h: History, h': History, q: QueryId)
    requires MoneyOk(s, h) && s'.queries.Keys == s.queries.Keys + {q} && s'.feeds == s.feeds
    requires h'.queries.Keys <= h.queries.Keys + {q}
    requires forall r :: r != q ==> HistoryOf(h', r) == HistoryOf(h, r)
    requires Balance(s'.balances, TipsAccount) - Balance(s.balances, TipsAccount) ==
      (HistoryOf(h', q).tipped - HistoryOf(h', q).paid) - (HistoryOf(h, q).tipped - HistoryOf(h, q).paid)
    ensures MoneyOk(s', h')
  {
    hide Sum, Balance;
    var v := HistoryOf(h', q).tipped - HistoryOf(h', q).paid;
    HoldingsAfter(s, s', h, h', q);
    SumUpdate(TipHoldings(s, h), q, v);
    assert FeedHoldings(s') == FeedHoldings(s);
    assert q !in s.queries ==> HistoryOf(h, q) == NO_HISTORY;
  }

  lemma MoneyFeed(s: State, s': State, h: History, h': History, f: FeedId)
    requires MoneyOk(s, h) && s'.queries == s.queries && h'.queries == h.queries
    requires s'.feeds.Keys == s.feeds.Keys + {f}
    requires forall e :: e != f && e in s.feeds ==> s'.feeds[e] == s.feeds[e]
    requires Balance(s'.balances, TipsAccount) - Balance(s.balances, TipsAccount) ==
      s'.feeds[f].balance - (if f in s.feeds then s.feeds[f].balance else 0)
    ensures MoneyOk(s', h')
  {
    hide Sum, Balance;
    assert TipHoldings(s', h') == TipHoldings(s, h);
    assert FeedHoldings(s') == FeedHoldings(s)[f := s'.feeds[f].balance];
    SumUpdate(FeedHoldings(s), f, s'.feeds[f].balance);
  }
}
