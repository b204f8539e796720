/** What holds in every state of every run from an empty pallet. */
module Guarantees {
  import opened Prelude
  import opened Pallet
  import opened Invariant
  import opened Runs
  import Freezing
  import opened Sums
  import L = ReportLog
  import B = TipBook
  import T = TipHistory
  import F = Feeds
  import S = Staking
  import Shares
  import Solvency
  import R = StakingReports
  import G = Governance
  import D = Disputes
  import V = Ballots

  /** `s` is reached by `calls` from the empty state `s0`, with the history `h`. */
  ghost predicate Reached(cfg: Config, s0: State, calls: seq<Call>, s: State, h: History) {
    Initial(s0) && Run(cfg, s0, NO_RUN, calls) == (s, h)
  }

  lemma ReachedInv(cfg: Config, s0: State, calls: seq<Call>, s: State, h: History)
    requires Reached(cfg, s0, calls, s, h)
    ensures Inv(s, h)
  {
    hide Inv, Run;
    InitialInv(s0);
    RunKeeps(cfg, s0, NO_RUN, calls);
  }

  // ---- autopay ----

  /** No tip of any query was ever paid twice; what was paid out is the sum of the deposits of the paid
      tips, and never more than what was tipped. */
  lemma TipsPaidAtMostOnce(cfg: Config, s0: State, calls: seq<Call>, s: State, h: History, q: QueryId)
    requires Reached(cfg, s0, calls, s, h)
    ensures forall k :: HistoryOf(h, q).payouts[k] <= 1
    ensures forall k :: k in HistoryOf(h, q).payouts <==> k in HistoryOf(h, q).tips.paid
    ensures HistoryOf(h, q).paid == B.Paid(QueryOf(s, q).book, HistoryOf(h, q).tips.paid)
    ensures HistoryOf(h, q).paid <= HistoryOf(h, q).tipped
    ensures HistoryOf(h, q).tipped == B.Deposited(QueryOf(s, q).book)
  {
    hide Run, FeedsOk, StakingOk, GovOk, CrossOk, MoneyOk, B.Paid, B.Deposited, T.TipInv;
    ReachedInv(cfg, s0, calls, s, h);
    assert TipsAt(s, h, q);
    T.PaidWithinDeposited(QueryOf(s, q).book, QueryOf(s, q).log, s.now, HistoryOf(h, q).tips);
  }

  /** The tips account covers every feed's balance and every unpaid tip, so a claim never lacks funds. */
  lemma TipsAccountCovers(cfg: Config, s0: State, calls: seq<Call>, s: State, h: History)
    requires Reached(cfg, s0, calls, s, h)
    ensures Sum(TipHoldings(s, h)) + Sum(FeedHoldings(s)) <= Balance(s.balances, TipsAccount)
    ensures forall q :: q in s.queries ==> 0 <= TipHoldings(s, h)[q] <= Balance(s.balances, TipsAccount)
    ensures forall f :: f in s.feeds ==> FeedHoldings(s)[f] <= Balance(s.balances, TipsAccount)
  {
    hide Run, TipsOk, FeedsOk, StakingOk, GovOk, CrossOk, Sum, Balance, Reached;
    ReachedInv(cfg, s0, calls, s, h);
    forall q | q in s.queries ensures TipHoldings(s, h)[q] >= 0 {
      TipsPaidAtMostOnce(cfg, s0, calls, s, h, q);
    }
    SumNonNegative(TipHoldings(s, h));
    SumNonNegative(FeedHoldings(s));
  }

  /** A batch of tip claims that passes its checks is always funded. */
  lemma TipClaimsAreFunded(
    cfg: Config, s0: State, calls: seq<Call>, s: State, h: History, q: QueryId, ts: seq<Timestamp>, who: UserId)
    requires Reached(cfg, s0, calls, s, h) && q in s.queries
    requires T.ClaimAll(QueryOf(s, q).book, QueryOf(s, q).log, s.now, ts, who).Ok?
    ensures T.ClaimAll(QueryOf(s, q).book, QueryOf(s, q).log, s.now, ts, who).value.1
      <= HistoryOf(h, q).tipped - HistoryOf(h, q).paid
      <= Balance(s.balances, TipsAccount)
  {
    hide Run, FeedsOk, StakingOk, GovOk, CrossOk, MoneyOk, Sum, Balance, B.Paid, B.Deposited, T.TipInv, T.ClaimAll,
      T.ClaimedAll;
    ReachedInv(cfg, s0, calls, s, h);
    TipsAccountCovers(cfg, s0, calls, s, h);
    assert TipHoldings(s, h)[q] <= Balance(s.balances, TipsAccount);
    assert TipsAt(s, h, q);
    var query, qh := QueryOf(s, q), HistoryOf(h, q);
    T.ClaimAllPaysOnce(query.book, query.log, s.now, qh.tips, ts, who);
    T.PaidWithinDeposited(T.ClaimAll(query.book, query.log, s.now, ts, who).value.0, query.log, s.now,
      T.ClaimedAll(query.book, query.log, s.now, qh.tips, ts, who));
  }

  /** A feed pays at most one report per interval by the window rule, and at most one at all when it
      has no price threshold; it is listed as funded exactly when its balance is positive. */
  lemma FeedsPayOncePerInterval(
    cfg: Config, s0: State, calls: seq<Call>, s: State, h: History, f: FeedId, t1: Timestamp, t2: Timestamp)
    requires Reached(cfg, s0, calls, s, h) && f in s.feeds
    requires t1 != t2
    ensures f in s.fundedFeeds <==> s.feeds[f].balance > 0
    ensures s.feeds[f].interval > 0
    ensures t1 in WindowOf(h, f) && t2 in WindowOf(h, f) ==> OtherInterval(s.feeds[f], t1, t2)
    ensures s.feeds[f].priceThreshold == 0 && t1 in ClaimsOf(s, f) && t2 in ClaimsOf(s, f) ==>
      OtherInterval(s.feeds[f], t1, t2)
  {
    hide Run, TipsOk, StakingOk, GovOk, CrossOk, MoneyOk;
    ReachedInv(cfg, s0, calls, s, h);
    assert FeedAt(s, h, f);
    PaidInOtherInterval(s.feeds[f], QueryOf(s, f.query).log, s.now, ClaimsOf(s, f), WindowOf(h, f), t1, t2);
  }

  ghost predicate OtherInterval(feed: F.Feed, t1: Timestamp, t2: Timestamp) {
    && feed.interval > 0 && feed.startTime <= t1 && feed.startTime <= t2
    && F.IntervalStart(feed, t1) != F.IntervalStart(feed, t2)
  }

  lemma PaidInOtherInterval(
    feed: F.Feed, log: L.Log, now: Timestamp, claimed: set<Timestamp>, byWindow: set<Timestamp>,
    t1: Timestamp, t2: Timestamp)
    requires F.FeedInv(feed, log, now, claimed, byWindow) && t1 != t2
    ensures t1 in byWindow && t2 in byWindow ==> OtherInterval(feed, t1, t2)
    ensures feed.priceThreshold == 0 && t1 in claimed && t2 in claimed ==> OtherInterval(feed, t1, t2)
  {
    hide L.Find, L.PrevTime;
    if t1 in byWindow && t2 in byWindow {
      assert F.PaidInWindow(feed, log, t1) && F.PaidInWindow(feed, log, t2);
      if F.IntervalStart(feed, t1) == F.IntervalStart(feed, t2) {
        F.OneWindowPaymentPerInterval(feed, log, now, claimed, byWindow, t1, t2);
      }
    }
  }

  /** A successful claim raises the reporter's balance by exactly what the view returned before it. */
  lemma ClaimPaysTheView(cfg: Config, s: State, h: History, who: UserId, f: FeedId, ts: seq<Timestamp>)
    requires Inv(s, h) && Apply(cfg, s, ClaimFeed(who, f, ts)).Ok?
    ensures f in s.feeds
    ensures Balance(Apply(cfg, s, ClaimFeed(who, f, ts)).value.balances, User(who)) ==
      Balance(s.balances, User(who))
      + F.ViewAmount(Some(s.feeds[f]), QueryOf(s, f.query).log, ClaimsOf(s, f), s.now, ts, cfg.fee)
  {
    hide TipsOk, FeedsOk, StakingOk, GovOk, CrossOk, MoneyOk, PayClaim, F.ClaimFeed, F.ViewAmount, F.FeeOf, Balance;
    var amount :=
      F.ClaimFeed(s.feeds[f], QueryOf(s, f.query).log, ClaimsOf(s, f), s.now, ts, who).value;
    PayClaimPays(cfg, s, h, who, amount);
    F.ClaimAgreesWithView(s.feeds[f], QueryOf(s, f.query).log, ClaimsOf(s, f), s.now, ts, who, cfg.fee);
  }

  // ---- staking ----

  /** The totals are the sums over the stakers, no debt exceeds its share, and the staking account
      covers everything owed but what clamped debts cut off. */
  lemma StakersAreCovered(cfg: Config, s0: State, calls: seq<Call>, s: State, h: History)
    requires Reached(cfg, s0, calls, s, h)
    ensures var st := s.staking;
      && Solvency.Total(st.stakers, Solvency.OwedAt(st.decimals, st.acc)) <= Balance(s.balances, StakingAccount) + h.cut
      && Solvency.TotalsAgree(st)
      && st.totalDebt <= Shares.Share(st.decimals, st.acc, st.totalStake)
      && (forall w :: w in st.stakers ==>
            st.stakers[w].rewardDebt <= Shares.Share(st.decimals, st.acc, st.stakers[w].staked))
  {
    hide Run, TipsOk, FeedsOk, GovOk, CrossOk, MoneyOk, Balance, Shares.Share, Solvency.Total;
    ReachedInv(cfg, s0, calls, s, h);
    Solvency.DebtsWithinShares(s.staking, Balance(s.balances, StakingAccount) + h.cut, s.now);
  }

  /** What one call cuts off the reward debts, and what it leaves locked without a withdrawal. */
  ghost function CutBy(cfg: Config, s: State, c: Call): nat {
    if Apply(cfg, s, c).Err? then 0
    else
      match c
      case Deposit(who, _, _) => R.NewlyCut(Apply(cfg, s, c).value.staking, who)
      case RequestWithdraw(who, _, _) => R.NewlyCut(Apply(cfg, s, c).value.staking, who)
      case Slash(who, amount) => R.SlashCut(s.staking, Apply(cfg, s, c).value.staking, who, amount)
      case _ => 0
  }

  ghost function LeftBy(cfg: Config, s: State, c: Call): nat {
    if Apply(cfg, s, c).Err? || !c.Withdrawn? then 0
    else s.staking.stakers[c.who].locked - c.amount
  }

  /** The last call of a run, failed or not. */
  lemma RunStep(cfg: Config, s: State, h: History, calls: seq<Call>)
    requires calls != []
    ensures var n := |calls| - 1;
      var (s1, h1) := Run(cfg, s, h, calls[..n]);
      && Run(cfg, s, h, calls).1.cut == h1.cut + CutBy(cfg, s1, calls[n])
      && Run(cfg, s, h, calls).1.unreturned == h1.unreturned + LeftBy(cfg, s1, calls[n])
  {
    hide Apply, Record, CutBy, LeftBy;
    var n := |calls| - 1;
    var (s1, h1) := Run(cfg, s, h, calls[..n]);
    if Apply(cfg, s1, calls[n]).Ok? {
      RecordStep(cfg, s1, h1, calls[n]);
    } else {
      FailedStep(cfg, s1, calls[n]);
    }
  }

  lemma FailedStep(cfg: Config, s: State, c: Call)
    requires Apply(cfg, s, c).Err?
    ensures CutBy(cfg, s, c) == 0 && LeftBy(cfg, s, c) == 0
  {
    hide Apply;
  }

  lemma RecordStep(cfg: Config, s: State, h: History, c: Call)
    requires Apply(cfg, s, c).Ok?
    ensures Record(cfg, s, h, c).cut == h.cut + CutBy(cfg, s, c)
    ensures Record(cfg, s, h, c).unreturned == h.unreturned + LeftBy(cfg, s, c)
  {
    hide R.NewlyCut, R.SlashCut;
    if !c.Withdrawn? {
      hide Apply;
    }
  }

  lemma RunOfNothing(cfg: Config, s: State, h: History)
    ensures Run(cfg, s, h, []) == (s, h)
  {
  }

  /** The stake change that the call would make gets a debt that fits a balance; read before the call. */
  predicate Fits(s: State, c: Call) {
    var st, funds := s.staking, Balance(s.balances, StakingAccount);
    match c
    case Deposit(who, amount, _) => R.DebtFits(st, funds, s.now, R.StakeIn(st, who) + amount)
    case RequestWithdraw(who, amount, _) => R.DebtFits(st, funds, s.now, SatSub(R.StakeIn(st, who), amount))
    case Slash(who, amount) =>
      || R.LockIn(st, who) >= amount
      || R.DebtFits(st, funds, s.now, SatSub(R.StakeIn(st, who), amount - R.LockIn(st, who)))
    case _ => true
  }

  /** A successful call cuts nothing off if and only if its debt fits beforehand. */
  lemma CutsNothingIffFits(cfg: Config, s: State, c: Call)
    requires Apply(cfg, s, c).Ok?
    ensures CutBy(cfg, s, c) == 0 <==> Fits(s, c)
  {
    hide R.NewlyCut, R.SlashCut, R.DebtFits, S.Deposit, S.RequestWithdraw, S.Slash, Balance;
    match c
    case Deposit(who, amount, address) =>
      R.DepositCutIff(s.staking, s.balances, who, amount, address, EnvFor(s, who));
    case RequestWithdraw(who, amount, address) =>
      R.RequestCutIff(s.staking, s.balances, who, amount, address, EnvFor(s, who));
    case Slash(who, amount) => R.SlashCutIff(s.staking, s.balances, who, amount, EnvFor(s, who));
    case _ =>
  }

  /** Call `n` of the run fails or fits. */
  ghost predicate FitsAt(cfg: Config, s: State, h: History, calls: seq<Call>, n: nat)
    requires n < |calls|
  {
    var s1 := Run(cfg, s, h, calls[..n]).0;
    Apply(cfg, s1, calls[n]).Ok? ==> Fits(s1, calls[n])
  }

  /** A run cuts nothing off if and only if each of its successful stake changes fits beforehand. */
  lemma {:induction false} NothingCutIff(cfg: Config, s: State, h: History, calls: seq<Call>)
    ensures Run(cfg, s, h, calls).1.cut >= h.cut
    ensures Run(cfg, s, h, calls).1.cut == h.cut <==> forall n :: 0 <= n < |calls| ==> FitsAt(cfg, s, h, calls, n)
  {
    hide Run, CutBy, LeftBy, Apply, Fits;
    if calls == [] {
      RunOfNothing(cfg, s, h);
    } else {
      var n := |calls| - 1;
      NothingCutIff(cfg, s, h, calls[..n]);
      forall k | 0 <= k < n ensures FitsAt(cfg, s, h, calls[..n], k) == FitsAt(cfg, s, h, calls, k) {
        assert calls[..n][..k] == calls[..k];
      }
      RunStep(cfg, s, h, calls);
      var s1 := Run(cfg, s, h, calls[..n]).0;
      if Apply(cfg, s1, calls[n]).Ok? {
        CutsNothingIffFits(cfg, s1, calls[n]);
      } else {
        FailedStep(cfg, s1, calls[n]);
      }
      assert FitsAt(cfg, s, h, calls, n) <==> CutBy(cfg, s1, calls[n]) == 0;
    }
  }

  /** In a run whose stake changes all fit beforehand, everything owed to the stakers is in the staking account. */
  lemma SolventUnlessClamped(cfg: Config, s0: State, calls: seq<Call>, s: State, h: History)
    requires Reached(cfg, s0, calls, s, h)
    requires forall n :: 0 <= n < |calls| ==> FitsAt(cfg, s0, NO_RUN, calls, n)
    ensures Solvency.Solvent(s.staking, Balance(s.balances, StakingAccount))
  {
    hide Run, FitsAt, Reached, Balance, Solvency.Total;
    RunOf(cfg, s0, calls, s, h);
    StakersAreCovered(cfg, s0, calls, s, h);
    NothingCutIff(cfg, s0, NO_RUN, calls);
  }

  lemma RunOf(cfg: Config, s0: State, calls: seq<Call>, s: State, h: History)
    requires Reached(cfg, s0, calls, s, h)
    ensures Run(cfg, s0, NO_RUN, calls) == (s, h)
  {
  }

  /** The stored amount to withdraw is the sum of the locked balances exactly when every withdrawal
      of the run reported the whole locked balance; otherwise it is short by what was left. */
  lemma ToWithdrawIff(cfg: Config, s0: State, calls: seq<Call>, s: State, h: History)
    requires Reached(cfg, s0, calls, s, h)
    ensures s.staking.toWithdraw <= Solvency.Total(s.staking.stakers, Solvency.LockedOf)
    ensures s.staking.toWithdraw == Solvency.Total(s.staking.stakers, Solvency.LockedOf) <==>
      forall n :: 0 <= n < |calls| ==> LeftBy(cfg, Run(cfg, s0, NO_RUN, calls[..n]).0, calls[n]) == 0
  {
    hide Run, TipsOk, FeedsOk, GovOk, CrossOk, MoneyOk, LeftBy;
    ReachedInv(cfg, s0, calls, s, h);
    NothingLeftIff(cfg, s0, NO_RUN, calls);
  }

  lemma {:induction false} NothingLeftIff(cfg: Config, s: State, h: History, calls: seq<Call>)
    ensures Run(cfg, s, h, calls).1.unreturned >= h.unreturned
    ensures Run(cfg, s, h, calls).1.unreturned == h.unreturned <==>
      forall n :: 0 <= n < |calls| ==> LeftBy(cfg, Run(cfg, s, h, calls[..n]).0, calls[n]) == 0
  {
    hide Run, CutBy, LeftBy;
    if calls == [] {
      RunOfNothing(cfg, s, h);
    } else {
      var n := |calls| - 1;
      NothingLeftIff(cfg, s, h, calls[..n]);
      forall k | 0 <= k < n ensures calls[..n][..k] == calls[..k] && calls[..n][k] == calls[k] {
      }
      RunStep(cfg, s, h, calls);
    }
  }

  /** The amount to withdraw no longer covers the staker's lock exactly when earlier withdrawals left
      more locked than all other stakers have; then no withdrawal of the staker succeeds any more, and no
      slash beyond the amount to withdraw. */
  lemma StrandedIff(cfg: Config, s0: State, calls: seq<Call>, s: State, h: History, who: UserId)
    requires Reached(cfg, s0, calls, s, h) && who in s.staking.stakers
    ensures var st, i := s.staking, s.staking.stakers[who];
      && (st.toWithdraw < i.locked <==> h.unreturned > Solvency.Total(st.stakers - {who}, Solvency.LockedOf))
      && (i.locked > 0 && i.startDate + 7 * DAYS <= s.now ==>
            forall amount: nat :: Apply(cfg, s, Withdrawn(who, amount)).Ok? <==>
              amount <= i.locked <= st.toWithdraw)
      && (forall amount: nat :: st.toWithdraw < amount && st.toWithdraw < i.locked ==>
            Apply(cfg, s, Slash(who, amount)).Err?)
  {
    hide Run, TipsOk, FeedsOk, GovOk, CrossOk, MoneyOk, Solvency.Total, Solvency.StakingInv, Balance;
    ReachedInv(cfg, s0, calls, s, h);
    Solvency.TotalRemove(s.staking.stakers, Solvency.LockedOf, who);
    forall amount: nat | s.staking.toWithdraw < amount && s.staking.toWithdraw < s.staking.stakers[who].locked
      ensures Apply(cfg, s, Slash(who, amount)).Err?
    {
      SlashNeedsWithdrawable(s.staking, s.balances, who, amount, EnvFor(s, who));
    }
  }

  lemma SlashNeedsWithdrawable(s: S.State, l: Balances, who: UserId, amount: nat, env: S.Env)
    requires who in s.stakers && s.toWithdraw < amount && s.toWithdraw < s.stakers[who].locked
    ensures S.Slash(s, l, who, amount, env).Err?
  {
    hide S.UpdateStake;
    var info := s.stakers[who];
    if info.locked < amount {
      R.StakeIgnoresWithdrawals(s, l, who, info, SatSub(info.staked, amount - info.locked), env, s.toWithdraw);
      assert s.(toWithdraw := s.toWithdraw) == s;
    }
  }

  // ---- governance ----

  /** Rounds are contiguous and at most 20; the dispute account covers the fees of all rounds of all
      unexecuted disputes; a dispute is executed at most once; a report is disputed exactly when its
      dispute has a round; and no dispute can be both reopened and executed. */
  lemma DisputesAreSound(cfg: Config, s0: State, calls: seq<Call>, s: State, h: History)
    requires Reached(cfg, s0, calls, s, h)
    ensures Sum(D.Escrows(s.gov)) <= Balance(s.balances, DisputeAccount)
    ensures forall id :: h.executions[id] <= 1 && (h.executions[id] == 1 <==> D.Executed(s.gov, id))
    ensures forall id :: id in s.gov.disputes ==> D.GoodDispute(s.gov, s.now, id)
    ensures forall id :: id in s.gov.disputes ==> ReopenOrExecute(s, id)
    ensures s.gov.voteCount == Sum(D.RoundCounts(s.gov))
    ensures forall q :: G.OpenOn(s.gov, q) == Sum(D.OpenFlags(s.gov, q))
    ensures forall q, i :: 0 <= i < |QueryOf(s, q).log| ==>
      (QueryOf(s, q).log[i].disputed <==> G.Rounds(s.gov, G.DisputeId(q, QueryOf(s, q).log[i].time)) > 0)
  {
    hide Run, TipsOk, FeedsOk, StakingOk, MoneyOk, Sum, Balance, D.GoodDispute, D.Executed, G.Rounds, G.OpenOn,
      ReopenOrExecute;
    ReachedInv(cfg, s0, calls, s, h);
    forall id | id in s.gov.disputes ensures ReopenOrExecute(s, id) {
      NeverReopenAndExecute(s, h, id);
    }
    forall q, i | 0 <= i < |QueryOf(s, q).log|
      ensures QueryOf(s, q).log[i].disputed <==> G.Rounds(s.gov, G.DisputeId(q, QueryOf(s, q).log[i].time)) > 0
    {
      assert ReportsAt(QueryOf(s, q).log, s.gov, q);
      assert ReportAt(QueryOf(s, q).log, s.gov, q, i);
    }
  }

  /** A further round and an execution exclude each other, whatever the fee, and an executed dispute
      admits neither. */
  ghost predicate ReopenOrExecute(s: State, id: G.DisputeId) {
    forall fee: nat :: ReopenOrExecuteAt(s, id, fee)
  }

  ghost predicate ReopenOrExecuteAt(s: State, id: G.DisputeId, fee: nat) {
    var reopened := G.Rounds(s.gov, id) > 0 && G.FurtherRound(s.gov, s.now, id, G.Rounds(s.gov, id) + 1, fee).Ok?;
    && !(reopened && G.Executable(s.gov, id, s.now).Ok?)
    && (D.Executed(s.gov, id) ==> !reopened && G.Executable(s.gov, id, s.now).Err?)
  }

  lemma NeverReopenAndExecute(s: State, h: History, id: G.DisputeId)
    requires GovOk(s, h) && id in s.gov.disputes
    ensures ReopenOrExecute(s, id)
  {
    hide D.CountsInv, D.EscrowInv, D.PendingInv, V.BallotInv, V.OutboxInv, ExecutionsOk, G.FurtherRound, G.Executable,
      D.Executed;
    forall fee: nat ensures ReopenOrExecuteAt(s, id, fee) {
      assert D.GoodDispute(s.gov, s.now, id);
      D.OpenOrExecute(s.gov, s.now, id, fee);
    }
  }

  /** No dispute can be both begun anew and executed. */
  lemma NeverBeginAndExecute(
    cfg: Config, s0: State, calls: seq<Call>, s: State, h: History, who: UserId, id: G.DisputeId, hasBeneficiary: bool)
    requires Reached(cfg, s0, calls, s, h)
    ensures Apply(cfg, s, BeginDispute(who, id, hasBeneficiary)).Ok? ==> Apply(cfg, s, ExecuteVote(id)).Err?
  {
    hide Run, TipsOk, FeedsOk, StakingOk, CrossOk, MoneyOk, D.CountsInv, D.EscrowInv, D.PendingInv, V.BallotInv,
      V.OutboxInv, ExecutionsOk, G.BeginDispute, G.ExecuteVote, G.FurtherRound, G.Executable, D.Executed;
    ReachedInv(cfg, s0, calls, s, h);
    if Apply(cfg, s, BeginDispute(who, id, hasBeneficiary)).Ok? && Apply(cfg, s, ExecuteVote(id)).Ok? {
      D.ExecutedIsExecutable(s.gov, s.balances, id, s.now);
      D.BeginIsFurther(s.gov, QueryOf(s, id.query).log, s.balances, s.now, who, id, hasBeneficiary, s.disputeFee,
        s.stakeAmount, cfg.maxSeries, s.staking.stakers.Keys);
      assert D.GoodDispute(s.gov, s.now, id);
      D.OpenOrExecute(s.gov, s.now, id, s.disputeFee);
    }
  }

  /** Every tally is the sum over its distinct voters, and every sent round has one message that
      carries the tally the round still has. */
  lemma VotesAreSound(cfg: Config, s0: State, calls: seq<Call>, s: State, h: History)
    requires Reached(cfg, s0, calls, s, h)
    ensures forall key :: key in s.gov.votes ==> V.Tallied(s.gov, h.box, key)
    ensures forall key :: key in s.gov.votes && s.gov.votes[key].sent ==> V.HasMessage(h.outbox, key)
    ensures forall m :: m in h.outbox ==> V.Faithful(s.gov, m)
    ensures forall i, j :: 0 <= i < j < |h.outbox| ==>
      (h.outbox[i].id, h.outbox[i].round) != (h.outbox[j].id, h.outbox[j].round)
    ensures forall id :: id in s.gov.pending <==>
      D.LastVote(s.gov, id) in s.gov.votes && !s.gov.votes[D.LastVote(s.gov, id)].sent
  {
    hide Run, TipsOk, FeedsOk, StakingOk, CrossOk, MoneyOk, V.Tallied, V.Faithful, V.HasMessage, D.LastVote;
    ReachedInv(cfg, s0, calls, s, h);
    forall id ensures id in s.gov.pending <==>
      D.LastVote(s.gov, id) in s.gov.votes && !s.gov.votes[D.LastVote(s.gov, id)].sent
    {
      assert D.PendingAt(s.gov, id);
    }
  }

  /** However long ago the voting period of a pending round ended, a full batch sends the round if and
      only if it started at least 11 hours ago. */
  lemma VotesSentIffDue(
    cfg: Config, s0: State, calls: seq<Call>, s: State, h: History, id: G.DisputeId, order: seq<G.DisputeId>, max: nat,
    delivered: set<G.DisputeId>)
    requires Reached(cfg, s0, calls, s, h)
    requires Apply(cfg, s, SendVotes(order, max, delivered)).Ok? && |order| <= max
    requires id in s.gov.pending && id in delivered
    ensures D.LastVote(s.gov, id) in s.gov.votes
    ensures var key := D.LastVote(s.gov, id);
      var g' := Apply(cfg, s, SendVotes(order, max, delivered)).value.gov;
      && key in g'.votes
      && (g'.votes[key].sent <==> s.now - s.gov.votes[key].start >= 11 * HOURS)
      && (s.now - s.gov.votes[key].start >= Min(s.gov.votes[key].round, 6) * DAYS > 0 ==> g'.votes[key].sent)
  {
    hide Run, TipsOk, FeedsOk, StakingOk, CrossOk, MoneyOk, D.CountsInv, D.EscrowInv, V.BallotInv, V.OutboxInv,
      ExecutionsOk, D.RoundsInv, G.SendFirst;
    ReachedInv(cfg, s0, calls, s, h);
    var due, key := DueRounds(s.gov, order), D.LastVote(s.gov, id);
    assert D.PendingAt(s.gov, id);
    hide D.PendingInv, Inv, GovOk;
    assert forall d :: d in order ==> d in s.gov.pending;
    if id in order {
      var i :| 0 <= i < |order| && order[i] == id;
      assert due[i] == key;
      V.SendFirstSends(s.gov, due, |order|, delivered, i);
    } else {
      V.SendFirstSkips(s.gov, due, |order|, delivered, key);
    }
  }

  /** A sent or tallied round keeps its tallies through every continuation of the run, and a tallied one
      its result. */
  lemma TalliesStayFrozen(
    cfg: Config, s0: State, calls: seq<Call>, s: State, h: History, more: seq<Call>, key: (G.DisputeId, nat))
    requires Reached(cfg, s0, calls, s, h)
    requires key in s.gov.votes && (s.gov.votes[key].sent || s.gov.votes[key].tallyDate > 0)
    ensures var g' := Run(cfg, s, h, more).0.gov;
      && key in g'.votes
      && g'.votes[key].users == s.gov.votes[key].users && g'.votes[key].reporters == s.gov.votes[key].reporters
      && (s.gov.votes[key].sent ==> g'.votes[key].sent)
      && (s.gov.votes[key].tallyDate > 0 ==>
            g'.votes[key].tallyDate == s.gov.votes[key].tallyDate && g'.votes[key].result == s.gov.votes[key].result)
  {
    hide Run, Inv;
    ReachedInv(cfg, s0, calls, s, h);
    Freezing.RunKeepsFrozen(cfg, s, h, more, key);
  }
}
