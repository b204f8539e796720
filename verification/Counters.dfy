/** The vote counts stored with a staker never run ahead of the pallet's, so no stake change fails for them. */
module Counters {
  import opened Prelude
  import opened Pallet
  import opened Invariant
  import opened Runs
  import B = TipBook
  import Coverage
  import F = Feeds
  import G = Governance
  import L = ReportLog
  import R = StakingReports
  import S = Staking
  import Solvency
  import T = TipHistory

  /** A stored start count is a past value of its counter. */
  predicate CountedBefore(i: S.StakeInfo, voteCount: nat, voteTally: nat) {
    i.startVoteCount <= voteCount && i.startVoteTally <= voteTally
  }

  ghost predicate CountsBehind(stakers: map<UserId, S.StakeInfo>, g: G.State) {
    forall w :: w in stakers ==> CountedBefore(stakers[w], g.voteCount, G.TallyOf(g, w))
  }

  /** Counters only grow. */
  ghost predicate Grown(g: G.State, g': G.State) {
    g.voteCount <= g'.voteCount && forall u :: G.TallyOf(g, u) <= G.TallyOf(g', u)
  }

  // ---- what one call does to the stored counts ----

  /** A staker's record is rewritten with counts that are stored or current. */
  ghost predicate Restarts(s: S.State, s': S.State, who: UserId, env: S.Env) {
    && s'.stakers.Keys == s.stakers.Keys + {who}
    && (forall w :: w != who && w in s.stakers ==> s'.stakers[w] == s.stakers[w])
    && ((who in s.stakers ==> CountedBefore(s.stakers[who], env.voteCount, env.voteTally)) ==>
          CountedBefore(s'.stakers[who], env.voteCount, env.voteTally))
  }

  lemma DepositRestarts(s: S.State, l: Balances, who: UserId, amount: nat, address: nat, env: S.Env)
    requires S.Deposit(s, l, who, amount, address, env).Ok?
    ensures Restarts(s, S.Deposit(s, l, who, amount, address, env).value.0, who, env)
  {
    hide S.UpdateStake;
    var (s1, info) := S.PrepareDeposit(s, who, amount, address, env).value;
    R.RestakeKeepsAcc(s1, l, who, info, info.staked + amount, env);
  }

  lemma RequestRestarts(s: S.State, l: Balances, who: UserId, amount: nat, address: nat, env: S.Env)
    requires S.RequestWithdraw(s, l, who, amount, address, env).Ok?
    ensures Restarts(s, S.RequestWithdraw(s, l, who, amount, address, env).value.0, who, env)
  {
    hide S.UpdateStake;
    R.RestakeKeepsAcc(s, l, who, s.stakers[who], s.stakers[who].staked - amount, env);
  }

  lemma SlashRestarts(s: S.State, l: Balances, who: UserId, amount: nat, env: S.Env)
    requires S.Slash(s, l, who, amount, env).Ok?
    ensures Restarts(s, S.Slash(s, l, who, amount, env).value.0, who, env)
  {
    hide S.UpdateStake;
    var info := s.stakers[who];
    if info.locked < amount {
      R.RestakeKeepsAcc(s, l, who, info, SatSub(info.staked, amount - info.locked), env);
    }
  }

  lemma WithdrawnRestarts(s: S.State, who: UserId, amount: nat, now: Timestamp, env: S.Env)
    requires S.Withdrawn(s, who, amount, now).Ok?
    ensures Restarts(s, S.Withdrawn(s, who, amount, now).value, who, env)
  {
  }

  lemma ReportRestarts(s: S.State, who: UserId, stakeAmount: nat, now: Timestamp, env: S.Env)
    requires S.RecordReport(s, who, stakeAmount, now).Ok?
    ensures Restarts(s, S.RecordReport(s, who, stakeAmount, now).value, who, env)
  {
  }

  lemma AddingRewardsKeepsStakers(s: S.State, l: Balances, source: Account, amount: nat, now: Timestamp)
    requires S.AddRewards(s, l, source, amount, now).Ok?
    ensures S.AddRewards(s, l, source, amount, now).value.0.stakers == s.stakers
  {
    hide S.Unallocated, Transfer;
  }

  lemma RestartKeepsBehind(s: S.State, s': S.State, g: G.State, who: UserId, env: S.Env)
    requires CountsBehind(s.stakers, g) && Restarts(s, s', who, env)
    requires env.voteCount == g.voteCount && env.voteTally == G.TallyOf(g, who)
    ensures CountsBehind(s'.stakers, g)
  {
  }

  lemma {:induction false} SendingKeepsCounts(
    g: G.State, order: seq<(G.DisputeId, nat)>, n: nat, delivered: set<G.DisputeId>)
    requires n <= |order|
    ensures var g' := G.SendFirst(g, order, n, delivered);
      g'.voteCount == g.voteCount && g'.voteTallies == g.voteTallies
  {
    if n > 0 {
      SendingKeepsCounts(g, order, n - 1, delivered);
    }
  }

  lemma GrownKeepsBehind(stakers: map<UserId, S.StakeInfo>, g: G.State, g': G.State)
    requires CountsBehind(stakers, g) && Grown(g, g')
    ensures CountsBehind(stakers, g')
  {
  }

  // ---- every call, every run ----

  lemma CallKeepsBehind(cfg: Config, s: State, c: Call)
    requires CountsBehind(s.staking.stakers, s.gov) && Apply(cfg, s, c).Ok?
    ensures CountsBehind(Apply(cfg, s, c).value.staking.stakers, Apply(cfg, s, c).value.gov)
  {
    if c.Deposit? || c.RequestWithdraw? || c.Slash? || c.Withdrawn? || c.AddRewards? || c.Submit? {
      StakingCallKeepsBehind(cfg, s, c);
    } else if c.ClaimTips? || c.ClaimFeed? {
      ClaimKeepsBehind(cfg, s, c);
    } else if c.BeginDispute? || c.CastVote? || c.SendVotes? || c.TallyVotes? || c.ExecuteVote? {
      GovernanceCallKeepsBehind(cfg, s, c);
    } else {
      hide CountsBehind, Transfer, B.AddTip, B.CurrentTip, L.LastTime;
    }
  }

  lemma StakingCallKeepsBehind(cfg: Config, s: State, c: Call)
    requires c.Deposit? || c.RequestWithdraw? || c.Slash? || c.Withdrawn? || c.AddRewards? || c.Submit?
    requires CountsBehind(s.staking.stakers, s.gov) && Apply(cfg, s, c).Ok?
    ensures CountsBehind(Apply(cfg, s, c).value.staking.stakers, Apply(cfg, s, c).value.gov)
  {
    hide S.AddRewards, S.Deposit, S.RequestWithdraw, S.Slash, S.Withdrawn, S.RecordReport, Restarts, CountsBehind,
      L.FindBelow;
    match c
    case Deposit(who, amount, address) =>
      DepositRestarts(s.staking, s.balances, who, amount, address, EnvFor(s, who));
      RestartKeepsBehind(s.staking, Apply(cfg, s, c).value.staking, s.gov, who, EnvFor(s, who));
    case RequestWithdraw(who, amount, address) =>
      RequestRestarts(s.staking, s.balances, who, amount, address, EnvFor(s, who));
      RestartKeepsBehind(s.staking, Apply(cfg, s, c).value.staking, s.gov, who, EnvFor(s, who));
    case Slash(who, amount) =>
      SlashRestarts(s.staking, s.balances, who, amount, EnvFor(s, who));
      RestartKeepsBehind(s.staking, Apply(cfg, s, c).value.staking, s.gov, who, EnvFor(s, who));
    case AddRewards(who, amount) => AddingRewardsKeepsStakers(s.staking, s.balances, User(who), amount, s.now);
    case Withdrawn(who, amount) =>
      WithdrawnRestarts(s.staking, who, amount, s.now, EnvFor(s, who));
      RestartKeepsBehind(s.staking, Apply(cfg, s, c).value.staking, s.gov, who, EnvFor(s, who));
    case Submit(who, _, _, _) =>
      ReportRestarts(s.staking, who, s.stakeAmount, s.now, EnvFor(s, who));
      RestartKeepsBehind(s.staking, Apply(cfg, s, c).value.staking, s.gov, who, EnvFor(s, who));
  }

  lemma ClaimKeepsBehind(cfg: Config, s: State, c: Call)
    requires c.ClaimTips? || c.ClaimFeed?
    requires CountsBehind(s.staking.stakers, s.gov) && Apply(cfg, s, c).Ok?
    ensures CountsBehind(Apply(cfg, s, c).value.staking.stakers, Apply(cfg, s, c).value.gov)
  {
    hide S.AddRewards, T.ClaimAll, F.ClaimFeed, F.Add, F.FeeOf, L.LastTime, B.CurrentTip, Transfer, CountsBehind;
    var amount := match c {
      case ClaimTips(who, q, ts) => T.ClaimAll(QueryOf(s, q).book, QueryOf(s, q).log, s.now, ts, who).value.1
      case ClaimFeed(who, f, ts) =>
        F.ClaimFeed(s.feeds[f], QueryOf(s, f.query).log, ClaimsOf(s, f), s.now, ts, who).value
    };
    var fee := F.FeeOf(amount, cfg.fee);
    var l := Transfer(s.balances, TipsAccount, User(c.who), amount - fee).value;
    AddingRewardsKeepsStakers(s.staking, l, TipsAccount, fee, s.now);
  }

  lemma GovernanceCallKeepsBehind(cfg: Config, s: State, c: Call)
    requires c.BeginDispute? || c.CastVote? || c.SendVotes? || c.TallyVotes? || c.ExecuteVote?
    requires CountsBehind(s.staking.stakers, s.gov) && Apply(cfg, s, c).Ok?
    ensures CountsBehind(Apply(cfg, s, c).value.staking.stakers, Apply(cfg, s, c).value.gov)
  {
    hide CountsBehind, G.SendFirst, G.PayRounds, G.Executable, DisputeBegun;
    if c.SendVotes? {
      SendingKeepsCounts(s.gov, DueRounds(s.gov, c.order), Min(c.max, |c.order|), c.delivered);
    }
    if c.BeginDispute? {
      BeginGrows(cfg, s, c.who, c.dispute, c.hasBeneficiary);
      BeginKeepsStakers(cfg, s, c.who, c.dispute, c.hasBeneficiary);
    }
    GrownKeepsBehind(s.staking.stakers, s.gov, Apply(cfg, s, c).value.gov);
  }

  lemma BeginGrows(cfg: Config, s: State, who: UserId, id: G.DisputeId, hasBeneficiary: bool)
    requires DisputeBegun(cfg, s, who, id, hasBeneficiary).Ok?
    ensures Grown(s.gov, DisputeBegun(cfg, s, who, id, hasBeneficiary).value.gov)
  {
    hide L.FindBelow, Transfer, G.Doubled;
  }

  lemma BeginKeepsStakers(cfg: Config, s: State, who: UserId, id: G.DisputeId, hasBeneficiary: bool)
    requires DisputeBegun(cfg, s, who, id, hasBeneficiary).Ok?
    ensures DisputeBegun(cfg, s, who, id, hasBeneficiary).value.staking == s.staking
  {
    hide G.BeginDispute;
  }

  lemma {:induction false} RunKeepsBehind(cfg: Config, s: State, h: History, calls: seq<Call>)
    requires CountsBehind(s.staking.stakers, s.gov)
    ensures CountsBehind(Run(cfg, s, h, calls).0.staking.stakers, Run(cfg, s, h, calls).0.gov)
  {
    hide CountsBehind, Apply, Record;
    if calls != [] {
      var n := |calls| - 1;
      RunKeepsBehind(cfg, s, h, calls[..n]);
      var s1 := Run(cfg, s, h, calls[..n]).0;
      if Apply(cfg, s1, calls[n]).Ok? {
        CallKeepsBehind(cfg, s1, calls[n]);
      }
    }
  }

  /** In a reachable state that covers what is owed, changing a staker's stake fails if and only if the
      accrual fails or the reward rate cannot be restarted. */
  lemma StakeChangeFailsIff(cfg: Config, s0: State, calls: seq<Call>, who: UserId, newStake: nat)
    requires Initial(s0)
    requires var s := Run(cfg, s0, NO_RUN, calls).0;
      Coverage.Covered(s) && who in s.staking.stakers
    ensures var s := Run(cfg, s0, NO_RUN, calls).0;
      var funds, info, env := Balance(s.balances, StakingAccount), s.staking.stakers[who], EnvFor(s, who);
      var accrued := S.UpdateRewards(s.staking, funds, s.now);
      S.UpdateStake(s.staking, s.balances, who, info, newStake, env).Err? <==>
        accrued.Err? || Solvency.ShortAfter(accrued.value, funds, info, newStake, env)
  {
    hide Run, Inv, Balance, Solvency.ShortAfter, S.UpdateStake, S.UpdateRewards, Solvency.StakingInv, Coverage.Covered,
      Initial;
    var (s, h) := Run(cfg, s0, NO_RUN, calls);
    InitialInv(s0);
    RunKeeps(cfg, s0, NO_RUN, calls);
    NobodyAhead(s0);
    RunKeepsBehind(cfg, s0, NO_RUN, calls);
    Coverage.CoveredNeedsNoCut(s, h);
    Solvency.UpdateStakeFailsIff(
      s.staking, s.balances, s.now, who, s.staking.stakers[who], newStake, EnvFor(s, who));
  }

  lemma NobodyAhead(s0: State)
    requires Initial(s0)
    ensures CountsBehind(s0.staking.stakers, s0.gov)
  {
  }
}
