/** When the calls on stakes, rewards and reports succeed and what they change, described by the storage alone. */
module StakeTerms {
  import opened Prelude
  import opened Pallet
  import opened Invariant
  import opened Runs
  import G = Governance
  import L = ReportLog
  import R = StakingReports
  import Rewards
  import S = Staking
  import Shares
  import Solvency

  lemma StakingPart(s: State, h: History)
    requires Inv(s, h)
    ensures Solvency.StakingInv(s.staking, Balance(s.balances, StakingAccount) + h.cut, s.now)
    ensures s.staking.acc <= BALANCE_MAX
  {
    hide TipsOk, FeedsOk, GovOk, CrossOk, MoneyOk, Solvency.GoodStakers, Solvency.TotalsAgree, Solvency.Solvent,
      Balance;
  }

  // ---- stake changes ----

  /** The staker's record, or the record of someone who has none. */
  function RecordOf(s: State, who: UserId, address: nat): S.StakeInfo {
    if who in s.staking.stakers then s.staking.stakers[who]
    else S.StakeInfo(address, 0, 0, 0, 0, 0, 0, 0, 0, false)
  }

  /** The call accrues what is due since the last allocation, pays `who` the reward of `record` at the new reward
      per share, moves no other account, and gives the stake that follows a debt of its whole share. */
  ghost predicate StakeChanged(s: State, s': State, who: UserId, record: S.StakeInfo) {
    var st, st', funds := s.staking, s'.staking, Balance(s.balances, StakingAccount);
    && Rewards.AccruesTo(st, funds, s.now, st'.acc)
    && Rewards.PaysStaker(
         s.balances, s'.balances, who, st.decimals, st'.acc, record, s.gov.voteCount, G.TallyOf(s.gov, who))
    && st'.lastAllocation == s.now
    && (if Rewards.RateLeft(st, funds, s.now) > 0 then st'.rate == Rewards.RateLeft(st, funds, s.now)
        else Rewards.Spread(st', Balance(s'.balances, StakingAccount)))
    && who in st'.stakers
    && st'.stakers[who].rewardDebt == Min(Shares.Share(st.decimals, st'.acc, st'.stakers[who].staked), BALANCE_MAX)
    && st'.stakers[who].isStaker == (st'.stakers[who].staked >= s.stakeAmount)
    && st'.stakers == st.stakers[who := st'.stakers[who]]
  }

  /** Nothing but stakes and balances changes. */
  ghost predicate OnlyStakes(s: State, s': State) {
    s' == s.(staking := s'.staking, balances := s'.balances)
  }

  ghost predicate LeadsTo(r: Result<(S.State, Balances)>, s': State) {
    r.Ok? && r.value.0 == s'.staking && r.value.1 == s'.balances
  }

  /** A deposit goes to the address on record, uses up the lock first and adds the whole amount to the stake; one
      who starts from nothing counts votes from now on. */
  lemma DepositTerms(cfg: Config, s: State, h: History, who: UserId, amount: nat, address: nat)
    requires Inv(s, h) && Apply(cfg, s, Deposit(who, amount, address)).Ok?
    ensures var s' := Apply(cfg, s, Deposit(who, amount, address)).value;
      var record := RecordOf(s, who, address);
      var restarts := record.staked == 0 && record.locked == 0;
      && record.address == address
      && StakeChanged(s, s', who, record) && OnlyStakes(s, s')
      && s'.staking.stakers[who] == record.(
           staked := record.staked + amount, locked := SatSub(record.locked, amount), startDate := s.now,
           startVoteCount := if restarts then s.gov.voteCount else record.startVoteCount,
           startVoteTally := if restarts then G.TallyOf(s.gov, who) else record.startVoteTally,
           rewardDebt := s'.staking.stakers[who].rewardDebt, isStaker := s'.staking.stakers[who].isStaker)
      && s'.staking.toWithdraw == s.staking.toWithdraw - Min(record.locked, amount)
  {
    hide Inv, Balance, S.Deposit, StakeChanged, TipsClaimed, FeedClaimed, DisputeBegun, Submitted, Tipped, FeedSetUp,
      FeedFunded;
    StakingPart(s, h);
    DepositRecords(s, Apply(cfg, s, Deposit(who, amount, address)).value, who, amount, address);
  }

  lemma DepositRecords(s: State, s': State, who: UserId, amount: nat, address: nat)
    requires s.staking.acc <= BALANCE_MAX
    requires LeadsTo(S.Deposit(s.staking, s.balances, who, amount, address, EnvFor(s, who)), s')
    ensures who in s'.staking.stakers
    ensures var record := RecordOf(s, who, address);
      var restarts := record.staked == 0 && record.locked == 0;
      && record.address == address && StakeChanged(s, s', who, record)
      && s'.staking.stakers[who] == record.(
           staked := record.staked + amount, locked := SatSub(record.locked, amount), startDate := s.now,
           startVoteCount := if restarts then s.gov.voteCount else record.startVoteCount,
           startVoteTally := if restarts then G.TallyOf(s.gov, who) else record.startVoteTally,
           rewardDebt := s'.staking.stakers[who].rewardDebt, isStaker := s'.staking.stakers[who].isStaker)
      && s'.staking.toWithdraw == s.staking.toWithdraw - Min(record.locked, amount)
  {
    hide Balance, S.UpdateStake, Shares.Share, StakeChanged;
    var (s1, info) := S.PrepareDeposit(s.staking, who, amount, address, EnvFor(s, who)).value;
    R.RestakeKeepsAcc(s1, s.balances, who, info, info.staked + amount, EnvFor(s, who));
    R.StakeIgnoresWithdrawals(s1, s.balances, who, info, info.staked + amount, EnvFor(s, who), s1.toWithdraw);
    ChangeIs(s, s', s1, who, RecordOf(s, who, address), info, info.staked + amount);
  }

  /** A stake change of the pallet is one of the staking component, from a state that may differ in the amount to
      withdraw and a record that may differ in its lock. */
  lemma ChangeIs(s: State, s': State, s1: S.State, who: UserId, record: S.StakeInfo, info: S.StakeInfo, newStake: nat)
    requires s.staking.acc <= BALANCE_MAX && s1 == s.staking.(toWithdraw := s1.toWithdraw)
    requires info.staked == record.staked && info.rewardDebt == record.rewardDebt
    requires info.staked > 0 ==>
      info.startVoteCount == record.startVoteCount && info.startVoteTally == record.startVoteTally
    requires S.UpdateStake(s1, s.balances, who, info, newStake, EnvFor(s, who)).Ok?
    requires var (s2, l', info') := S.UpdateStake(s1, s.balances, who, info, newStake, EnvFor(s, who)).value;
      && who in s'.staking.stakers && s'.balances == l'
      && s'.staking == s2.(toWithdraw := s'.staking.toWithdraw, stakers := s'.staking.stakers)
      && s'.staking.stakers == s.staking.stakers[who := s'.staking.stakers[who]]
      && Solvency.SameStake(s'.staking.stakers[who], info')
    ensures StakeChanged(s, s', who, record)
  {
    hide Balance, S.UpdateStake, Rewards.AccruesTo, Rewards.PaysStaker, Rewards.Spread, Rewards.RateLeft, Shares.Share;
    var env, st', funds := EnvFor(s, who), s'.staking, Balance(s.balances, StakingAccount);
    var s2 := S.UpdateStake(s1, s.balances, who, info, newStake, env).value.0;
    Rewards.StakeChangePays(s1, s.balances, who, info, newStake, env);
    R.RestakeKeepsAcc(s1, s.balances, who, info, newStake, env);
    Started(s1, funds, s.now, s2.acc);
    Rewards.SameTerms(s.staking, s1, s.balances, s.now, s2.acc);
    Rewards.SamePayment(s.balances, s'.balances, who, s1.decimals, s2.acc, info, record, env.voteCount, env.voteTally);
    Rewards.SameSpread(s2, st', Balance(s'.balances, StakingAccount));
  }

  lemma Started(s: S.State, balance: nat, now: Timestamp, acc: nat)
    requires Rewards.AccruesTo(s, balance, now, acc)
    ensures s.lastAllocation <= now
  {
    hide Shares.Share, Shares.Quotient, Shares.Convert;
  }

  /** A request moves the amount from the stake to the lock and starts its week of waiting. */
  lemma RequestTerms(cfg: Config, s: State, h: History, who: UserId, amount: nat, address: nat)
    requires Inv(s, h) && Apply(cfg, s, RequestWithdraw(who, amount, address)).Ok?
    ensures var s' := Apply(cfg, s, RequestWithdraw(who, amount, address)).value;
      && who in s.staking.stakers
      && var record := s.staking.stakers[who];
         && record.address == address && amount <= record.staked
         && StakeChanged(s, s', who, record) && OnlyStakes(s, s')
         && s'.staking.stakers[who] == record.(
              staked := record.staked - amount, locked := record.locked + amount, startDate := s.now,
              rewardDebt := s'.staking.stakers[who].rewardDebt, isStaker := s'.staking.stakers[who].isStaker)
         && s'.staking.toWithdraw == s.staking.toWithdraw + amount
  {
    hide Inv, Balance, S.RequestWithdraw, StakeChanged, TipsClaimed, FeedClaimed, DisputeBegun, Submitted, Tipped,
      FeedSetUp, FeedFunded;
    StakingPart(s, h);
    RequestRecords(s, Apply(cfg, s, RequestWithdraw(who, amount, address)).value, who, amount, address);
  }

  lemma RequestRecords(s: State, s': State, who: UserId, amount: nat, address: nat)
    requires s.staking.acc <= BALANCE_MAX
    requires LeadsTo(S.RequestWithdraw(s.staking, s.balances, who, amount, address, EnvFor(s, who)), s')
    ensures who in s.staking.stakers && who in s'.staking.stakers
    ensures var record := s.staking.stakers[who];
      && record.address == address && amount <= record.staked && StakeChanged(s, s', who, record)
      && s'.staking.stakers[who] == record.(
           staked := record.staked - amount, locked := record.locked + amount, startDate := s.now,
           rewardDebt := s'.staking.stakers[who].rewardDebt, isStaker := s'.staking.stakers[who].isStaker)
      && s'.staking.toWithdraw == s.staking.toWithdraw + amount
  {
    hide Balance, S.UpdateStake, Shares.Share, StakeChanged;
    var st, env, record := s.staking, EnvFor(s, who), s.staking.stakers[who];
    R.RestakeKeepsAcc(st, s.balances, who, record, record.staked - amount, env);
    R.StakeIgnoresWithdrawals(st, s.balances, who, record, record.staked - amount, env, st.toWithdraw);
    ChangeIs(s, s', st, who, record, record, record.staked - amount);
  }

  /** A slash that the lock covers only lowers the lock; another one uses up the lock and takes the rest from the
      stake, as far as it goes. */
  lemma SlashTerms(cfg: Config, s: State, h: History, who: UserId, amount: nat)
    requires Inv(s, h) && Apply(cfg, s, Slash(who, amount)).Ok?
    ensures var s' := Apply(cfg, s, Slash(who, amount)).value;
      && who in s.staking.stakers
      && var record := s.staking.stakers[who];
         && record.staked + record.locked > 0
         && s'.staking.toWithdraw == s.staking.toWithdraw - Min(record.locked, amount)
         && (amount <= record.locked ==> s' == s.(staking := s.staking.(
              toWithdraw := s'.staking.toWithdraw,
              stakers := s.staking.stakers[who := record.(locked := record.locked - amount)])))
         && (amount > record.locked ==>
               && StakeChanged(s, s', who, record) && OnlyStakes(s, s')
               && s'.staking.stakers[who] == record.(
                    staked := SatSub(record.staked, amount - record.locked), locked := 0,
                    rewardDebt := s'.staking.stakers[who].rewardDebt, isStaker := s'.staking.stakers[who].isStaker))
  {
    hide Inv, Balance, S.Slash, StakeChanged, TipsClaimed, FeedClaimed, DisputeBegun, Submitted, Tipped, FeedSetUp,
      FeedFunded;
    StakingPart(s, h);
    SlashRecords(s, Apply(cfg, s, Slash(who, amount)).value, who, amount);
  }

  lemma SlashRecords(s: State, s': State, who: UserId, amount: nat)
    requires s.staking.acc <= BALANCE_MAX
    requires LeadsTo(S.Slash(s.staking, s.balances, who, amount, EnvFor(s, who)), s')
    ensures who in s.staking.stakers && who in s'.staking.stakers
    ensures var record := s.staking.stakers[who];
      && record.staked + record.locked > 0
      && s'.staking.toWithdraw == s.staking.toWithdraw - Min(record.locked, amount)
      && (amount <= record.locked ==>
            && s'.balances == s.balances
            && s'.staking == s.staking.(
                 toWithdraw := s'.staking.toWithdraw,
                 stakers := s.staking.stakers[who := record.(locked := record.locked - amount)]))
      && (amount > record.locked ==>
            && StakeChanged(s, s', who, record)
            && s'.staking.stakers[who] == record.(
                 staked := SatSub(record.staked, amount - record.locked), locked := 0,
                 rewardDebt := s'.staking.stakers[who].rewardDebt, isStaker := s'.staking.stakers[who].isStaker))
  {
    hide Balance, S.UpdateStake, Shares.Share, StakeChanged;
    var st, env, record := s.staking, EnvFor(s, who), s.staking.stakers[who];
    if amount > record.locked {
      var newStake := SatSub(record.staked, amount - record.locked);
      R.RestakeKeepsAcc(st, s.balances, who, record, newStake, env);
      R.StakeIgnoresWithdrawals(st, s.balances, who, record, newStake, env, st.toWithdraw);
      ChangeIs(s, s', st, who, record, record, newStake);
    }
  }

  // ---- withdrawals ----

  /** A withdrawal completes exactly when there is a lock, it has waited for seven days, it is counted in the
      amount to withdraw, and no more than it is reported. */
  lemma WithdrawnTerms(cfg: Config, s: State, who: UserId, amount: nat)
    ensures Apply(cfg, s, Withdrawn(who, amount)).Ok? <==>
      && who in s.staking.stakers
      && var record := s.staking.stakers[who];
         0 < record.locked <= s.staking.toWithdraw && amount <= record.locked && record.startDate + 7 * DAYS <= s.now
    ensures Apply(cfg, s, Withdrawn(who, amount)).Ok? ==>
      var record := s.staking.stakers[who];
      Apply(cfg, s, Withdrawn(who, amount)).value == s.(staking := s.staking.(
        toWithdraw := s.staking.toWithdraw - record.locked,
        stakers := s.staking.stakers[who := record.(locked := record.locked - amount)]))
  {
  }

  // ---- rewards ----

  /** Anyone can add rewards that it has, whenever the accrual with them goes through; they are counted before the
      accrual, and everything free is then spread over 30 days. */
  lemma AddRewardsTerms(cfg: Config, s: State, h: History, who: UserId, amount: nat)
    requires Inv(s, h)
    ensures Apply(cfg, s, AddRewards(who, amount)).Ok? <==>
      && amount <= Balance(s.balances, User(who))
      && Rewards.CanAdd(s.staking, Balance(s.balances, StakingAccount) + amount, s.now)
    ensures Apply(cfg, s, AddRewards(who, amount)).Ok? ==>
      RewardsAdded(s, Apply(cfg, s, AddRewards(who, amount)).value, User(who), amount)
  {
    hide Inv, S.AddRewards, Rewards.CanAdd, RewardsAdded, TipsClaimed, FeedClaimed, DisputeBegun, Submitted, Tipped,
      FeedSetUp, FeedFunded, Balance;
    StakingPart(s, h);
    Rewards.AddRewardsIff(s.staking, s.balances, h.cut, User(who), amount, s.now);
    if Apply(cfg, s, AddRewards(who, amount)).Ok? {
      RewardsAreAdded(s, Apply(cfg, s, AddRewards(who, amount)).value, h.cut, User(who), amount);
    }
  }

  /** `amount` moves from `source` to the staking account, is accrued with the rest, and all that is free then
      makes the new rate. */
  ghost predicate RewardsAdded(s: State, s': State, source: Account, amount: nat) {
    var st, st', funds := s.staking, s'.staking, Balance(s.balances, StakingAccount) + amount;
    && OnlyStakes(s, s')
    && Rewards.AccruesTo(st, funds, s.now, st'.acc) && Rewards.Spread(st', funds)
    && st' == st.(acc := st'.acc, rate := st'.rate, lastAllocation := s.now)
    && Balance(s'.balances, StakingAccount) == funds
    && Balance(s'.balances, source) == Balance(s.balances, source) - amount
    && forall a :: a != source && a != StakingAccount ==> Balance(s'.balances, a) == Balance(s.balances, a)
  }

  lemma RewardsAreAdded(s: State, s': State, cut: nat, source: Account, amount: nat)
    requires Solvency.StakingInv(s.staking, Balance(s.balances, StakingAccount) + cut, s.now)
    requires source != StakingAccount && OnlyStakes(s, s')
    requires LeadsTo(S.AddRewards(s.staking, s.balances, source, amount, s.now), s')
    ensures RewardsAdded(s, s', source, amount)
  {
    hide Solvency.StakingInv, S.AddRewards, Rewards.AccruesTo, Rewards.Spread, Balance;
    Solvency.AccLimits(s.staking, Balance(s.balances, StakingAccount) + cut, s.now);
    R.AddRewardsKeeps(s.staking, s.balances, cut, s.now, source, amount, s.now);
    Rewards.AddedRewardsSpread(s.staking, s.balances, source, amount, s.now);
  }

  // ---- reports ----

  /** A report is accepted exactly when it has a value, the next nonce or none, no report at the same time, a whole
      stake behind it, and the reporting lock is over; it is then appended, and its reporter credited. */
  lemma SubmitTerms(cfg: Config, s: State, h: History, who: UserId, q: QueryId, value: Value, nonce: nat)
    requires Inv(s, h)
    ensures var log := QueryOf(s, q).log;
      Apply(cfg, s, Submit(who, q, value, nonce)).Ok? <==>
        && value != [] && (nonce == 0 || nonce == |log|)
        && (forall i :: 0 <= i < |log| ==> log[i].time != s.now)
        && who in s.staking.stakers
        && var record := s.staking.stakers[who];
           && 0 < s.stakeAmount <= record.staked && record.lastReport <= s.now
           && R.Unlocked(record, s.stakeAmount, s.now)
    ensures Apply(cfg, s, Submit(who, q, value, nonce)).Ok? ==>
      var query, record := QueryOf(s, q), s.staking.stakers[who];
      Apply(cfg, s, Submit(who, q, value, nonce)).value == s.(
        queries := s.queries[q := query.(log := query.log + [L.Entry(s.now, who, value, false)])],
        staking := s.staking.(stakers := s.staking.stakers[who := record.(
          lastReport := s.now, reports := record.reports + 1)]))
  {
    hide Inv, R.Unlocked, L.FindBelow, S.RecordReport;
    var log := QueryOf(s, q).log;
    Timely(s, h, q);
    if L.Find(log, s.now).None? {
      L.NotFoundIsNew(log, s.now, |log|);
    }
    R.RecordReportIff(s.staking, who, s.stakeAmount, s.now);
  }

  lemma Timely(s: State, h: History, q: QueryId)
    requires Inv(s, h)
    ensures L.WellTimed(QueryOf(s, q).log, s.now)
  {
    hide TipsOk, FeedsOk, StakingOk, GovOk, CrossOk, MoneyOk;
    LogOf(s, h, q);
  }
}
