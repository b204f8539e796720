/** Staking rewards: accrual per share, payment on every stake change, and the staking reports. */
module Staking {
  import opened Prelude
  import opened Shares

  datatype StakeInfo = StakeInfo(
    address: nat, startDate: Timestamp, staked: nat, locked: nat, rewardDebt: nat,
    lastReport: Timestamp, reports: nat, startVoteCount: nat, startVoteTally: nat, isStaker: bool)

  function NewStaker(address: nat): StakeInfo {
    StakeInfo(address, 0, 0, 0, 0, 0, 0, 0, 0, false)
  }

  datatype State = State(
    decimals: nat, acc: nat, rate: nat, lastAllocation: Timestamp,
    totalStake: nat, totalDebt: nat, totalStakers: nat, toWithdraw: nat,
    stakers: map<UserId, StakeInfo>)

  /** What a staking call reads from elsewhere: the clock, the required stake and the vote counts. */
  datatype Env = Env(now: Timestamp, stakeAmount: nat, voteCount: nat, voteTally: nat)

  const REWARD_PERIOD: nat := 30 * DAYS

  // ---- accrual ----

  /** The reward per share after `seconds` at the current rate. */
  function AccruedAcc(s: State, seconds: nat): nat
    requires Convert(s.decimals, s.totalStake) > 0
  {
    s.acc + FloorDiv(Times(Times(seconds, s.rate), Unit(s.decimals)), Convert(s.decimals, s.totalStake))
  }

  /** The reward not yet owed to anyone, were `acc` the reward per share. */
  function Unallocated(s: State, acc: nat, balance: nat): Result<nat> {
    var gross := Share(s.decimals, acc, s.totalStake);
    if gross < s.totalDebt then Err(Underflow)
    else if balance < gross - s.totalDebt then Err(Underflow)
    else Ok(balance - (gross - s.totalDebt))
  }

  function UpdateRewards(s: State, balance: nat, now: Timestamp): Result<State> {
    if s.lastAllocation == now then Ok(s)
    else if now < s.lastAllocation then Err(Underflow)
    else if Convert(s.decimals, s.totalStake) == 0 || s.rate == 0 then Ok(s.(lastAllocation := now))
    else
      var newAcc := AccruedAcc(s, now - s.lastAllocation);
      var gross := Share(s.decimals, newAcc, s.totalStake);
      if gross < s.totalDebt then Err(Underflow)
      else if gross - s.totalDebt < balance
      then Ok(s.(acc := ToBalance(newAcc), lastAllocation := now))
      else
        // the rewards run out: share what is left and stop
        var pending :- Unallocated(s, s.acc, balance);
        var acc := s.acc + ToBalance(
          FloorDiv(Times(pending, Unit(s.decimals)), Convert(s.decimals, s.totalStake)));
        if acc > BALANCE_MAX then Err(Overflow)
        else Ok(s.(acc := acc, rate := 0, lastAllocation := now))
  }

  function AddRewards(s: State, l: Balances, source: Account, amount: nat, now: Timestamp)
    : Result<(State, Balances)>
  {
    var l' :- if amount > 0 then Transfer(l, source, StakingAccount, amount) else Ok(l);
    var s' :- UpdateRewards(s, Balance(l', StakingAccount), now);
    var free :- Unallocated(s', s'.acc, Balance(l', StakingAccount));
    Ok((s'.(rate := ToBalance(free / REWARD_PERIOD)), l'))
  }

  // ---- paying a staker and changing the stake ----

  function PendingReward(s: State, info: StakeInfo, env: Env): Result<nat> {
    var share := Share(s.decimals, s.acc, info.staked);
    if share < info.rewardDebt then Err(Underflow)
    else
      var pending := ToBalance(share - info.rewardDebt);
      if env.voteCount < info.startVoteCount then Err(Underflow)
      else if env.voteCount == info.startVoteCount then Ok(pending)
      else if env.voteTally < info.startVoteTally then Err(Underflow)
      else
        Ok(Min(FloorDiv(Times(pending, env.voteTally - info.startVoteTally), env.voteCount - info.startVoteCount),
               pending))
  }

  /** Pays the pending reward and takes the staker out of the totals. */
  function PayOut(s: State, l: Balances, who: UserId, info: StakeInfo, env: Env): Result<(State, Balances)> {
    if info.staked == 0 then Ok((s, l))
    else
      var pending :- PendingReward(s, info, env);
      var l' :- Transfer(l, StakingAccount, User(who), pending);
      if s.totalDebt < info.rewardDebt || s.totalStake < info.staked then Err(Underflow)
      else Ok((s.(totalDebt := s.totalDebt - info.rewardDebt, totalStake := s.totalStake - info.staked), l'))
  }

  function Stakers(total: nat, was: bool, stays: bool): nat {
    if stays then (if was then total else total + 1)
    else if was && total > 0 then total - 1 else total
  }

  function DebtAt(s: State, stake: nat): nat {
    ToBalance(Share(s.decimals, s.acc, stake))
  }

  /** Puts the staker back into the totals with the new stake. */
  function Restake(s: State, info: StakeInfo, newStake: nat, stakeAmount: nat): (State, StakeInfo) {
    var debt := DebtAt(s, newStake);
    (s.(totalStakers := Stakers(s.totalStakers, info.isStaker, newStake >= stakeAmount),
        totalDebt := s.totalDebt + debt, totalStake := s.totalStake + newStake),
     info.(staked := newStake, isStaker := newStake >= stakeAmount, rewardDebt := debt))
  }

  function RestartRate(s: State, balance: nat): Result<State> {
    if s.rate != 0 then Ok(s)
    else
      var free :- Unallocated(s, s.acc, balance);
      Ok(s.(rate := ToBalance(free / REWARD_PERIOD)))
  }

  /** Everything after the accrual. */
  function PayAndRestake(s: State, l: Balances, who: UserId, info: StakeInfo, newStake: nat, env: Env)
    : Result<(State, Balances, StakeInfo)>
  {
    var (s1, l') :- PayOut(s, l, who, info, env);
    var (s2, info') := Restake(s1, info, newStake, env.stakeAmount);
    var s3 :- RestartRate(s2, Balance(l', StakingAccount));
    Ok((s3, l', info'))
  }

  function UpdateStake(s: State, l: Balances, who: UserId, info: StakeInfo, newStake: nat, env: Env)
    : Result<(State, Balances, StakeInfo)>
  {
    var s1 :- UpdateRewards(s, Balance(l, StakingAccount), env.now);
    PayAndRestake(s1, l, who, info, newStake, env)
  }

  // ---- the reports of the staking contract ----

  /** A deposit first uses up the locked balance; a staker starting from nothing records the votes. */
  function PrepareDeposit(s: State, who: UserId, amount: nat, address: nat, env: Env): Result<(State, StakeInfo)> {
    var info := if who in s.stakers then s.stakers[who] else NewStaker(address);
    if address != info.address then Err(InvalidAddress)
    else if info.locked > 0 then
      var used := Min(info.locked, amount);
      if s.toWithdraw < used then Err(Underflow)
      else Ok((s.(toWithdraw := s.toWithdraw - used), info.(locked := info.locked - used)))
    else if info.staked == 0 then
      Ok((s, info.(startVoteCount := env.voteCount, startVoteTally := env.voteTally)))
    else Ok((s, info))
  }

  function Deposit(s: State, l: Balances, who: UserId, amount: nat, address: nat, env: Env)
    : Result<(State, Balances)>
  {
    var (s1, info) :- PrepareDeposit(s, who, amount, address, env);
    var (s2, l', info') :- UpdateStake(s1, l, who, info, info.staked + amount, env);
    Ok((s2.(stakers := s2.stakers[who := info'.(startDate := env.now)]), l'))
  }

  function RequestWithdraw(s: State, l: Balances, who: UserId, amount: nat, address: nat, env: Env)
    : Result<(State, Balances)>
  {
    if who !in s.stakers then Err(InsufficientStake)
    else
      var info := s.stakers[who];
      if address != info.address then Err(InvalidAddress)
      else if info.staked < amount then Err(InsufficientStake)
      else
        var (s1, l', info') :- UpdateStake(s, l, who, info, info.staked - amount, env);
        var info2 := info'.(startDate := env.now, locked := info'.locked + amount);
        Ok((s1.(toWithdraw := s1.toWithdraw + amount, stakers := s1.stakers[who := info2]), l'))
  }

  function Withdrawn(s: State, who: UserId, amount: nat, now: Timestamp): Result<State> {
    if who !in s.stakers then Err(InsufficientStake)
    else
      var info := s.stakers[who];
      if info.locked == 0 then Err(NoWithdrawalRequested)
      else if now < info.startDate then Err(Underflow)
      else if now - info.startDate < 7 * DAYS then Err(WithdrawalPeriodPending)
      else if s.toWithdraw < info.locked || info.locked < amount then Err(Underflow)
      else Ok(s.(toWithdraw := s.toWithdraw - info.locked,
                 stakers := s.stakers[who := info.(locked := info.locked - amount)]))
  }

  function Slash(s: State, l: Balances, who: UserId, amount: nat, env: Env): Result<(State, Balances)> {
    if who !in s.stakers then Err(InsufficientStake)
    else
      var info := s.stakers[who];
      if info.staked + info.locked == 0 then Err(InsufficientStake)
      else if info.locked >= amount then
        if s.toWithdraw < amount then Err(Underflow)
        else Ok((s.(toWithdraw := s.toWithdraw - amount,
                    stakers := s.stakers[who := info.(locked := info.locked - amount)]), l))
      else if info.locked + info.staked < amount && s.toWithdraw < info.locked then Err(Underflow)
      else
        var newStake := SatSub(info.staked, amount - info.locked);
        var (s1, l', info') :- UpdateStake(s, l, who, info, newStake, env);
        if s1.toWithdraw < info.locked then Err(Underflow)
        else Ok((s1.(toWithdraw := s1.toWithdraw - info.locked,
                     stakers := s1.stakers[who := info'.(locked := 0)]), l'))
  }

  /** The staker's side of a report: enough stake and the reporting lock over. */
  function RecordReport(s: State, who: UserId, stakeAmount: nat, now: Timestamp): Result<State> {
    if who !in s.stakers then Err(InsufficientStake)
    else
      var info := s.stakers[who];
      if info.staked < stakeAmount then Err(InsufficientStake)
      else if now < info.lastReport then Err(Underflow)
      else if stakeAmount == 0 || info.staked / stakeAmount == 0 then Err(DivisionByZero)
      else if (now - info.lastReport) * 1_000 <= REPORTING_LOCK * 1_000 / (info.staked / stakeAmount)
      then Err(ReporterTimeLocked)
      else Ok(s.(stakers := s.stakers[who := info.(lastReport := now, reports := info.reports + 1)]))
  }
}
