/** The staking storage updated in place, statement by statement; `Staking` says what each call computes. */
module StakingStore {
  import opened Prelude
  import opened Shares
  import opened Staking
  import opened Solvency
  import opened StakingReports
  import R = Rewards

  class StakingStore {
    const decimals: nat
    const ledger: Ledger
    var acc: nat
    var rate: nat
    var lastAllocation: Timestamp
    var totalStake: nat
    var totalDebt: nat
    var totalStakers: nat
    var toWithdraw: nat
    var stakers: map<UserId, StakeInfo>

    /** What clamped reward debts have cut off so far. */
    ghost var cut: nat

    constructor (decimals: nat, ledger: Ledger, ghost now: Timestamp)
      ensures Valid(now) && cut == 0
      ensures Contents() == State(decimals, 0, 0, 0, 0, 0, 0, 0, map[])
      ensures this.ledger == ledger
    {
      this.decimals, this.ledger := decimals, ledger;
      acc, rate, lastAllocation, totalStake, totalDebt, totalStakers, toWithdraw := 0, 0, 0, 0, 0, 0, 0;
      stakers, cut := map[], 0;
      new;
      hide Total;
      TotalEmpty(StakeOf);
      TotalEmpty(DebtOf);
      TotalEmpty(FlagOf);
      TotalEmpty(OwedAt(decimals, 0));
    }

    /** Totals agree with the stakers, no debt exceeds its share, and the staking account covers what is
        owed, up to what was cut off. */
    ghost predicate Valid(now: Timestamp)
      reads this, ledger
    {
      StakingInv(Contents(), Balance(ledger.balances, StakingAccount) + cut, now)
    }

    /** The stored values. */
    function Contents(): State
      reads this
    {
      State(decimals, acc, rate, lastAllocation, totalStake, totalDebt, totalStakers, toWithdraw, stakers)
    }

    /** Undoes a failed call, as the transactional storage layer does. */
    method RollBack(saved: State, balances: Balances)
      requires saved.decimals == decimals
      modifies this, ledger
      ensures Contents() == saved && ledger.balances == balances && cut == old(cut)
    {
      acc, rate, lastAllocation := saved.acc, saved.rate, saved.lastAllocation;
      totalStake, totalDebt, totalStakers := saved.totalStake, saved.totalDebt, saved.totalStakers;
      toWithdraw, stakers := saved.toWithdraw, saved.stakers;
      ledger.balances := balances;
    }

    /** Accrues the rewards since the last allocation; shares what is left when they run out. */
    method UpdateRewards(now: Timestamp) returns (r: Result<()>)
      modifies `acc, `rate, `lastAllocation
      ensures old(Valid(now)) ==> Valid(now)
      ensures var spec := Staking.UpdateRewards(old(Contents()), Balance(ledger.balances, StakingAccount), now);
        && (spec.Ok? ==> r.Ok? && Contents() == spec.value)
        && (spec.Err? ==> r == Err(spec.error) && Contents() == old(Contents()))
      ensures r.Ok? && old(acc) <= BALANCE_MAX ==>
        R.Accrues(old(Contents()), Contents(), Balance(ledger.balances, StakingAccount), now)
    {
      hide Pow10, FloorDiv, Times, Convert, Balance, StakingInv, R.Accrues;
      ghost var balance0 := Balance(ledger.balances, StakingAccount);
      if acc <= BALANCE_MAX && Staking.UpdateRewards(Contents(), balance0, now).Ok? {
        R.AccrualIs(Contents(), balance0, now);
      }
      if Valid(now) && Staking.UpdateRewards(Contents(), balance0, now).Ok? {
        AccrualKeeps(Contents(), balance0, cut, now, now);
      }
      if lastAllocation == now {
        return Ok(());
      }
      if now < lastAllocation {
        return Err(Underflow);
      }
      var totalShares := Convert(decimals, totalStake);
      if totalShares == 0 || rate == 0 {
        lastAllocation := now;
        return Ok(());
      }
      var unit := Unit(decimals);
      var newAcc := acc + FloorDiv(Times(Times(now - lastAllocation, rate), unit), totalShares);
      var gross := FloorDiv(Times(newAcc, totalShares), unit);
      if gross < totalDebt {
        return Err(Underflow);
      }
      var balance := Balance(ledger.balances, StakingAccount);
      if gross - totalDebt >= balance {
        var earned := FloorDiv(Times(acc, totalShares), unit);
        if earned < totalDebt || balance < earned - totalDebt {
          return Err(Underflow);
        }
        var pending := balance - (earned - totalDebt);
        var raised := acc + ToBalance(FloorDiv(Times(pending, unit), totalShares));
        if raised > BALANCE_MAX {
          return Err(Overflow);
        }
        acc := raised;
        rate := 0;
      } else {
        acc := ToBalance(newAcc);
      }
      lastAllocation := now;
      r := Ok(());
    }

    /** The rewards in the staking account that are owed to nobody yet. */
    method FreeRewards() returns (r: Result<nat>)
      ensures r == Unallocated(Contents(), acc, Balance(ledger.balances, StakingAccount))
    {
      hide Pow10, Balance;
      var gross := FloorDiv(Times(acc, Convert(decimals, totalStake)), Unit(decimals));
      if gross < totalDebt {
        return Err(Underflow);
      }
      var balance := Balance(ledger.balances, StakingAccount);
      if balance < gross - totalDebt {
        return Err(Underflow);
      }
      r := Ok(balance - (gross - totalDebt));
    }

    /** Moves rewards into the staking account and spreads everything free over the next 30 days. */
    method AddStakingRewards(source: Account, amount: nat, now: Timestamp) returns (r: Result<()>)
      requires Valid(now) && source != StakingAccount
      modifies this, ledger
      ensures Valid(now) && cut == old(cut)
      ensures var spec := AddRewards(old(Contents()), old(ledger.balances), source, amount, now);
        && (spec.Ok? ==> r.Ok? && (Contents(), ledger.balances) == spec.value)
        && (spec.Err? ==> r == Err(spec.error))
      ensures r.Err? ==> Contents() == old(Contents()) && ledger.balances == old(ledger.balances)
      ensures r.Ok? ==>
        && R.AccruesTo(old(Contents()), Balance(old(ledger.balances), StakingAccount) + amount, now, acc)
        && R.Spread(Contents(), Balance(old(ledger.balances), StakingAccount) + amount)
    {
      hide Pow10, FloorDiv, Times, Convert, Share, Balance, R.Accrues, Staking.UpdateRewards, Unallocated, StakingInv,
        R.AccruesTo, R.Spread;
      if AddRewards(Contents(), ledger.balances, source, amount, now).Ok? {
        AccLimits(Contents(), Balance(ledger.balances, StakingAccount) + cut, now);
        R.AddedRewardsSpread(Contents(), ledger.balances, source, amount, now);
        AddRewardsKeeps(Contents(), ledger.balances, cut, now, source, amount, now);
      }
      var saved, funds := Contents(), ledger.balances;
      if amount > 0 {
        var paid := ledger.Move(source, StakingAccount, amount);
        if !paid {
          return Err(FundsUnavailable);
        }
      }
      r := UpdateRewards(now);
      if r.Err? {
        RollBack(saved, funds);
        return;
      }
      var free := FreeRewards();
      if free.Err? {
        RollBack(saved, funds);
        return Err(free.error);
      }
      rate := ToBalance(free.value / REWARD_PERIOD);
      r := Ok(());
    }

    /** The reward pending for a staker, reduced by its share of missed votes. */
    method VotingReward(info: StakeInfo, env: Env) returns (r: Result<nat>)
      ensures r == PendingReward(Contents(), info, env)
      ensures r.Ok? ==>
        && r.value <= Owed(decimals, acc, info)
        && R.Rewarded(r.value, decimals, acc, info, env.voteCount, env.voteTally)
      ensures r.Ok? <==>
        && info.rewardDebt <= Share(decimals, acc, info.staked)
        && info.startVoteCount <= env.voteCount
        && (info.startVoteCount < env.voteCount ==> info.startVoteTally <= env.voteTally)
    {
      hide Pow10, R.Rewarded;
      R.RewardIs(Contents(), info, env);
      var share := FloorDiv(Times(acc, Convert(decimals, info.staked)), Unit(decimals));
      if share < info.rewardDebt {
        return Err(Underflow);
      }
      var pending := ToBalance(share - info.rewardDebt);
      if env.voteCount < info.startVoteCount {
        return Err(Underflow);
      }
      var votes := env.voteCount - info.startVoteCount;
      if votes > 0 {
        if env.voteTally < info.startVoteTally {
          return Err(Underflow);
        }
        var discounted := FloorDiv(Times(pending, env.voteTally - info.startVoteTally), votes);
        if discounted < pending {
          pending := discounted;
        }
      }
      r := Ok(pending);
    }

    /** Pays a staker with a stake and takes it out of the totals. */
    method PayPending(who: UserId, info: StakeInfo, env: Env) returns (r: Result<()>)
      modifies `totalDebt, `totalStake, ledger
      ensures var spec := PayOut(old(Contents()), old(ledger.balances), who, info, env);
        && (spec.Ok? ==> r.Ok? && (Contents(), ledger.balances) == spec.value)
        && (spec.Err? ==> r == Err(spec.error))
    {
      hide PendingReward, Balance;
      r := Ok(());
      if info.staked > 0 {
        var pending := VotingReward(info, env);
        if pending.Err? {
          return Err(pending.error);
        }
        var paid := ledger.Move(StakingAccount, User(who), pending.value);
        if !paid {
          return Err(FundsUnavailable);
        }
        if totalDebt < info.rewardDebt {
          return Err(Underflow);
        }
        totalDebt := totalDebt - info.rewardDebt;
        if totalStake < info.staked {
          return Err(Underflow);
        }
        totalStake := totalStake - info.staked;
      }
    }

    /** Accrues, pays the staker, and puts it back into the totals with its new stake. A failure may
        leave the storage half-written; the caller rolls it back. */
    method UpdateStakeAndPayRewards(who: UserId, info: StakeInfo, newStake: nat, env: Env)
      returns (r: Result<StakeInfo>)
      modifies `acc, `rate, `lastAllocation, `totalDebt, `totalStake, `totalStakers, ledger
      ensures var spec := UpdateStake(old(Contents()), old(ledger.balances), who, info, newStake, env);
        && (spec.Ok? ==> r.Ok? && (Contents(), ledger.balances, r.value) == spec.value)
        && (spec.Err? ==> r == Err(spec.error))
      ensures r.Ok? && old(acc) <= BALANCE_MAX ==>
        && R.AccruesTo(old(Contents()), Balance(old(ledger.balances), StakingAccount), env.now, acc)
        && R.PaysStaker(
             old(ledger.balances), ledger.balances, who, decimals, acc, info, env.voteCount, env.voteTally)
    {
      hide Pow10, Balance, Staking.UpdateRewards, PayOut, Restake, Unallocated, R.Accrues, R.AccruesTo, R.PaysStaker,
        R.Spread;
      if acc <= BALANCE_MAX && UpdateStake(Contents(), ledger.balances, who, info, newStake, env).Ok? {
        R.StakeChangePays(Contents(), ledger.balances, who, info, newStake, env);
      }
      var accrued := UpdateRewards(env.now);
      if accrued.Err? {
        return Err(accrued.error);
      }
      var paid := PayPending(who, info, env);
      if paid.Err? {
        return Err(paid.error);
      }
      var updated := ReturnToTotals(info, newStake, env.stakeAmount);
      if rate == 0 {
        var free := FreeRewards();
        if free.Err? {
          return Err(free.error);
        }
        rate := ToBalance(free.value / REWARD_PERIOD);
      }
      r := Ok(updated);
    }

    /** Counts the staker if it has enough, and puts its new stake and the debt for it into the totals. */
    method ReturnToTotals(info: StakeInfo, newStake: nat, stakeAmount: nat) returns (updated: StakeInfo)
      modifies `totalDebt, `totalStake, `totalStakers
      ensures (Contents(), updated) == Restake(old(Contents()), info, newStake, stakeAmount)
    {
      hide Pow10, FloorDiv, Times, Convert;
      updated := info.(staked := newStake);
      if updated.staked >= stakeAmount {
        if !updated.isStaker {
          totalStakers := totalStakers + 1;
        }
        updated := updated.(isStaker := true);
      } else {
        if updated.isStaker && totalStakers > 0 {
          totalStakers := totalStakers - 1;
        }
        updated := updated.(isStaker := false);
      }
      updated := updated.(rewardDebt :=
        ToBalance(FloorDiv(Times(acc, Convert(decimals, updated.staked)), Unit(decimals))));
      totalDebt := totalDebt + updated.rewardDebt;
      totalStake := totalStake + updated.staked;
    }

    /** A stake was deposited on the controlling chain. */
    method ReportStakeDeposited(who: UserId, amount: nat, address: nat, env: Env) returns (r: Result<()>)
      requires Valid(env.now)
      modifies this, ledger
      ensures var spec := Deposit(old(Contents()), old(ledger.balances), who, amount, address, env);
        && (spec.Ok? ==> r.Ok? && (Contents(), ledger.balances) == spec.value)
        && (spec.Err? ==> r == Err(spec.error))
      ensures r.Err? ==> Contents() == old(Contents()) && ledger.balances == old(ledger.balances)
      ensures Valid(env.now)
      ensures cut == old(cut) + if r.Ok? then NewlyCut(Contents(), who) else 0
    {
      hide UpdateStake, StakingInv, NewlyCut, SlashCut, OnlyPays, LockedGap, Balance;
      if Deposit(Contents(), ledger.balances, who, amount, address, env).Ok? {
        DepositKeeps(Contents(), ledger.balances, cut, env.now, who, amount, address, env);
      }
      var saved, funds := Contents(), ledger.balances;
      var info := if who in stakers then stakers[who] else NewStaker(address);
      if address != info.address {
        return Err(InvalidAddress);
      }
      var staked := info.staked;
      if info.locked > 0 {
        if info.locked >= amount {
          if toWithdraw < amount {
            return Err(Underflow);
          }
          toWithdraw := toWithdraw - amount;
          info := info.(locked := info.locked - amount);
        } else {
          if toWithdraw < info.locked {
            return Err(Underflow);
          }
          toWithdraw := toWithdraw - info.locked;
          info := info.(locked := 0);
        }
      } else if staked == 0 {
        info := info.(startVoteCount := env.voteCount, startVoteTally := env.voteTally);
      }
      var updated := UpdateStakeAndPayRewards(who, info, staked + amount, env);
      if updated.Err? {
        RollBack(saved, funds);
        return Err(updated.error);
      }
      stakers := stakers[who := updated.value.(startDate := env.now)];
      cut := cut + NewlyCut(Contents(), who);
      r := Ok(());
    }

    /** A withdrawal was requested: the amount moves from stake to lock. */
    method ReportStakingWithdrawRequest(who: UserId, amount: nat, address: nat, env: Env) returns (r: Result<()>)
      requires Valid(env.now)
      modifies this, ledger
      ensures var spec := RequestWithdraw(old(Contents()), old(ledger.balances), who, amount, address, env);
        && (spec.Ok? ==> r.Ok? && (Contents(), ledger.balances) == spec.value)
        && (spec.Err? ==> r == Err(spec.error))
      ensures r.Err? ==> Contents() == old(Contents()) && ledger.balances == old(ledger.balances)
      ensures Valid(env.now)
      ensures cut == old(cut) + if r.Ok? then NewlyCut(Contents(), who) else 0
    {
      hide UpdateStake, StakingInv, NewlyCut, SlashCut, OnlyPays, LockedGap, Balance;
      if RequestWithdraw(Contents(), ledger.balances, who, amount, address, env).Ok? {
        RequestKeeps(Contents(), ledger.balances, cut, env.now, who, amount, address, env);
      }
      var saved, funds := Contents(), ledger.balances;
      if who !in stakers {
        return Err(InsufficientStake);
      }
      var info := stakers[who];
      if address != info.address {
        return Err(InvalidAddress);
      }
      if info.staked < amount {
        return Err(InsufficientStake);
      }
      var updated := UpdateStakeAndPayRewards(who, info, info.staked - amount, env);
      if updated.Err? {
        RollBack(saved, funds);
        return Err(updated.error);
      }
      info := updated.value.(startDate := env.now);
      info := info.(locked := info.locked + amount);
      toWithdraw := toWithdraw + amount;
      stakers := stakers[who := info];
      cut := cut + NewlyCut(Contents(), who);
      r := Ok(());
    }

    /** A withdrawal was completed after its week of waiting. */
    method ReportStakeWithdrawn(who: UserId, amount: nat, now: Timestamp) returns (r: Result<()>)
      requires Valid(now)
      modifies `toWithdraw, `stakers
      ensures Valid(now)
      ensures var spec := Withdrawn(old(Contents()), who, amount, now);
        && (spec.Ok? ==> r.Ok? && Contents() == spec.value)
        && (spec.Err? ==> r == Err(spec.error) && Contents() == old(Contents()))
      ensures r.Ok? <==>
        && who in old(stakers)
        && 0 < old(stakers)[who].locked <= old(toWithdraw) && amount <= old(stakers)[who].locked
        && old(stakers)[who].startDate + 7 * DAYS <= now
    {
      hide StakingInv;
      ghost var balance0 := Balance(ledger.balances, StakingAccount);
      if Withdrawn(Contents(), who, amount, now).Ok? {
        WithdrawnKeeps(Contents(), balance0 + cut, now, who, amount, now);
      }
      if who !in stakers {
        return Err(InsufficientStake);
      }
      var info := stakers[who];
      if info.locked == 0 {
        return Err(NoWithdrawalRequested);
      }
      if now < info.startDate {
        return Err(Underflow);
      }
      if now - info.startDate < 7 * DAYS {
        return Err(WithdrawalPeriodPending);
      }
      var before := toWithdraw;
      if toWithdraw < info.locked {
        return Err(Underflow);
      }
      toWithdraw := toWithdraw - info.locked;
      if info.locked < amount {
        toWithdraw := before; // rolled back
        return Err(Underflow);
      }
      stakers := stakers[who := info.(locked := info.locked - amount)];
      r := Ok(());
    }

    /** The staker's side of a report: enough stake, and the lock since its last report over. */
    method RecordReport(who: UserId, stakeAmount: nat, now: Timestamp) returns (r: Result<()>)
      requires Valid(now)
      modifies `stakers
      ensures Valid(now)
      ensures var spec := Staking.RecordReport(old(Contents()), who, stakeAmount, now);
        && (spec.Ok? ==> r.Ok? && Contents() == spec.value)
        && (spec.Err? ==> r == Err(spec.error) && Contents() == old(Contents()))
      ensures r.Ok? <==>
        && who in old(stakers)
        && 0 < stakeAmount <= old(stakers)[who].staked && old(stakers)[who].lastReport <= now
        && Unlocked(old(stakers)[who], stakeAmount, now)
    {
      hide StakingInv, Unlocked;
      RecordReportIff(Contents(), who, stakeAmount, now);
      ghost var balance0 := Balance(ledger.balances, StakingAccount);
      if Staking.RecordReport(Contents(), who, stakeAmount, now).Ok? {
        RecordReportKeeps(Contents(), balance0 + cut, now, who, stakeAmount, now);
      }
      if who !in stakers {
        return Err(InsufficientStake);
      }
      var staker := stakers[who];
      if staker.staked < stakeAmount {
        return Err(InsufficientStake);
      }
      if now < staker.lastReport {
        return Err(Underflow);
      }
      if stakeAmount == 0 || staker.staked / stakeAmount == 0 {
        return Err(DivisionByZero);
      }
      if (now - staker.lastReport) * 1_000 <= REPORTING_LOCK * 1_000 / (staker.staked / stakeAmount) {
        return Err(ReporterTimeLocked);
      }
      staker := staker.(lastReport := now);
      staker := staker.(reports := staker.reports + 1);
      stakers := stakers[who := staker];
      r := Ok(());
    }

    /** A slash takes from the locked balance first, then from the stake, at most both. */
    method ReportSlash(who: UserId, amount: nat, env: Env) returns (r: Result<()>)
      requires Valid(env.now)
      modifies this, ledger
      ensures var spec := Slash(old(Contents()), old(ledger.balances), who, amount, env);
        && (spec.Ok? ==> r.Ok? && (Contents(), ledger.balances) == spec.value)
        && (spec.Err? ==> r == Err(spec.error))
      ensures r.Err? ==> Contents() == old(Contents()) && ledger.balances == old(ledger.balances)
      ensures Valid(env.now)
      ensures cut == old(cut) + if r.Ok? then SlashCut(old(Contents()), Contents(), who, amount) else 0
    {
      hide UpdateStake, StakingInv, NewlyCut, SlashCut, OnlyPays, LockedGap, Balance;
      if Slash(Contents(), ledger.balances, who, amount, env).Ok? {
        SlashKeeps(Contents(), ledger.balances, cut, env.now, who, amount, env);
      }
      var saved, funds := Contents(), ledger.balances;
      if who !in stakers {
        return Err(InsufficientStake);
      }
      var info := stakers[who];
      if info.staked + info.locked == 0 {
        return Err(InsufficientStake);
      }
      if info.locked >= amount {
        if toWithdraw < amount {
          return Err(Underflow);
        }
        toWithdraw := toWithdraw - amount;
        stakers := stakers[who := info.(locked := info.locked - amount)];
      } else if info.locked + info.staked >= amount {
        var updated := UpdateStakeAndPayRewards(who, info, info.staked - (amount - info.locked), env);
        if updated.Err? {
          RollBack(saved, funds);
          return Err(updated.error);
        }
        if toWithdraw < info.locked {
          RollBack(saved, funds);
          return Err(Underflow);
        }
        toWithdraw := toWithdraw - info.locked;
        stakers := stakers[who := updated.value.(locked := 0)];
      } else {
        if toWithdraw < info.locked {
          return Err(Underflow);
        }
        StakeIgnoresWithdrawals(saved, funds, who, info, 0, env, toWithdraw - info.locked);
        toWithdraw := toWithdraw - info.locked;
        var updated := UpdateStakeAndPayRewards(who, info, 0, env);
        if updated.Err? {
          RollBack(saved, funds);
          return Err(updated.error);
        }
        stakers := stakers[who := updated.value.(locked := 0)];
      }
      cut := cut + SlashCut(old(Contents()), Contents(), who, amount);
      r := Ok(());
    }
  }
}
